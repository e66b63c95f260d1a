/**
 * The `/tip` command: send TRX from the caller's wallet to another user's wallet, either the
 * author of the message the command replies to or a user named in the arguments, and the
 * removal job that later deletes the confirmation message.
 *
 * Telegram, the database and the Tron client are inputs (`Request`, `World`); what the command
 * does to them is the ordered list of `Effect`s it produces.
 */
module Tip {
  import opened Wrappers
  import opened Text
  import opened Amounts
  import opened Outcomes

  /** The author of the replied-to message; Telegram users need not have a username. */
  datatype ReplyTo = ReplyTo(username: Option<string>)

  /** The user who sent the command. */
  datatype Sender = Sender(userId: int, username: Option<string>, firstName: string)

  datatype Request = Request(replyTo: Option<ReplyTo>, args: seq<string>, sender: Sender)

  /** The outcome of one SQL statement: it failed, or it returned rows. */
  datatype DbResult<T> = DbFailed | Rows(rows: seq<T>)

  /** Of a `users` row the receiver's lookup uses the user id (column 0) and the address (column 5). */
  datatype Receiver = Receiver(userId: int, address: string)

  /** Of the sender's address row the transfer uses the address (column 1); its key signs the transfer. */
  datatype Wallet = Wallet(address: string)

  datatype TipConfig = TipConfig(privateRemoveAfter: int, publicRemoveAfter: int)

  /**
   * What the outside world answers, in the order the command asks: the receiver lookup, the
   * sender lookup, the balance (None: the query raised), the send, the confirmation message that
   * was posted, the chat's type (None: `get_chat` raised, Some(true): a private chat), the clock,
   * and whether tronapi's `toSun` raises when it is handed the amount as the user typed it.
   */
  datatype World = World(receivers: DbResult<Receiver>, wallets: DbResult<Wallet>, balance: Option<nat>,
                         send: SendResult, confirmation: MessageRef, chatIsPrivate: Option<bool>, now: int,
                         toSunRaises: bool)

  datatype TipReply =
    | AmountOnly                 // replying to a user, but not exactly one argument
    | Usage                      // not replying, and not exactly two arguments
    | InvalidAmount
    | SomethingWrong             // a lookup failed
    | NoReceiverWallet(username: string)
    | NoSenderWallet
    | NotEnoughFunds(balanceSun: nat)
    | FeeHint                    // the send returned no transaction
    | Failure                    // an exception inside the send block: its repr
    | Tipped(from: Option<string>, to: string, amount: string, txId: string)

  datatype Effect =
    | Reply(reply: TipReply)
    | LookupReceiver(username: string)
    | LookupSender(userId: int)
    | QueryBalance(address: string)
    | Transfer(from: string, to: string, amount: Amount)
    | ScheduleRemoval(at: int, context: string)
    | Notify(userId: int, fromName: string)
    | RecordTip(fromUserId: int, toUserId: int, amountSun: int)

  /** How the arguments are read: an immediate reply, a crash (no username to tip), or the target. */
  datatype Target = Refuse(reply: TipReply) | NoUsername | Target(amount: string, username: string)

  /** Argument dispatch: when replying the only argument is the amount, otherwise the amount and the user. */
  function Dispatch(req: Request): (t: Target)
    ensures t.Refuse? <==> (req.replyTo.Some? && |req.args| != 1) || (req.replyTo.None? && |req.args| != 2)
    ensures t.Refuse? ==> t.reply == (if req.replyTo.Some? then AmountOnly else Usage)
    ensures t.NoUsername? <==> req.replyTo.Some? && |req.args| == 1 && req.replyTo.value.username.None?
    ensures t.Target? ==> t.amount == req.args[0] && '@' !in t.username
    ensures t.Target? && req.replyTo.Some? ==> t.username == Remove(req.replyTo.value.username.value, '@')
    ensures t.Target? && req.replyTo.None? ==> t.username == Remove(req.args[1], '@')
  {
    match req.replyTo
    case Some(author) =>
      if |req.args| != 1 then Refuse(AmountOnly)
      else if author.username.None? then NoUsername
      else Target(req.args[0], Remove(author.username.value, '@'))
    case None =>
      if |req.args| != 2 then Refuse(Usage)
      else Target(req.args[0], Remove(req.args[1], '@'))
  }

  /** The job context naming the confirmation message: `f"{chat_id}_{message_id}"`, which splits on `_` into the two ids. */
  function RemoveContext(m: MessageRef): string {
    IntToString(m.chatId) + "_" + IntToString(m.msgId)
  }

  lemma RemoveContextSplits(m: MessageRef)
    ensures Split(RemoveContext(m), '_') == [IntToString(m.chatId), IntToString(m.msgId)]
  {
    IntToStringAlphabet(m.chatId, '_');
    IntToStringAlphabet(m.msgId, '_');
    SplitOfTwo(IntToString(m.chatId), IntToString(m.msgId));
  }

  /** Two texts joined by `_` split back into the same two, provided neither holds a `_`. */
  lemma SplitOfTwo(a: string, b: string)
    requires '_' !in a && '_' !in b
    ensures Split(a + "_" + b, '_') == [a, b]
  {
    var parts := [a, b];
    assert Join(parts, '_') == a + "_" + b by {
      assert parts[1..] == [b];
    }
    SplitJoin(parts, '_');
  }

  /** A reply that refuses or reports a failure: any reply but the confirmation of the tip. */
  predicate Refusal(e: Effect) {
    e.Reply? && !e.reply.Tipped?
  }

  /** A refusal ends the command: nothing follows it. */
  predicate RefusalsLast(effects: seq<Effect>) {
    forall k :: 0 <= k < |effects| && Refusal(effects[k]) ==> k == |effects| - 1
  }

  /** Effects that refuse nothing may go before a list whose refusals come last. */
  lemma RefusalsLastBehind(head: seq<Effect>, tail: seq<Effect>)
    requires forall k :: 0 <= k < |head| ==> !Refusal(head[k])
    requires RefusalsLast(tail)
    ensures RefusalsLast(head + tail)
  {
    forall k | |head| <= k < |head + tail| && Refusal((head + tail)[k])
      ensures k == |head + tail| - 1
    {
      assert (head + tail)[k] == tail[k - |head|];
    }
  }

  /** The name the receiver is told the tip came from: the username when it is non-empty, else the first name. */
  function FromName(s: Sender): string {
    if s.username.Some? && s.username.value != "" then s.username.value else s.firstName
  }

  /**
   * The whole command, as the ordered effects it has. It is silent only when the replied-to
   * author has no username (the handler crashes), and a refusal is always its last word.
   */
  function Execute(req: Request, cfg: TipConfig, w: World): (r: seq<Effect>)
    ensures r == [] <==> Dispatch(req).NoUsername?
    ensures RefusalsLast(r)
  {
    match Dispatch(req)
    case Refuse(reply) => [Reply(reply)]
    case NoUsername => []
    case Target(amountText, to) =>
      match ParseAmount(amountText)
      case None => [Reply(InvalidAmount)]
      case Some(amount) =>
        var rest := FindWallets(req.sender, amountText, amount, to, cfg, w);
        RefusalsLastBehind([LookupReceiver(to)], rest);
        [LookupReceiver(to)] + rest
  }

  /**
   * The receiver's and the sender's wallets, then the balance. A transfer happens only with the
   * amount read, when both wallets were found and the balance was read and covers the amount.
   */
  function FindWallets(sender: Sender, amountText: string, amount: Amount, to: string, cfg: TipConfig, w: World)
    : (r: seq<Effect>)
    ensures RefusalsLast(r)
  {
    match w.receivers
    case DbFailed => [Reply(SomethingWrong)]
    case Rows(rs) =>
      if rs == [] then [Reply(NoReceiverWallet(to))]
      else
        match w.wallets
        case DbFailed => [LookupSender(sender.userId)] + [Reply(SomethingWrong)]
        case Rows(ws) =>
          if ws == [] then [LookupSender(sender.userId)] + [Reply(NoSenderWallet)]
          else
            match w.balance
            case None => [LookupSender(sender.userId)] + [QueryBalance(ws[0].address)]
            case Some(balance) =>
              if Exceeds(amount, balance) then
                [LookupSender(sender.userId)] + [QueryBalance(ws[0].address)] + [Reply(NotEnoughFunds(balance))]
              else
                var sent := Send(sender, amountText, amount, to, ws[0], rs[0], cfg, w);
                RefusalsLastBehind([LookupSender(sender.userId)] + [QueryBalance(ws[0].address)], sent);
                [LookupSender(sender.userId)] + [QueryBalance(ws[0].address)] + sent
  }

  /**
   * The guarded block: transfer, confirm, schedule the confirmation's removal, notify, record.
   * The transfer comes first, and a refusal or error ends the block.
   */
  function Send(sender: Sender, amountText: string, amount: Amount, to: string, wallet: Wallet, receiver: Receiver,
                cfg: TipConfig, w: World): (r: seq<Effect>)
    ensures |r| >= 2 && r[0] == Transfer(wallet.address, receiver.address, amount)
    ensures RefusalsLast(r)
  {
    match w.send
    case Raised => [Transfer(wallet.address, receiver.address, amount)] + [Reply(Failure)]
    case NoTransaction => [Transfer(wallet.address, receiver.address, amount)] + [Reply(FeeHint)]
    case Sent(txId) =>
      var rest := Confirmed(sender, amount, receiver, cfg, w);
      RefusalsLastBehind([Transfer(wallet.address, receiver.address, amount)] +
                         [Reply(Tipped(sender.username, to, amountText, txId))], rest);
      [Transfer(wallet.address, receiver.address, amount)] +
      [Reply(Tipped(sender.username, to, amountText, txId))] + rest
  }

  /**
   * What follows the confirmation: read the chat type, schedule the confirmation's removal,
   * notify the receiver, convert the amount and record the tip. A step that raises ends it with
   * the error reply, and then no tip is recorded.
   */
  function Confirmed(sender: Sender, amount: Amount, receiver: Receiver, cfg: TipConfig, w: World): (r: seq<Effect>)
    ensures |r| >= 1 && RefusalsLast(r)
    ensures r[|r| - 1] == Reply(Failure) <==> w.chatIsPrivate.None? || w.toSunRaises
  {
    match w.chatIsPrivate
    case None => [Reply(Failure)]
    case Some(isPrivate) =>
      var after := if isPrivate then cfg.privateRemoveAfter else cfg.publicRemoveAfter;
      [ScheduleRemoval(w.now + after, RemoveContext(w.confirmation))] +
      [Notify(receiver.userId, FromName(sender))] +
      if w.toSunRaises then [Reply(Failure)]
      else [RecordTip(sender.userId, receiver.userId, ToSun(amount))]
  }

  /** `execute`, step by step; the tip plugin keeps no state of its own. */
  method RunTip(req: Request, cfg: TipConfig, w: World) returns (effects: seq<Effect>)
    ensures effects == Execute(req, cfg, w)
  {
    effects := [];
    var amountText, to;
    if req.replyTo.Some? {
      if |req.args| != 1 {
        effects := [Reply(AmountOnly)];
        return;
      }
      amountText := req.args[0];
      if req.replyTo.value.username.None? {
        return;
      }
      to := Remove(req.replyTo.value.username.value, '@');
    } else {
      if |req.args| != 2 {
        effects := [Reply(Usage)];
        return;
      }
      amountText := req.args[0];
      to := Remove(req.args[1], '@');
    }

    var parsed := ParseAmount(amountText);
    if parsed.None? {
      effects := [Reply(InvalidAmount)];
      return;
    }
    var amount := parsed.value;
    var rest := LookUpAndSend(req.sender, amountText, amount, to, cfg, w);
    effects := [LookupReceiver(to)] + rest;
  }

  /** `execute` after the amount is read: both wallets, the balance and the funds guard, then the send. */
  method LookUpAndSend(sender: Sender, amountText: string, amount: Amount, to: string, cfg: TipConfig, w: World)
    returns (effects: seq<Effect>)
    ensures effects == FindWallets(sender, amountText, amount, to, cfg, w)
  {
    if w.receivers.DbFailed? {
      return [Reply(SomethingWrong)];
    }
    if w.receivers.rows == [] {
      return [Reply(NoReceiverWallet(to))];
    }
    var receiver := w.receivers.rows[0];

    effects := [LookupSender(sender.userId)];
    if w.wallets.DbFailed? {
      effects := effects + [Reply(SomethingWrong)];
      return;
    }
    if w.wallets.rows == [] {
      effects := effects + [Reply(NoSenderWallet)];
      return;
    }
    var wallet := w.wallets.rows[0];

    effects := effects + [QueryBalance(wallet.address)];
    if w.balance.None? {
      return;
    }
    if Exceeds(amount, w.balance.value) {
      effects := effects + [Reply(NotEnoughFunds(w.balance.value))];
      return;
    }

    var sent := SendTip(sender, amountText, amount, to, wallet, receiver, cfg, w);
    effects := effects + sent;
  }

  /** The `try` block of `execute`. */
  method SendTip(sender: Sender, amountText: string, amount: Amount, to: string, wallet: Wallet,
                 receiver: Receiver, cfg: TipConfig, w: World) returns (effects: seq<Effect>)
    ensures effects == Send(sender, amountText, amount, to, wallet, receiver, cfg, w)
  {
    effects := [Transfer(wallet.address, receiver.address, amount)];
    if w.send.Raised? {
      effects := effects + [Reply(Failure)];
      return;
    }
    if w.send.NoTransaction? {
      effects := effects + [Reply(FeeHint)];
      return;
    }
    effects := effects + [Reply(Tipped(sender.username, to, amountText, w.send.txId))];
    var rest := FinishTip(sender, amount, receiver, cfg, w);
    effects := effects + rest;
  }

  /** The steps after the confirmation, one by one. */
  method FinishTip(sender: Sender, amount: Amount, receiver: Receiver, cfg: TipConfig, w: World)
    returns (effects: seq<Effect>)
    ensures effects == Confirmed(sender, amount, receiver, cfg, w)
  {
    if w.chatIsPrivate.None? {
      return [Reply(Failure)];
    }
    var after := if w.chatIsPrivate.value then cfg.privateRemoveAfter else cfg.publicRemoveAfter;
    effects := [ScheduleRemoval(w.now + after, RemoveContext(w.confirmation))];
    effects := effects + [Notify(receiver.userId, FromName(sender))];
    if w.toSunRaises {
      effects := effects + [Reply(Failure)];
      return;
    }
    effects := effects + [RecordTip(sender.userId, receiver.userId, ToSun(amount))];
  }

  /** The message `_remove_msg` deletes, as the two texts it passes on; None: the context has no `_`. */
  datatype Deletion = Deletion(chatId: string, msgId: string)

  /** `_remove_msg`: split the context on `_` and take the first two parts. */
  function RemoveMsg(context: string): (d: Option<Deletion>)
    ensures d.None? <==> '_' !in context
  {
    var parts := Split(context, '_');
    if |parts| < 2 then None else Some(Deletion(parts[0], parts[1]))
  }
}
