/** What the `/tip` command promises, stated over the effects of `Tip.Execute`. */
module TipProperties {
  import opened Wrappers
  import opened Text
  import opened Amounts
  import opened Outcomes
  import opened Tip

  /** The command gets past every check and reaches the transfer. */
  predicate ReachesSend(req: Request, w: World) {
    var t := Dispatch(req);
    && t.Target?
    && ParseAmount(t.amount).Some?
    && w.receivers.Rows? && w.receivers.rows != []
    && w.wallets.Rows? && w.wallets.rows != []
    && w.balance.Some?
    && !Exceeds(ParseAmount(t.amount).value, w.balance.value)
  }

  /** The amount the command read, once it reaches the transfer. */
  function SentAmount(req: Request, w: World): Amount
    requires ReachesSend(req, w)
  {
    ParseAmount(Dispatch(req).amount).value
  }

  predicate NoTransfer(effects: seq<Effect>) {
    forall e <- effects :: !e.Transfer?
  }

  predicate NoRecord(effects: seq<Effect>) {
    forall e <- effects :: !e.RecordTip?
  }

  /** The guarded block the command runs once every check passes. */
  function SendBlock(req: Request, cfg: TipConfig, w: World): seq<Effect>
    requires ReachesSend(req, w)
  {
    var t := Dispatch(req);
    Send(req.sender, t.amount, SentAmount(req, w), t.username, w.wallets.rows[0], w.receivers.rows[0], cfg, w)
  }

  /** Past every check: the receiver lookup, the sender lookup, the balance query, then the guarded block. */
  lemma SendPrefix(req: Request, cfg: TipConfig, w: World)
    requires ReachesSend(req, w)
    ensures Execute(req, cfg, w) ==
      [LookupReceiver(Dispatch(req).username), LookupSender(req.sender.userId),
       QueryBalance(w.wallets.rows[0].address)] + SendBlock(req, cfg, w)
  {
    var t := Dispatch(req);
    var s := SendBlock(req, cfg, w);
    assert FindWallets(req.sender, t.amount, SentAmount(req, w), t.username, cfg, w)
      == [LookupSender(req.sender.userId)] + [QueryBalance(w.wallets.rows[0].address)] + s;
    OneThenTwo(LookupReceiver(t.username), LookupSender(req.sender.userId), QueryBalance(w.wallets.rows[0].address), s);
  }

  lemma OneThenTwo<T>(a: T, b: T, c: T, s: seq<T>)
    ensures [a] + ([b] + [c] + s) == [a, b, c] + s
  {
  }

  /**
   * Past every check, when the send does not go out or `get_chat` raises: the lookups, the
   * transfer, then the fee hint or the error, after the confirmation when the send went out.
   */
  lemma UnconfirmedEffects(req: Request, cfg: TipConfig, w: World)
    requires ReachesSend(req, w) && !(w.send.Sent? && w.chatIsPrivate.Some?)
    ensures var e := Execute(req, cfg, w);
      var t := Dispatch(req);
      var lookups := [LookupReceiver(t.username), LookupSender(req.sender.userId), QueryBalance(w.wallets.rows[0].address)];
      var transfer := Transfer(w.wallets.rows[0].address, w.receivers.rows[0].address, SentAmount(req, w));
      && (w.send.Raised? ==> e == [lookups[0], lookups[1], lookups[2], transfer, Reply(Failure)])
      && (w.send.NoTransaction? ==> e == [lookups[0], lookups[1], lookups[2], transfer, Reply(FeeHint)])
      && (w.send.Sent? ==>
            e == [lookups[0], lookups[1], lookups[2], transfer,
                  Reply(Tipped(req.sender.username, t.username, t.amount, w.send.txId)), Reply(Failure)])
  {
    var lookups := [LookupReceiver(Dispatch(req).username), LookupSender(req.sender.userId),
                    QueryBalance(w.wallets.rows[0].address)];
    var s := SendBlock(req, cfg, w);
    SendPrefix(req, cfg, w);
    SendBlockEffects(req, cfg, w);
    if !w.send.Sent? {
      ThreeThenTwo(lookups[0], lookups[1], lookups[2], s[0], s[1]);
    } else {
      ThreeThenThree(lookups[0], lookups[1], lookups[2], s[0], s[1], s[2]);
    }
  }

  /**
   * Past every check, when the send goes out and `get_chat` answers: the lookups, the transfer,
   * the confirmation, its scheduled removal, the notification, then the record or, when `toSun`
   * raises, the error.
   */
  lemma ConfirmedEffects(req: Request, cfg: TipConfig, w: World)
    requires ReachesSend(req, w) && w.send.Sent? && w.chatIsPrivate.Some?
    ensures var t := Dispatch(req);
      Execute(req, cfg, w) ==
        [LookupReceiver(t.username), LookupSender(req.sender.userId), QueryBalance(w.wallets.rows[0].address),
         Transfer(w.wallets.rows[0].address, w.receivers.rows[0].address, SentAmount(req, w)),
         Reply(Tipped(req.sender.username, t.username, t.amount, w.send.txId)),
         ScheduleRemoval(w.now + (if w.chatIsPrivate.value then cfg.privateRemoveAfter
                                  else cfg.publicRemoveAfter),
                         RemoveContext(w.confirmation)),
         Notify(w.receivers.rows[0].userId, FromName(req.sender)),
         if w.toSunRaises then Reply(Failure)
         else RecordTip(req.sender.userId, w.receivers.rows[0].userId, ToSun(SentAmount(req, w)))]
  {
    var s := SendBlock(req, cfg, w);
    SendPrefix(req, cfg, w);
    SendBlockEffects(req, cfg, w);
    ThreeThenFive(LookupReceiver(Dispatch(req).username), LookupSender(req.sender.userId),
                  QueryBalance(w.wallets.rows[0].address), s[0], s[1], s[2], s[3], s[4]);
  }

  lemma ThreeThenTwo<T>(a: T, b: T, c: T, d: T, e: T)
    ensures [a, b, c] + [d, e] == [a, b, c, d, e]
  {
  }

  lemma ThreeThenThree<T>(a: T, b: T, c: T, d: T, e: T, f: T)
    ensures [a, b, c] + [d, e, f] == [a, b, c, d, e, f]
  {
  }

  lemma ThreeThenFive<T>(a: T, b: T, c: T, d: T, e: T, f: T, g: T, h: T)
    ensures [a, b, c] + [d, e, f, g, h] == [a, b, c, d, e, f, g, h]
  {
  }

  /**
   * A transfer is made exactly when every check passes, it is the only one, and it moves the
   * amount read from the sender's first wallet to the receiver's first address.
   */
  lemma {:induction false} TransferIffChecksPass(req: Request, cfg: TipConfig, w: World)
    ensures !ReachesSend(req, w) <==> NoTransfer(Execute(req, cfg, w))
    ensures ReachesSend(req, w) ==>
      forall i :: 0 <= i < |Execute(req, cfg, w)| && Execute(req, cfg, w)[i].Transfer? ==>
        i == 3 && Execute(req, cfg, w)[i] ==
          Transfer(w.wallets.rows[0].address, w.receivers.rows[0].address, SentAmount(req, w))
  {
    if ReachesSend(req, w) {
      var s := SendBlock(req, cfg, w);
      SendPrefix(req, cfg, w);
      SendBlockEffects(req, cfg, w);
      TransferAfterLookups([LookupReceiver(Dispatch(req).username), LookupSender(req.sender.userId),
                            QueryBalance(w.wallets.rows[0].address)], s);
    } else {
      StopsBeforeSend(req, cfg, w);
    }
  }

  /** Three effects that transfer nothing, then a block whose only transfer is its first effect. */
  lemma TransferAfterLookups(lookups: seq<Effect>, s: seq<Effect>)
    requires |lookups| == 3 && NoTransfer(lookups)
    requires |s| >= 1 && s[0].Transfer? && forall i :: 1 <= i < |s| ==> !s[i].Transfer?
    ensures (lookups + s)[3] == s[0] && !NoTransfer(lookups + s)
    ensures forall i :: 0 <= i < |lookups + s| && (lookups + s)[i].Transfer? ==> i == 3
  {
    var e := lookups + s;
    assert e[3] in e;
    forall i | 0 <= i < |e| && e[i].Transfer? ensures i == 3 {
      if i >= 3 {
        assert e[i] == s[i - 3];
      }
    }
  }

  /** Whatever the balance, a transfer never moves more sun than the sender's wallet holds. */
  lemma TransferWithinBalance(req: Request, cfg: TipConfig, w: World)
    ensures forall i :: 0 <= i < |Execute(req, cfg, w)| && Execute(req, cfg, w)[i].Transfer? ==>
      w.balance.Some? && ToSun(Execute(req, cfg, w)[i].amount) <= w.balance.value
  {
    TransferIffChecksPass(req, cfg, w);
    if ReachesSend(req, w) {
      WithinBalance(SentAmount(req, w), w.balance.value);
    }
  }

  /** A wrong argument count is answered at once and nothing else happens. */
  lemma ArgumentCount(req: Request, cfg: TipConfig, w: World)
    ensures req.replyTo.Some? && |req.args| != 1 ==> Execute(req, cfg, w) == [Reply(AmountOnly)]
    ensures req.replyTo.None? && |req.args| != 2 ==> Execute(req, cfg, w) == [Reply(Usage)]
  {
  }

  /** An amount that is not a number is refused before any lookup. */
  lemma NonNumericRejectedFirst(req: Request, cfg: TipConfig, w: World)
    requires Dispatch(req).Target? && ParseAmount(req.args[0]).None?
    ensures Execute(req, cfg, w) == [Reply(InvalidAmount)]
  {
  }

  /** The receiver is looked up under the given name with every `@` removed. */
  lemma LookupStripsAt(req: Request, cfg: TipConfig, w: World)
    ensures forall i :: 0 <= i < |Execute(req, cfg, w)| && Execute(req, cfg, w)[i].LookupReceiver? ==>
      && i == 0
      && '@' !in Execute(req, cfg, w)[i].username
      && Execute(req, cfg, w)[i].username ==
         Remove(if req.replyTo.Some? then req.replyTo.value.username.value else req.args[1], '@')
  {
    var e := Execute(req, cfg, w);
    var t := Dispatch(req);
    if t.Target? && ParseAmount(t.amount).Some? {
      var rest := FindWallets(req.sender, t.amount, ParseAmount(t.amount).value, t.username, cfg, w);
      assert e == [LookupReceiver(t.username)] + rest;
      NoLaterLookup(req.sender, t.amount, ParseAmount(t.amount).value, t.username, cfg, w);
      forall i | 1 <= i < |e| ensures !e[i].LookupReceiver? {
        assert e[i] == rest[i - 1];
      }
    }
  }

  /** After the receiver lookup the receiver is not looked up again. */
  lemma NoLaterLookup(sender: Sender, amountText: string, amount: Amount, to: string, cfg: TipConfig, w: World)
    ensures var rest := FindWallets(sender, amountText, amount, to, cfg, w);
      forall i :: 0 <= i < |rest| ==> !rest[i].LookupReceiver?
  {
    if && w.receivers.Rows? && w.receivers.rows != [] && w.wallets.Rows? && w.wallets.rows != []
       && w.balance.Some? && !Exceeds(amount, w.balance.value)
    {
      var s := Send(sender, amountText, amount, to, w.wallets.rows[0], w.receivers.rows[0], cfg, w);
      SendEffects(sender, amountText, amount, to, w.wallets.rows[0], w.receivers.rows[0], cfg, w);
      assert forall i :: 0 <= i < |s| ==> !s[i].LookupReceiver?;
      NoLookupBehind([LookupSender(sender.userId)] + [QueryBalance(w.wallets.rows[0].address)], s);
    }
  }

  lemma NoLookupBehind(head: seq<Effect>, s: seq<Effect>)
    requires forall i :: 0 <= i < |head| ==> !head[i].LookupReceiver?
    requires forall i :: 0 <= i < |s| ==> !s[i].LookupReceiver?
    ensures forall i :: 0 <= i < |head + s| ==> !(head + s)[i].LookupReceiver?
  {
  }

  /** A missing wallet on either side ends the command with its message, and nothing is sent. */
  lemma MissingWalletStops(req: Request, cfg: TipConfig, w: World)
    requires Dispatch(req).Target? && ParseAmount(req.args[0]).Some?
    ensures w.receivers == Rows([]) ==>
      Execute(req, cfg, w) == [LookupReceiver(Dispatch(req).username), Reply(NoReceiverWallet(Dispatch(req).username))]
    ensures w.receivers.Rows? && w.receivers.rows != [] && w.wallets == Rows([]) ==>
      Execute(req, cfg, w) == [LookupReceiver(Dispatch(req).username), LookupSender(req.sender.userId),
                               Reply(NoSenderWallet)]
  {
  }

  /** An amount above the balance is refused with the balance, after the balance query and before any send. */
  lemma InsufficientFunds(req: Request, cfg: TipConfig, w: World)
    requires Dispatch(req).Target? && ParseAmount(req.args[0]).Some?
    requires w.receivers.Rows? && w.receivers.rows != [] && w.wallets.Rows? && w.wallets.rows != []
    requires w.balance.Some? && Exceeds(ParseAmount(req.args[0]).value, w.balance.value)
    ensures Execute(req, cfg, w) ==
      [LookupReceiver(Dispatch(req).username), LookupSender(req.sender.userId),
       QueryBalance(w.wallets.rows[0].address), Reply(NotEnoughFunds(w.balance.value))]
  {
  }

  /** The funds guard compares signed amounts, so a negative amount always passes it and reaches the send. */
  lemma NegativeAmountPassesGuard(req: Request, w: World)
    requires Dispatch(req).Target? && ParseAmount(req.args[0]).Some? && ParseAmount(req.args[0]).value.negative
    requires w.receivers.Rows? && w.receivers.rows != [] && w.wallets.Rows? && w.wallets.rows != []
    requires w.balance.Some?
    ensures ReachesSend(req, w)
  {
    NegativeNeverExceeds(ParseAmount(req.args[0]).value, w.balance.value);
  }

  /**
   * After the transfer: a send without a transaction gives the fee hint, a raising send the
   * error, and neither records a tip.
   */
  lemma FailedSendRecordsNothing(req: Request, cfg: TipConfig, w: World)
    requires ReachesSend(req, w) && !w.send.Sent?
    ensures var e := Execute(req, cfg, w);
      && |e| == 5
      && e[4] == Reply(if w.send.NoTransaction? then FeeHint else Failure)
      && NoRecord(e)
  {
    UnconfirmedEffects(req, cfg, w);
    var e := Execute(req, cfg, w);
    QuietThenFive(e[0], e[1], e[2], e[3], e[4]);
  }

  /**
   * A tip is recorded exactly when the transfer went out, the chat could be read and the amount
   * could be converted to sun, as the last effect, in sun, after the transfer, the confirmation
   * and the scheduled removal of that confirmation.
   */
  lemma {:induction false} RecordedIffSent(req: Request, cfg: TipConfig, w: World)
    ensures !NoRecord(Execute(req, cfg, w)) <==>
      ReachesSend(req, w) && w.send.Sent? && w.chatIsPrivate.Some? && !w.toSunRaises
    ensures ReachesSend(req, w) && w.send.Sent? && w.chatIsPrivate.Some? && !w.toSunRaises ==>
      var e := Execute(req, cfg, w);
      var t := Dispatch(req);
      && |e| == 8
      && e[3] == Transfer(w.wallets.rows[0].address, w.receivers.rows[0].address, SentAmount(req, w))
      && e[4] == Reply(Tipped(req.sender.username, t.username, t.amount, w.send.txId))
      && e[5] == ScheduleRemoval(w.now + (if w.chatIsPrivate.value then cfg.privateRemoveAfter
                                          else cfg.publicRemoveAfter),
                                 RemoveContext(w.confirmation))
      && e[6] == Notify(w.receivers.rows[0].userId, FromName(req.sender))
      && e[7] == RecordTip(req.sender.userId, w.receivers.rows[0].userId, ToSun(SentAmount(req, w)))
      && forall i :: 0 <= i < 7 ==> !e[i].RecordTip?
  {
    if !ReachesSend(req, w) {
      StopsBeforeSend(req, cfg, w);
    } else if !w.send.Sent? {
      FailedSendRecordsNothing(req, cfg, w);
    } else if w.chatIsPrivate.None? {
      ChatFailureRecordsNothing(req, cfg, w);
    } else if w.toSunRaises {
      ToSunFailureRecordsNothing(req, cfg, w);
    } else {
      ConfirmedTipRecorded(req, cfg, w);
    }
  }

  /** The effects of a tip that went out, was confirmed, and was recorded. */
  lemma ConfirmedTipRecorded(req: Request, cfg: TipConfig, w: World)
    requires ReachesSend(req, w) && w.send.Sent? && w.chatIsPrivate.Some? && !w.toSunRaises
    ensures var e := Execute(req, cfg, w);
      var t := Dispatch(req);
      && |e| == 8
      && e[3] == Transfer(w.wallets.rows[0].address, w.receivers.rows[0].address, SentAmount(req, w))
      && e[4] == Reply(Tipped(req.sender.username, t.username, t.amount, w.send.txId))
      && e[5] == ScheduleRemoval(w.now + (if w.chatIsPrivate.value then cfg.privateRemoveAfter
                                          else cfg.publicRemoveAfter),
                                 RemoveContext(w.confirmation))
      && e[6] == Notify(w.receivers.rows[0].userId, FromName(req.sender))
      && e[7] == RecordTip(req.sender.userId, w.receivers.rows[0].userId, ToSun(SentAmount(req, w)))
      && forall i :: 0 <= i < 7 ==> !e[i].RecordTip?
  {
    ConfirmedEffects(req, cfg, w);
    var e := Execute(req, cfg, w);
    QuietThenEight(e[0], e[1], e[2], e[3], e[4], e[5], e[6], e[7]);
  }

  /** When `get_chat` raises after the send, the error is replied and no tip is recorded. */
  lemma ChatFailureRecordsNothing(req: Request, cfg: TipConfig, w: World)
    requires ReachesSend(req, w) && w.send.Sent? && w.chatIsPrivate.None?
    ensures var e := Execute(req, cfg, w);
      |e| == 6 && e[5] == Reply(Failure) && NoRecord(e)
  {
    UnconfirmedEffects(req, cfg, w);
    var e := Execute(req, cfg, w);
    QuietThenSix(e[0], e[1], e[2], e[3], e[4], e[5]);
  }

  /**
   * When `toSun` raises on the amount text, the tip went out, was confirmed, its confirmation is
   * scheduled for removal and the receiver notified, and then the error is replied and no tip is
   * recorded.
   */
  lemma ToSunFailureRecordsNothing(req: Request, cfg: TipConfig, w: World)
    requires ReachesSend(req, w) && w.send.Sent? && w.chatIsPrivate.Some? && w.toSunRaises
    ensures var e := Execute(req, cfg, w);
      var t := Dispatch(req);
      && |e| == 8
      && e[4] == Reply(Tipped(req.sender.username, t.username, t.amount, w.send.txId))
      && e[5].ScheduleRemoval?
      && e[6] == Notify(w.receivers.rows[0].userId, FromName(req.sender))
      && e[7] == Reply(Failure)
      && NoRecord(e)
  {
    ConfirmedEffects(req, cfg, w);
    var e := Execute(req, cfg, w);
    QuietThenEight(e[0], e[1], e[2], e[3], e[4], e[5], e[6], e[7]);
  }

  /**
   * The error reply (`repr(e)`) is sent exactly when the command reaches the send and then the
   * send raises, or the send went out and `get_chat` or `toSun` raised.
   */
  lemma FailureIffRaised(req: Request, cfg: TipConfig, w: World)
    ensures Reply(Failure) in Execute(req, cfg, w) <==>
      ReachesSend(req, w) && (w.send.Raised? || (w.send.Sent? && (w.chatIsPrivate.None? || w.toSunRaises)))
  {
    if !ReachesSend(req, w) {
      StopsBeforeSend(req, cfg, w);
    } else if w.send.Sent? && w.chatIsPrivate.Some? {
      ConfirmedEffects(req, cfg, w);
      var e := Execute(req, cfg, w);
      QuietThenEight(e[0], e[1], e[2], e[3], e[4], e[5], e[6], e[7]);
    } else if !w.send.Sent? {
      UnconfirmedEffects(req, cfg, w);
      var e := Execute(req, cfg, w);
      QuietThenFive(e[0], e[1], e[2], e[3], e[4]);
    } else {
      UnconfirmedEffects(req, cfg, w);
      var e := Execute(req, cfg, w);
      QuietThenSix(e[0], e[1], e[2], e[3], e[4], e[5]);
    }
  }

  /** Neither a tip record nor the error reply. */
  predicate Quiet(x: Effect) {
    !x.RecordTip? && x != Reply(Failure)
  }

  /** Quiet effects, then a last one that is no record: the error is replied iff it comes last. */
  lemma QuietThenFive(a: Effect, b: Effect, c: Effect, d: Effect, x: Effect)
    requires Quiet(a) && Quiet(b) && Quiet(c) && Quiet(d) && !x.RecordTip?
    ensures NoRecord([a, b, c, d, x])
    ensures Reply(Failure) in [a, b, c, d, x] <==> x == Reply(Failure)
  {
  }

  lemma QuietThenSix(a: Effect, b: Effect, c: Effect, d: Effect, e: Effect, x: Effect)
    requires Quiet(a) && Quiet(b) && Quiet(c) && Quiet(d) && Quiet(e) && !x.RecordTip?
    ensures NoRecord([a, b, c, d, e, x])
    ensures Reply(Failure) in [a, b, c, d, e, x] <==> x == Reply(Failure)
  {
  }

  /** Seven quiet effects, then the last: a record is made, or the error replied, only there. */
  lemma QuietThenEight(a: Effect, b: Effect, c: Effect, d: Effect, e: Effect, f: Effect, g: Effect, x: Effect)
    requires Quiet(a) && Quiet(b) && Quiet(c) && Quiet(d) && Quiet(e) && Quiet(f) && Quiet(g)
    ensures var s := [a, b, c, d, e, f, g, x];
      && (NoRecord(s) <==> !x.RecordTip?)
      && (forall i :: 0 <= i < 7 ==> !s[i].RecordTip?)
      && (Reply(Failure) in s <==> x == Reply(Failure))
  {
  }

  /** The guarded block alone: what follows the transfer for each answer of the send, of `get_chat` and of `toSun`. */
  lemma SendEffects(sender: Sender, amountText: string, amount: Amount, to: string, wallet: Wallet,
                    receiver: Receiver, cfg: TipConfig, w: World)
    ensures var s := Send(sender, amountText, amount, to, wallet, receiver, cfg, w);
      var transfer := Transfer(wallet.address, receiver.address, amount);
      && s[0] == transfer
      && (forall i :: 1 <= i < |s| ==> !s[i].Transfer?)
      && (!w.send.Sent? ==> s == [transfer, Reply(if w.send.NoTransaction? then FeeHint else Failure)])
      && (w.send.Sent? && w.chatIsPrivate.None? ==>
            s == [transfer, Reply(Tipped(sender.username, to, amountText, w.send.txId)), Reply(Failure)])
      && (w.send.Sent? && w.chatIsPrivate.Some? ==>
            s == [transfer, Reply(Tipped(sender.username, to, amountText, w.send.txId)),
                  ScheduleRemoval(w.now + (if w.chatIsPrivate.value then cfg.privateRemoveAfter
                                           else cfg.publicRemoveAfter),
                                  RemoveContext(w.confirmation)),
                  Notify(receiver.userId, FromName(sender)),
                  if w.toSunRaises then Reply(Failure) else RecordTip(sender.userId, receiver.userId, ToSun(amount))])
  {
    var transfer := Transfer(wallet.address, receiver.address, amount);
    match w.send
    case Raised =>
      OneThenOne(transfer, Reply(Failure));
    case NoTransaction =>
      OneThenOne(transfer, Reply(FeeHint));
    case Sent(txId) =>
      var tipped := Reply(Tipped(sender.username, to, amountText, txId));
      match w.chatIsPrivate
      case None =>
        TwoThenOne(transfer, tipped, Reply(Failure));
      case Some(isPrivate) =>
        ConfirmedSendEffects(sender, amountText, amount, to, wallet, receiver, cfg, w);
  }

  /** SendEffects once the transfer is sent and the chat's type is known. */
  lemma ConfirmedSendEffects(sender: Sender, amountText: string, amount: Amount, to: string, wallet: Wallet,
                             receiver: Receiver, cfg: TipConfig, w: World)
    requires w.send.Sent? && w.chatIsPrivate.Some?
    ensures Send(sender, amountText, amount, to, wallet, receiver, cfg, w) ==
      [Transfer(wallet.address, receiver.address, amount),
       Reply(Tipped(sender.username, to, amountText, w.send.txId)),
       ScheduleRemoval(w.now + (if w.chatIsPrivate.value then cfg.privateRemoveAfter else cfg.publicRemoveAfter),
                       RemoveContext(w.confirmation)),
       Notify(receiver.userId, FromName(sender)),
       if w.toSunRaises then Reply(Failure) else RecordTip(sender.userId, receiver.userId, ToSun(amount))]
  {
    var transfer := Transfer(wallet.address, receiver.address, amount);
    var tipped := Reply(Tipped(sender.username, to, amountText, w.send.txId));
    var after := if w.chatIsPrivate.value then cfg.privateRemoveAfter else cfg.publicRemoveAfter;
    var removal := ScheduleRemoval(w.now + after, RemoveContext(w.confirmation));
    var notify := Notify(receiver.userId, FromName(sender));
    if w.toSunRaises {
      TwoThenThree(transfer, tipped, removal, notify, Reply(Failure));
    } else {
      TwoThenThree(transfer, tipped, removal, notify, RecordTip(sender.userId, receiver.userId, ToSun(amount)));
    }
  }

  lemma OneThenOne<T>(a: T, b: T)
    ensures [a] + [b] == [a, b]
  {
  }

  lemma TwoThenOne<T>(a: T, b: T, c: T)
    ensures [a] + [b] + [c] == [a, b, c]
  {
  }

  lemma TwoThenThree<T>(a: T, b: T, c: T, d: T, e: T)
    ensures [a] + [b] + ([c] + [d] + [e]) == [a, b, c, d, e]
  {
  }

  /** SendEffects for the block the command reaches. */
  lemma SendBlockEffects(req: Request, cfg: TipConfig, w: World)
    requires ReachesSend(req, w)
    ensures var s := SendBlock(req, cfg, w);
      var t := Dispatch(req);
      && s[0] == Transfer(w.wallets.rows[0].address, w.receivers.rows[0].address, SentAmount(req, w))
      && (forall i :: 1 <= i < |s| ==> !s[i].Transfer?)
      && (!w.send.Sent? ==> s == [s[0], Reply(if w.send.NoTransaction? then FeeHint else Failure)])
      && (w.send.Sent? && w.chatIsPrivate.None? ==>
            s == [s[0], Reply(Tipped(req.sender.username, t.username, t.amount, w.send.txId)), Reply(Failure)])
      && (w.send.Sent? && w.chatIsPrivate.Some? ==>
            s == [s[0], Reply(Tipped(req.sender.username, t.username, t.amount, w.send.txId)),
                  ScheduleRemoval(w.now + (if w.chatIsPrivate.value then cfg.privateRemoveAfter
                                           else cfg.publicRemoveAfter),
                                  RemoveContext(w.confirmation)),
                  Notify(w.receivers.rows[0].userId, FromName(req.sender)),
                  if w.toSunRaises then Reply(Failure)
                  else RecordTip(req.sender.userId, w.receivers.rows[0].userId, ToSun(SentAmount(req, w)))])
  {
    var t := Dispatch(req);
    SendEffects(req.sender, t.amount, SentAmount(req, w), t.username, w.wallets.rows[0], w.receivers.rows[0], cfg, w);
  }

  /** A command that stops before the transfer neither transfers nor records. */
  lemma {:induction false} StopsBeforeSend(req: Request, cfg: TipConfig, w: World)
    requires !ReachesSend(req, w)
    ensures NoTransfer(Execute(req, cfg, w)) && NoRecord(Execute(req, cfg, w))
    ensures Reply(Failure) !in Execute(req, cfg, w)
  {
    var e := Execute(req, cfg, w);
    var t := Dispatch(req);
    if t.Target? && ParseAmount(t.amount).Some? {
      var rest := FindWallets(req.sender, t.amount, ParseAmount(t.amount).value, t.username, cfg, w);
      assert e == [LookupReceiver(t.username)] + rest;
      WalletChecksStop(req.sender, t.amount, ParseAmount(t.amount).value, t.username, cfg, w);
      forall i | 1 <= i < |e| ensures !e[i].Transfer? && !e[i].RecordTip? && e[i] != Reply(Failure) {
        assert e[i] == rest[i - 1];
      }
    }
  }

  /** A failed lookup, a failed balance query or too small a balance stops the command before the send. */
  lemma WalletChecksStop(sender: Sender, amountText: string, amount: Amount, to: string, cfg: TipConfig, w: World)
    requires !(w.receivers.Rows? && w.receivers.rows != [] && w.wallets.Rows? && w.wallets.rows != []
               && w.balance.Some? && !Exceeds(amount, w.balance.value))
    ensures var rest := FindWallets(sender, amountText, amount, to, cfg, w);
      NoTransfer(rest) && NoRecord(rest) && Reply(Failure) !in rest
  {
  }

  /** The confirmation's removal context names its chat and message, and `_remove_msg` reads both back. */
  lemma RemoveContextRoundTrip(m: MessageRef)
    ensures RemoveMsg(RemoveContext(m)) == Some(Deletion(IntToString(m.chatId), IntToString(m.msgId)))
    ensures ParseInt(RemoveMsg(RemoveContext(m)).value.chatId) == Some(m.chatId)
    ensures ParseInt(RemoveMsg(RemoveContext(m)).value.msgId) == Some(m.msgId)
  {
    RemoveContextSplits(m);
    IntToStringRoundTrip(m.chatId);
    IntToStringRoundTrip(m.msgId);
  }
}
