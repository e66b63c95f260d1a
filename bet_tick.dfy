/**
 * One tick of the balance-polling job of a bet (`scan_balance`) and the list of loss
 * messages that a periodic job clears (`remove_losses`).
 *
 * The chain client, the chat and the database are outside the model: what they answer is an
 * input (`Chain`), and what the tick asks of them is an ordered list of `Effect`s.
 */
module BetTick {
  import opened Wrappers
  import opened Text
  import opened BetRules
  import opened Outcomes

  /** One incoming transaction of the bet address, as the TronGrid listing gives it. */
  datatype Tx = Tx(txId: string, owner: string, hasAssetName: bool)

  /**
   * The answer of a lookup whose result the tick then indexes: the call raised (inside a
   * `try`), the answer lacks a key the tick reads (a `KeyError` outside any `try`), or the value.
   */
  datatype Lookup<T> = Failed | NoKey | Found(value: T)

  /** The answers of the outside world to the calls one tick may make, in the order it makes them. */
  datatype Chain = Chain(
    balance: Option<nat>,           // balance of the bet wallet in sun; None: the query raised
    transactions: Lookup<seq<Tx>>,  // `transactions["data"]` and the keys the loop reads of each entry
    blockNumber: Lookup<nat>,       // `info["blockNumber"]` of the funding transaction
    blockHash: Lookup<string>,      // `block["blockID"]` of that block
    refund: SendResult,             // bet wallet -> sender, when the stake is out of bounds
    payout: SendResult,             // house wallet -> sender, when the bet is won
    sweep: SendResult,              // bet wallet -> house wallet
    resultMessage: MessageRef)      // the reply announcing the outcome

  /** `stop_check` (seconds), `min_trx` and `max_trx` (here in sun), and the house wallet's address. */
  datatype Config = Config(stopCheck: int, minSun: int, maxSun: int, houseAddress: string)

  datatype Wallet = BetWallet | HouseWallet

  datatype BetReply = NoFundingTx | OutOfBounds | Outcome(won: bool)

  /** The columns `update_bet.sql` writes for the bet at `address`. */
  datatype BetRow = BetRow(
    sender: string, amountSun: nat, txId: string, blockNumber: nat, blockHash: string,
    won: bool, winningsSun: Option<nat>, payoutTxId: Option<string>, address: string)

  datatype Effect =
    | Disarm                    // job.schedule_removal()
    | DeleteBetMessages         // remove_messages: the two messages that announced the bet
    | NotifyOperator            // self.notify(...)
    | Reply(reply: BetReply)
    | Send(from: Wallet, to: string, amountSun: nat)
    | UpdateBet(row: BetRow)

  /** What one tick does: its effects in order, and the outcome message to list as a loss, if any. */
  datatype TickResult = TickResult(effects: seq<Effect>, loss: Option<MessageRef>)

  /** Index of the last listed transaction without an `asset_name`, i.e. a plain TRX transfer. */
  function LastNativeIndex(txs: seq<Tx>): (r: Option<nat>)
    ensures r.None? <==> forall k :: 0 <= k < |txs| ==> txs[k].hasAssetName
    ensures r.Some? ==> r.value < |txs| && !txs[r.value].hasAssetName
    ensures r.Some? ==> forall j :: r.value < j < |txs| ==> txs[j].hasAssetName
  {
    if txs == [] then None
    else if !txs[|txs| - 1].hasAssetName then Some(|txs| - 1)
    else LastNativeIndex(txs[..|txs| - 1])
  }

  /**
   * The loop over `transactions["data"]`: each plain TRX transfer overwrites `txid` and
   * `from_hex`, so what is left is taken from the last one.
   */
  method FindFundingTx(txs: seq<Tx>) returns (found: Option<Tx>)
    ensures LastNativeIndex(txs).None? ==> found.None?
    ensures LastNativeIndex(txs).Some? ==> found == Some(txs[LastNativeIndex(txs).value])
  {
    found := None;
    var i := 0;
    while i < |txs|
      invariant 0 <= i <= |txs|
      invariant LastNativeIndex(txs[..i]).None? ==> found.None?
      invariant LastNativeIndex(txs[..i]).Some? ==>
        var k := LastNativeIndex(txs[..i]).value;
        k < i && found == Some(txs[k])
    {
      if !txs[i].hasAssetName {
        found := Some(txs[i]);
      }
      assert txs[..i + 1][..i] == txs[..i];
      i := i + 1;
    }
    assert txs[..|txs|] == txs;
  }

  /** The funding transaction, unless its id or its sender is missing or empty (`not txid or not from_hex`). */
  function Funding(txs: seq<Tx>): (r: Option<Tx>)
    ensures r.Some? ==> r.value.txId != "" && r.value.owner != ""
    ensures r.Some? ==> LastNativeIndex(txs).Some? && r.value == txs[LastNativeIndex(txs).value]
    ensures r.None? <==>
      || LastNativeIndex(txs).None?
      || txs[LastNativeIndex(txs).value].txId == ""
      || txs[LastNativeIndex(txs).value].owner == ""
  {
    match LastNativeIndex(txs)
    case None => None
    case Some(k) => if txs[k].txId != "" && txs[k].owner != "" then Some(txs[k]) else None
  }

  /** `amo > max or amo < min`: a stake inside the bounds passes, and with min above max none does. */
  predicate OutsideStakeBounds(balanceSun: nat, cfg: Config): (b: bool)
    ensures cfg.minSun <= balanceSun <= cfg.maxSun ==> !b
    ensures cfg.minSun > cfg.maxSun ==> b
  {
    balanceSun > cfg.maxSun || balanceSun < cfg.minSun
  }

  /**
   * One tick of the polling job of the bet on `choice` at `betAddress`, armed at `start`. The
   * job is disarmed exactly when the deadline has passed or a balance has been seen.
   */
  function Tick(start: int, choice: string, betAddress: string, now: int, cfg: Config, chain: Chain): (r: TickResult)
    requires ValidChoice(choice)
    ensures Disarm in r.effects <==>
      start + cfg.stopCheck < now || (chain.balance.Some? && chain.balance.value > 0)
  {
    if start + cfg.stopCheck < now then TickResult([Disarm, DeleteBetMessages], None)
    else match chain.balance
      case None => TickResult([NotifyOperator], None)
      case Some(balance) =>
        if balance == 0 then TickResult([], None)
        else
          var r := Resolve(choice, betAddress, balance, cfg, chain);
          TickResult([Disarm] + r.effects, r.loss)
  }

  /**
   * What follows the disarm once a non-zero balance is seen. It never disarms again, and money
   * only goes to the sender of the funding transaction or to the house wallet; the bet wallet
   * only ever sends its whole balance.
   */
  function Resolve(choice: string, betAddress: string, balance: nat, cfg: Config, chain: Chain): (r: TickResult)
    requires ValidChoice(choice)
    ensures Disarm !in r.effects
    ensures r.loss.Some? ==> chain.blockHash.Found? && !BetWon(chain.blockHash.value, choice)
  {
    match chain.transactions
    case Failed => TickResult([NotifyOperator], None)
    case NoKey => TickResult([], None)
    case Found(txs) =>
      match Funding(txs)
      case None => TickResult([Reply(NoFundingTx), NotifyOperator], None)
      case Some(tx) =>
        if OutsideStakeBounds(balance, cfg) then
          var refund := Send(BetWallet, tx.owner, balance);
          if chain.refund.Raised? then TickResult([refund, NotifyOperator], None)
          else TickResult([refund, Reply(OutOfBounds)], None)
        else match chain.blockNumber
          case Failed => TickResult([NotifyOperator], None)
          case NoKey => TickResult([], None)
          case Found(blockNumber) =>
            match chain.blockHash
            case Failed => TickResult([NotifyOperator], None)
            case NoKey => TickResult([], None)
            case Found(hash) =>
              SettleTransfers(choice, betAddress, balance, cfg, chain, tx, blockNumber, hash);
              Settle(choice, betAddress, balance, cfg, chain, tx, blockNumber, hash)
  }

  /**
   * The only transfers of a funded tick move the whole balance out of the bet wallet, back to
   * the sender or to the house, or pay the sender out of the house wallet; all need a usable
   * funding transaction.
   */
  lemma ResolveTransfers(choice: string, betAddress: string, balance: nat, cfg: Config, chain: Chain)
    requires ValidChoice(choice)
    ensures var effects := Resolve(choice, betAddress, balance, cfg, chain).effects;
      forall k :: 0 <= k < |effects| && effects[k].Send? ==>
        && chain.transactions.Found? && Funding(chain.transactions.value).Some?
        && (effects[k].from == BetWallet ==> effects[k].amountSun == balance)
        && (|| effects[k].to == Funding(chain.transactions.value).value.owner
            || (effects[k].from == BetWallet && effects[k].to == cfg.houseAddress))
  {
    if && chain.transactions.Found? && Funding(chain.transactions.value).Some?
       && !OutsideStakeBounds(balance, cfg) && chain.blockNumber.Found? && chain.blockHash.Found? {
      SettleTransfers(choice, betAddress, balance, cfg, chain, Funding(chain.transactions.value).value,
                      chain.blockNumber.value, chain.blockHash.value);
    }
  }

  /** Pay out a win, sweep the stake to the house, write the bet row, announce the outcome. */
  function Settle(choice: string, betAddress: string, balance: nat, cfg: Config, chain: Chain,
                  tx: Tx, blockNumber: nat, hash: string): (r: TickResult)
    requires ValidChoice(choice)
    ensures r.loss.Some? ==> !BetWon(hash, choice) && r.loss.value == chain.resultMessage
  {
    var won := BetWon(hash, choice);
    var winnings := Winnings(balance, Leverage(|choice|).value);
    var payout := if won then [Send(HouseWallet, tx.owner, winnings)] else [];
    var sweep := Send(BetWallet, cfg.houseAddress, balance);
    if won && chain.payout.Raised? then TickResult(payout + [NotifyOperator], None)
    else if won && chain.payout.NoTransaction? then TickResult(payout, None)
    else if chain.sweep.Raised? then TickResult(payout + [sweep, NotifyOperator], None)
    else
      var row := BetRow(tx.owner, balance, tx.txId, blockNumber, hash, won,
                        if won then Some(winnings) else None,
                        if won then Some(chain.payout.txId) else None,
                        betAddress);
      TickResult(payout + [sweep, UpdateBet(row), Reply(Outcome(won)), DeleteBetMessages],
                 if won then None else Some(chain.resultMessage))
  }

  /**
   * A settlement's only transfers are the whole stake to the house wallet and, on a win, the
   * winnings to the bettor; it never disarms.
   */
  lemma SettleTransfers(choice: string, betAddress: string, balance: nat, cfg: Config, chain: Chain,
                        tx: Tx, blockNumber: nat, hash: string)
    requires ValidChoice(choice)
    ensures var effects := Settle(choice, betAddress, balance, cfg, chain, tx, blockNumber, hash).effects;
      && Disarm !in effects
      && forall k :: 0 <= k < |effects| && effects[k].Send? ==>
        || effects[k] == Send(BetWallet, cfg.houseAddress, balance)
        || (BetWon(hash, choice) && effects[k] == Send(HouseWallet, tx.owner, Winnings(balance, Leverage(|choice|).value)))
  {
    var r := Settle(choice, betAddress, balance, cfg, chain, tx, blockNumber, hash);
    var won := BetWon(hash, choice);
    var winnings := Winnings(balance, Leverage(|choice|).value);
    var payout := if won then [Send(HouseWallet, tx.owner, winnings)] else [];
    var sweep := Send(BetWallet, cfg.houseAddress, balance);
    var tail;
    if won && chain.payout.Raised? {
      tail := [NotifyOperator];
    } else if won && chain.payout.NoTransaction? {
      tail := [];
      assert r.effects == payout + tail;
    } else if chain.sweep.Raised? {
      tail := [sweep, NotifyOperator];
    } else {
      var row := BetRow(tx.owner, balance, tx.txId, blockNumber, hash, won,
                        if won then Some(winnings) else None,
                        if won then Some(chain.payout.txId) else None,
                        betAddress);
      tail := [sweep, UpdateBet(row), Reply(Outcome(won)), DeleteBetMessages];
    }
    SendsBehindPayout(payout, tail, won, Send(HouseWallet, tx.owner, winnings), sweep);
  }

  /** A payout made only on a win, then effects whose only transfer is the sweep. */
  lemma SendsBehindPayout(payout: seq<Effect>, tail: seq<Effect>, won: bool, pay: Effect, sweep: Effect)
    requires pay.Send? && payout == (if won then [pay] else [])
    requires Disarm !in tail
    requires forall k :: 0 <= k < |tail| && tail[k].Send? ==> tail[k] == sweep
    ensures Disarm !in payout + tail
    ensures forall k :: 0 <= k < |payout + tail| && (payout + tail)[k].Send? ==>
      (payout + tail)[k] == sweep || (won && (payout + tail)[k] == pay)
  {
    forall k | |payout| <= k < |payout + tail| && (payout + tail)[k].Send?
      ensures (payout + tail)[k] == sweep
    {
      assert (payout + tail)[k] == tail[k - |payout|];
    }
  }

  /** The loss entry a tick adds to the list of loss messages: none, or the outcome message. */
  function LossEntry(r: TickResult): seq<MessageRef> {
    if r.loss.Some? then [r.loss.value] else []
  }

  /** The live polling job of one bet: what its context holds, and whether it is still scheduled. */
  class Probe {
    const start: int
    const choice: string
    const betAddress: string
    var armed: bool

    constructor (start: int, choice: string, betAddress: string)
      requires ValidChoice(choice)
      ensures this.start == start && this.choice == choice && this.betAddress == betAddress
      ensures armed
    {
      this.start, this.choice, this.betAddress := start, choice, betAddress;
      armed := true;
    }
  }

  /**
   * The bet plugin's own mutable state: the outcome messages of lost bets awaiting deletion,
   * the `loss_messages` entry of its stored configuration.
   */
  class BetPlugin {
    var lossMessages: seq<MessageRef>

    /** The plugin over the list its configuration holds, which may outlive a restart. */
    constructor (stored: seq<MessageRef>)
      ensures lossMessages == stored
    {
      lossMessages := stored;
    }

    /** `scan_balance`, step by step. */
    method ScanBalance(job: Probe, now: int, cfg: Config, chain: Chain) returns (effects: seq<Effect>)
      requires ValidChoice(job.choice) && job.armed
      modifies this, job
      ensures var r := Tick(job.start, job.choice, job.betAddress, now, cfg, chain);
        && effects == r.effects
        && lossMessages == old(lossMessages) + LossEntry(r)
      ensures job.armed <==> Disarm !in effects
    {
      if job.start + cfg.stopCheck < now {
        job.armed := false;
        effects := [Disarm, DeleteBetMessages];
        return;
      }
      if chain.balance.None? {
        effects := [NotifyOperator];
        return;
      }
      var balance := chain.balance.value;
      if balance == 0 {
        effects := [];
        return;
      }
      job.armed := false;
      var rest := ResolveFunded(job.choice, job.betAddress, balance, cfg, chain);
      effects := [Disarm] + rest;
    }

    /** The part of `scan_balance` after the disarm: find the funding transaction, refund or settle. */
    method ResolveFunded(choice: string, betAddress: string, balance: nat, cfg: Config, chain: Chain)
      returns (effects: seq<Effect>)
      requires ValidChoice(choice)
      modifies this
      ensures var r := Resolve(choice, betAddress, balance, cfg, chain);
        effects == r.effects && lossMessages == old(lossMessages) + LossEntry(r)
    {
      if chain.transactions.Failed? {
        effects := [NotifyOperator];
        return;
      }
      if chain.transactions.NoKey? {
        effects := [];
        return;
      }
      var found := FindFundingTx(chain.transactions.value);
      if found.None? || found.value.txId == "" || found.value.owner == "" {
        effects := [Reply(NoFundingTx), NotifyOperator];
        return;
      }
      var tx := found.value;

      if balance > cfg.maxSun || balance < cfg.minSun {
        effects := [Send(BetWallet, tx.owner, balance)];
        if chain.refund.Raised? {
          effects := effects + [NotifyOperator];
        } else {
          effects := effects + [Reply(OutOfBounds)];
        }
        return;
      }
      if chain.blockNumber.Failed? {
        effects := [NotifyOperator];
        return;
      }
      if chain.blockNumber.NoKey? {
        effects := [];
        return;
      }
      if chain.blockHash.Failed? {
        effects := [NotifyOperator];
        return;
      }
      if chain.blockHash.NoKey? {
        effects := [];
        return;
      }
      effects := SettleFunded(choice, betAddress, balance, cfg, chain, tx,
                              chain.blockNumber.value, chain.blockHash.value);
    }

    /** Decide the bet from the block hash, pay out a win, sweep, write the row, record a loss. */
    method SettleFunded(choice: string, betAddress: string, balance: nat, cfg: Config, chain: Chain,
                        tx: Tx, blockNumber: nat, hash: string) returns (effects: seq<Effect>)
      requires ValidChoice(choice)
      modifies this
      ensures var r := Settle(choice, betAddress, balance, cfg, chain, tx, blockNumber, hash);
        effects == r.effects && lossMessages == old(lossMessages) + LossEntry(r)
    {
      var won := BetWon(hash, choice);
      var winnings := Winnings(balance, Leverage(|choice|).value);
      effects := if won then [Send(HouseWallet, tx.owner, winnings)] else [];
      if won && chain.payout.Raised? {
        effects := effects + [NotifyOperator];
        return;
      }
      if won && chain.payout.NoTransaction? {
        return;
      }

      var sweep := Send(BetWallet, cfg.houseAddress, balance);
      if chain.sweep.Raised? {
        effects := effects + [sweep, NotifyOperator];
        return;
      }

      var row := BetRow(tx.owner, balance, tx.txId, blockNumber, hash, won,
                        if won then Some(winnings) else None,
                        if won then Some(chain.payout.txId) else None,
                        betAddress);
      if !won {
        lossMessages := lossMessages + [chain.resultMessage];
      }
      effects := effects + [sweep, UpdateBet(row), Reply(Outcome(won)), DeleteBetMessages];
    }

    /** `remove_losses`: try to delete every listed message, whatever each attempt gives, then empty the list. */
    method RemoveLosses() returns (attempted: seq<MessageRef>)
      modifies this
      ensures attempted == old(lossMessages)
      ensures lossMessages == []
    {
      attempted := [];
      var i := 0;
      while i < |lossMessages|
        invariant 0 <= i <= |lossMessages|
        invariant attempted == lossMessages[..i]
      {
        attempted := attempted + [lossMessages[i]];
        i := i + 1;
      }
      assert lossMessages[..|lossMessages|] == lossMessages;
      lossMessages := [];
    }
  }
}
