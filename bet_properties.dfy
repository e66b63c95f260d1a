/**
 * What one polling tick guarantees, and what a sequence of ticks of one job guarantees,
 * stated over the `Tick` specification of `scan_balance`.
 */
module BetProperties {
  import opened Wrappers
  import opened BetRules
  import opened BetTick

  /** Number of payouts from the house wallet in a list of effects. */
  function Payouts(effects: seq<Effect>): nat {
    if effects == [] then 0
    else (if effects[0].Send? && effects[0].from == HouseWallet then 1 else 0) + Payouts(effects[1..])
  }

  /** Number of bet-row writes in a list of effects. */
  function Updates(effects: seq<Effect>): nat {
    if effects == [] then 0
    else (if effects[0].UpdateBet? then 1 else 0) + Updates(effects[1..])
  }

  /** Number of transfers out of the bet wallet in a list of effects. */
  function BetWalletSends(effects: seq<Effect>): nat {
    if effects == [] then 0
    else (if effects[0].Send? && effects[0].from == BetWallet then 1 else 0) + BetWalletSends(effects[1..])
  }

  lemma {:induction false} CountsOfConcat(a: seq<Effect>, b: seq<Effect>)
    ensures Payouts(a + b) == Payouts(a) + Payouts(b)
    ensures Updates(a + b) == Updates(a) + Updates(b)
    ensures BetWalletSends(a + b) == BetWalletSends(a) + BetWalletSends(b)
  {
    if a == [] {
      assert a + b == b;
    } else {
      CountsOfConcat(a[1..], b);
      assert (a + b)[0] == a[0];
      assert (a + b)[1..] == a[1..] + b;
    }
  }

  /** A list with no transfer and at most a leading row write. */
  lemma {:induction false} CountsWithoutSends(e: seq<Effect>)
    requires forall k :: 0 <= k < |e| ==> !e[k].Send? && (k > 0 ==> !e[k].UpdateBet?)
    ensures Payouts(e) == 0 && BetWalletSends(e) == 0 && Updates(e) <= 1
    ensures Updates(e) == 1 <==> e != [] && e[0].UpdateBet?
  {
    if e != [] {
      CountsWithoutSends(e[1..]);
      assert Updates(e[1..]) == 0;
    }
  }

  predicate OccursBefore(effects: seq<Effect>, i: int, e: Effect) {
    exists j :: 0 <= j < i && j < |effects| && effects[j] == e
  }

  predicate TimedOut(start: int, now: int, cfg: Config) {
    start + cfg.stopCheck < now
  }

  /** Past the deadline the tick disarms and cleans up, whatever the chain would answer: it asks nothing of it. */
  lemma TimeoutTick(start: int, choice: string, betAddress: string, now: int, cfg: Config, c1: Chain, c2: Chain)
    requires ValidChoice(choice) && TimedOut(start, now, cfg)
    ensures Tick(start, choice, betAddress, now, cfg, c1) == Tick(start, choice, betAddress, now, cfg, c2)
    ensures Tick(start, choice, betAddress, now, cfg, c1) == TickResult([Disarm, DeleteBetMessages], None)
  {
  }

  /** Before the deadline, a failed balance query or a zero balance leaves the job armed and moves nothing. */
  lemma WaitingTick(start: int, choice: string, betAddress: string, now: int, cfg: Config, chain: Chain)
    requires ValidChoice(choice) && !TimedOut(start, now, cfg)
    requires chain.balance.None? || chain.balance == Some(0)
    ensures Tick(start, choice, betAddress, now, cfg, chain) ==
      TickResult(if chain.balance.None? then [NotifyOperator] else [], None)
  {
  }

  /** A non-zero balance disarms the job first, before any lookup or transfer, and only once. */
  lemma FundedTickDisarmsFirst(start: int, choice: string, betAddress: string, now: int, cfg: Config, chain: Chain)
    requires ValidChoice(choice) && !TimedOut(start, now, cfg)
    requires chain.balance.Some? && chain.balance.value > 0
    ensures var effects := Tick(start, choice, betAddress, now, cfg, chain).effects;
      |effects| > 0 && effects[0] == Disarm && Disarm !in effects[1..]
  {
    var effects := Tick(start, choice, betAddress, now, cfg, chain).effects;
    assert effects[1..] == Resolve(choice, betAddress, chain.balance.value, cfg, chain).effects;
  }

  /** Without a usable funding transaction the tick reports the error and stops: no transfer, no row. */
  lemma NoFundingTxStops(start: int, choice: string, betAddress: string, now: int, cfg: Config, chain: Chain)
    requires ValidChoice(choice) && !TimedOut(start, now, cfg)
    requires chain.balance.Some? && chain.balance.value > 0
    requires chain.transactions.Found? && Funding(chain.transactions.value).None?
    ensures Tick(start, choice, betAddress, now, cfg, chain) ==
      TickResult([Disarm, Reply(NoFundingTx), NotifyOperator], None)
  {
  }

  /**
   * A listing, a transaction info or a block that lacks a key the tick reads raises a `KeyError`
   * outside any handler: the job is already disarmed, nobody is notified, and nothing else happens.
   */
  lemma MissingKeyEndsSilently(start: int, choice: string, betAddress: string, now: int, cfg: Config, chain: Chain)
    requires ValidChoice(choice) && !TimedOut(start, now, cfg)
    requires chain.balance.Some? && chain.balance.value > 0
    requires || chain.transactions.NoKey?
             || (&& chain.transactions.Found? && Funding(chain.transactions.value).Some?
                 && !OutsideStakeBounds(chain.balance.value, cfg)
                 && (chain.blockNumber.NoKey? || (chain.blockNumber.Found? && chain.blockHash.NoKey?)))
    ensures Tick(start, choice, betAddress, now, cfg, chain) == TickResult([Disarm], None)
  {
  }

  /**
   * A stake outside [min, max] is sent back whole to its sender, in the only transfer of the
   * tick; no block is looked at, nothing is decided, no row is written.
   */
  lemma OutOfBoundsRefund(start: int, choice: string, betAddress: string, now: int, cfg: Config, chain: Chain)
    requires ValidChoice(choice) && !TimedOut(start, now, cfg)
    requires chain.balance.Some? && chain.balance.value > 0
    requires chain.transactions.Found? && Funding(chain.transactions.value).Some?
    requires OutsideStakeBounds(chain.balance.value, cfg)
    ensures var r := Tick(start, choice, betAddress, now, cfg, chain);
      var refund := Send(BetWallet, Funding(chain.transactions.value).value.owner, chain.balance.value);
      && r.effects == [Disarm, refund, if chain.refund.Raised? then NotifyOperator else Reply(OutOfBounds)]
      && r.loss.None?
  {
  }

  /**
   * A bet row is written only after the whole stake was swept to the house wallet, and it
   * records the outcome: won iff the hash ends in a chosen character; on a win the winnings are
   * int(balance * LEVERAGE[len(choice)]), paid before the sweep, with the payout's id; on a
   * loss neither is set.
   */
  lemma RowRecordsSettlement(start: int, choice: string, betAddress: string, now: int, cfg: Config, chain: Chain)
    requires ValidChoice(choice)
    ensures var effects := Tick(start, choice, betAddress, now, cfg, chain).effects;
      forall i :: 0 <= i < |effects| && effects[i].UpdateBet? ==>
        RecordsSettlement(effects, i, choice, betAddress, cfg, chain)
  {
    var effects := Tick(start, choice, betAddress, now, cfg, chain).effects;
    forall i | 0 <= i < |effects| && effects[i].UpdateBet?
      ensures RecordsSettlement(effects, i, choice, betAddress, cfg, chain)
    {
      SettledShape(start, choice, betAddress, now, cfg, chain, i);
    }
  }

  /** What the row written at position `i` of a tick's effects records, and what precedes it. */
  predicate RecordsSettlement(effects: seq<Effect>, i: int, choice: string, betAddress: string, cfg: Config, chain: Chain)
    requires ValidChoice(choice) && 0 <= i < |effects| && effects[i].UpdateBet?
  {
    var row := effects[i].row;
    && chain.balance == Some(row.amountSun)
    && chain.blockHash == Found(row.blockHash)
    && chain.transactions.Found? && Funding(chain.transactions.value).Some?
    && row.sender == Funding(chain.transactions.value).value.owner
    && row.txId == Funding(chain.transactions.value).value.txId
    && row.address == betAddress
    && (row.won <==> BetWon(row.blockHash, choice))
    && OccursBefore(effects, i, Send(BetWallet, cfg.houseAddress, row.amountSun))
    && (row.won ==>
          && row.winningsSun == Some(Winnings(row.amountSun, Leverage(|choice|).value))
          && chain.payout.Sent? && row.payoutTxId == Some(chain.payout.txId)
          && OccursBefore(effects, i - 1, Send(HouseWallet, row.sender, row.winningsSun.value)))
    && (!row.won ==> row.winningsSun.None? && row.payoutTxId.None?)
  }

  /** Where the row write sits: behind the disarm, the payout if any, and the sweep. */
  lemma SettledShape(start: int, choice: string, betAddress: string, now: int, cfg: Config, chain: Chain, i: int)
    requires ValidChoice(choice)
    requires var effects := Tick(start, choice, betAddress, now, cfg, chain).effects;
      0 <= i < |effects| && effects[i].UpdateBet?
    ensures var effects := Tick(start, choice, betAddress, now, cfg, chain).effects;
      && !TimedOut(start, now, cfg) && chain.balance.Some? && chain.balance.value > 0
      && chain.transactions.Found? && Funding(chain.transactions.value).Some?
      && !OutsideStakeBounds(chain.balance.value, cfg)
      && chain.blockNumber.Found? && chain.blockHash.Found?
      && var tx := Funding(chain.transactions.value).value;
         var won := BetWon(chain.blockHash.value, choice);
         var winnings := Winnings(chain.balance.value, Leverage(|choice|).value);
         && (won ==> chain.payout.Sent?)
         && !chain.sweep.Raised?
         && i == (if won then 3 else 2)
         && effects[i - 1] == Send(BetWallet, cfg.houseAddress, chain.balance.value)
         && (won ==> effects[1] == Send(HouseWallet, tx.owner, winnings))
         && effects[i] == UpdateBet(BetRow(tx.owner, chain.balance.value, tx.txId, chain.blockNumber.value,
                                           chain.blockHash.value, won,
                                           if won then Some(winnings) else None,
                                           if won then Some(chain.payout.txId) else None,
                                           betAddress))
  {
    UpdateNeedsSettlement(start, choice, betAddress, now, cfg, chain, i);
    SettledTick(start, choice, betAddress, now, cfg, chain);
    var effects := Tick(start, choice, betAddress, now, cfg, chain).effects;
    var tx := Funding(chain.transactions.value).value;
    var e := Settle(choice, betAddress, chain.balance.value, cfg, chain, tx, chain.blockNumber.value, chain.blockHash.value).effects;
    assert effects[0] == Disarm;
    assert effects[i] == e[i - 1];
    SettleRowAt(choice, betAddress, chain.balance.value, cfg, chain, tx, chain.blockNumber.value, chain.blockHash.value, i - 1);
    assert effects[i - 1] == e[i - 2];
    assert effects[1] == e[0];
  }

  /** Where a settlement writes its row: behind the payout, if any, and the sweep. */
  lemma SettleRowAt(choice: string, betAddress: string, balance: nat, cfg: Config, chain: Chain,
                    tx: Tx, blockNumber: nat, hash: string, j: int)
    requires ValidChoice(choice)
    requires var e := Settle(choice, betAddress, balance, cfg, chain, tx, blockNumber, hash).effects;
      0 <= j < |e| && e[j].UpdateBet?
    ensures var e := Settle(choice, betAddress, balance, cfg, chain, tx, blockNumber, hash).effects;
      var won := BetWon(hash, choice);
      var winnings := Winnings(balance, Leverage(|choice|).value);
      && (won ==> chain.payout.Sent?)
      && !chain.sweep.Raised?
      && j == (if won then 2 else 1)
      && e[j - 1] == Send(BetWallet, cfg.houseAddress, balance)
      && (won ==> e[0] == Send(HouseWallet, tx.owner, winnings))
      && e[j] == UpdateBet(BetRow(tx.owner, balance, tx.txId, blockNumber, hash, won,
                                  if won then Some(winnings) else None,
                                  if won then Some(chain.payout.txId) else None,
                                  betAddress))
  {
  }

  /** The tick reaches the settlement: not timed out, funded by a usable transaction within the bounds, and its block found. */
  predicate Settles(start: int, now: int, cfg: Config, chain: Chain) {
    && !TimedOut(start, now, cfg) && chain.balance.Some? && chain.balance.value > 0
    && chain.transactions.Found? && Funding(chain.transactions.value).Some?
    && !OutsideStakeBounds(chain.balance.value, cfg)
    && chain.blockNumber.Found? && chain.blockHash.Found?
  }

  /** Only a tick that reaches the settlement writes a row. */
  lemma UpdateNeedsSettlement(start: int, choice: string, betAddress: string, now: int, cfg: Config, chain: Chain, i: int)
    requires ValidChoice(choice)
    requires var effects := Tick(start, choice, betAddress, now, cfg, chain).effects;
      0 <= i < |effects| && effects[i].UpdateBet?
    ensures Settles(start, now, cfg, chain)
  {
  }

  /** A tick that reaches the settlement disarms, then settles. */
  lemma SettledTick(start: int, choice: string, betAddress: string, now: int, cfg: Config, chain: Chain)
    requires ValidChoice(choice) && Settles(start, now, cfg, chain)
    ensures Tick(start, choice, betAddress, now, cfg, chain).effects ==
      [Disarm] + Settle(choice, betAddress, chain.balance.value, cfg, chain, Funding(chain.transactions.value).value,
                        chain.blockNumber.value, chain.blockHash.value).effects
  {
  }

  /** A failed payout ends the tick before the sweep and before any row is written. */
  lemma FailedPayoutAborts(start: int, choice: string, betAddress: string, now: int, cfg: Config, chain: Chain)
    requires ValidChoice(choice) && !chain.payout.Sent?
    ensures var effects := Tick(start, choice, betAddress, now, cfg, chain).effects;
      Payouts(effects) > 0 ==> Updates(effects) == 0 && BetWalletSends(effects) == 0
  {
    var r := Tick(start, choice, betAddress, now, cfg, chain);
    if Payouts(r.effects) > 0 {
      TickShapes(start, choice, betAddress, now, cfg, chain);
    }
  }

  /** A lost bet, and only a lost bet, lists its outcome message for later deletion. */
  lemma LossListedIffLost(start: int, choice: string, betAddress: string, now: int, cfg: Config, chain: Chain)
    requires ValidChoice(choice)
    ensures var r := Tick(start, choice, betAddress, now, cfg, chain);
      && (r.loss.Some? <==> exists i :: 0 <= i < |r.effects| && r.effects[i].UpdateBet? && !r.effects[i].row.won)
      && (r.loss.Some? ==> r.loss.value == chain.resultMessage)
  {
    var r := Tick(start, choice, betAddress, now, cfg, chain);
    if r.loss.Some? {
      TickShapes(start, choice, betAddress, now, cfg, chain);
      assert r.effects[2].UpdateBet? && !r.effects[2].row.won;
    }
    forall i | 0 <= i < |r.effects| && r.effects[i].UpdateBet? && !r.effects[i].row.won
      ensures r.loss.Some?
    {
      SettledShape(start, choice, betAddress, now, cfg, chain, i);
    }
  }

  /** What a tick's effects can hold: from its shape, the count of each kind of effect. */
  lemma TickShapes(start: int, choice: string, betAddress: string, now: int, cfg: Config, chain: Chain)
    requires ValidChoice(choice)
    ensures var r := Tick(start, choice, betAddress, now, cfg, chain);
      && Payouts(r.effects) <= 1 && Updates(r.effects) <= 1 && BetWalletSends(r.effects) <= 1
      && (Disarm !in r.effects ==> Payouts(r.effects) == 0 && Updates(r.effects) == 0 && BetWalletSends(r.effects) == 0)
      && (Payouts(r.effects) > 0 && !chain.payout.Sent? ==> Updates(r.effects) == 0 && BetWalletSends(r.effects) == 0)
      && (r.loss.Some? ==> |r.effects| == 5 && r.effects[2].UpdateBet? && !r.effects[2].row.won && r.loss.value == chain.resultMessage)
  {
    if !TimedOut(start, now, cfg) && chain.balance.Some? && chain.balance.value > 0 {
      var rest := Resolve(choice, betAddress, chain.balance.value, cfg, chain).effects;
      ResolveCounts(choice, betAddress, chain.balance.value, cfg, chain);
      CountsOfConcat([Disarm], rest);
    } else {
      CountsWithoutSends(Tick(start, choice, betAddress, now, cfg, chain).effects);
    }
  }

  lemma ResolveCounts(choice: string, betAddress: string, balance: nat, cfg: Config, chain: Chain)
    requires ValidChoice(choice)
    ensures var r := Resolve(choice, betAddress, balance, cfg, chain);
      && Payouts(r.effects) <= 1 && Updates(r.effects) <= 1 && BetWalletSends(r.effects) <= 1
      && (Payouts(r.effects) > 0 && !chain.payout.Sent? ==> Updates(r.effects) == 0 && BetWalletSends(r.effects) == 0)
      && (r.loss.Some? ==> |r.effects| == 4 && r.effects[1].UpdateBet? && !r.effects[1].row.won && r.loss.value == chain.resultMessage)
  {
    if chain.transactions.Found? && Funding(chain.transactions.value).Some?
       && !OutsideStakeBounds(balance, cfg) && chain.blockNumber.Found? && chain.blockHash.Found? {
      SettleCounts(choice, betAddress, balance, cfg, chain, Funding(chain.transactions.value).value,
                   chain.blockNumber.value, chain.blockHash.value);
      SettleLoss(choice, betAddress, balance, cfg, chain, Funding(chain.transactions.value).value,
                 chain.blockNumber.value, chain.blockHash.value);
    } else {
      UnsettledCounts(choice, betAddress, balance, cfg, chain);
    }
  }

  /** Short of a settlement, a funded tick pays nothing out and at most refunds the stake. */
  lemma UnsettledCounts(choice: string, betAddress: string, balance: nat, cfg: Config, chain: Chain)
    requires ValidChoice(choice)
    requires !(&& chain.transactions.Found? && Funding(chain.transactions.value).Some?
               && !OutsideStakeBounds(balance, cfg) && chain.blockNumber.Found? && chain.blockHash.Found?)
    ensures var r := Resolve(choice, betAddress, balance, cfg, chain);
      Payouts(r.effects) == 0 && Updates(r.effects) <= 1 && BetWalletSends(r.effects) <= 1 && r.loss.None?
  {
    var rest := Resolve(choice, betAddress, balance, cfg, chain).effects;
    if |rest| > 0 && rest[0].Send? {
      SendLedCounts(rest);
    } else {
      CountsWithoutSends(rest);
    }
  }

  lemma SettleCounts(choice: string, betAddress: string, balance: nat, cfg: Config, chain: Chain,
                     tx: Tx, blockNumber: nat, hash: string)
    requires ValidChoice(choice)
    ensures var r := Settle(choice, betAddress, balance, cfg, chain, tx, blockNumber, hash);
      && Payouts(r.effects) <= 1 && Updates(r.effects) <= 1 && BetWalletSends(r.effects) <= 1
      && (Payouts(r.effects) > 0 && !chain.payout.Sent? ==> Updates(r.effects) == 0 && BetWalletSends(r.effects) == 0)
  {
    var r := Settle(choice, betAddress, balance, cfg, chain, tx, blockNumber, hash);
    var won := BetWon(hash, choice);
    var winnings := Winnings(balance, Leverage(|choice|).value);
    var payout := if won then [Send(HouseWallet, tx.owner, winnings)] else [];
    var sweep := Send(BetWallet, cfg.houseAddress, balance);
    var tail;
    if won && chain.payout.Raised? {
      tail := [NotifyOperator];
      CountsWithoutSends(tail);
    } else if won && chain.payout.NoTransaction? {
      tail := [];
      assert r.effects == payout + tail;
    } else if chain.sweep.Raised? {
      tail := [sweep, NotifyOperator];
      SweepNotifyCounts(sweep);
    } else {
      var row := BetRow(tx.owner, balance, tx.txId, blockNumber, hash, won,
                        if won then Some(winnings) else None,
                        if won then Some(chain.payout.txId) else None,
                        betAddress);
      tail := [sweep, UpdateBet(row), Reply(Outcome(won)), DeleteBetMessages];
      SweepRecordCounts(sweep, row, Outcome(won));
    }
    PayoutCounts(payout, won);
    ConcatCounts(r.effects, payout, tail, won, chain.payout.Sent?);
  }

  /** A settlement that lists a loss message wrote a lost row, behind the sweep. */
  lemma SettleLoss(choice: string, betAddress: string, balance: nat, cfg: Config, chain: Chain,
                   tx: Tx, blockNumber: nat, hash: string)
    requires ValidChoice(choice)
    ensures var r := Settle(choice, betAddress, balance, cfg, chain, tx, blockNumber, hash);
      r.loss.Some? ==> |r.effects| == 4 && r.effects[1].UpdateBet? && !r.effects[1].row.won && r.loss.value == chain.resultMessage
  {
  }

  /** The counts of a settlement from those of its payout part and of what follows it. */
  lemma ConcatCounts(effects: seq<Effect>, payout: seq<Effect>, tail: seq<Effect>, won: bool, sent: bool)
    requires effects == payout + tail
    requires Payouts(payout) == (if won then 1 else 0) && Updates(payout) == 0 && BetWalletSends(payout) == 0
    requires Payouts(tail) == 0 && Updates(tail) <= 1 && BetWalletSends(tail) <= 1
    requires won && !sent ==> Updates(tail) == 0 && BetWalletSends(tail) == 0
    ensures Payouts(effects) <= 1 && Updates(effects) <= 1 && BetWalletSends(effects) <= 1
    ensures Payouts(effects) > 0 && !sent ==> Updates(effects) == 0 && BetWalletSends(effects) == 0
  {
    CountsOfConcat(payout, tail);
  }

  /** The payout part of a settlement: one house payout on a win, nothing on a loss. */
  lemma PayoutCounts(payout: seq<Effect>, won: bool)
    requires won ==> |payout| == 1 && payout[0].Send? && payout[0].from == HouseWallet
    requires !won ==> payout == []
    ensures Payouts(payout) == (if won then 1 else 0) && Updates(payout) == 0 && BetWalletSends(payout) == 0
  {
    if won {
      assert payout[1..] == [];
    }
  }

  /** A sweep whose transfer raised: one bet-wallet transfer, no payout, no row. */
  lemma SweepNotifyCounts(sweep: Effect)
    requires sweep.Send? && sweep.from == BetWallet
    ensures var e := [sweep, NotifyOperator];
      Payouts(e) == 0 && BetWalletSends(e) == 1 && Updates(e) == 0
  {
    var e := [sweep, NotifyOperator];
    assert e[1..] == [NotifyOperator];
    CountsWithoutSends(e[1..]);
  }

  /** A completed sweep: one bet-wallet transfer, no payout, one row. */
  lemma SweepRecordCounts(sweep: Effect, row: BetRow, reply: BetReply)
    requires sweep.Send? && sweep.from == BetWallet
    ensures var e := [sweep, UpdateBet(row), Reply(reply), DeleteBetMessages];
      Payouts(e) == 0 && BetWalletSends(e) == 1 && Updates(e) == 1
  {
    var e := [sweep, UpdateBet(row), Reply(reply), DeleteBetMessages];
    assert e[1..] == [UpdateBet(row), Reply(reply), DeleteBetMessages];
    CountsWithoutSends(e[1..]);
  }

  /** A list led by one bet-wallet transfer, followed by no transfer and at most a leading row write. */
  lemma SendLedCounts(e: seq<Effect>)
    requires |e| > 0 && e[0].Send? && e[0].from == BetWallet
    requires forall k :: 1 <= k < |e| ==> !e[k].Send? && (k > 1 ==> !e[k].UpdateBet?)
    ensures Payouts(e) == 0 && BetWalletSends(e) == 1 && Updates(e) <= 1
  {
    CountsWithoutSends(e[1..]);
  }

  /** One poll of the job: when it fires and what the outside world answers. */
  datatype Poll = Poll(now: int, chain: Chain)

  /** The effects of the polls of one job, each run only while the job is still armed. */
  function RunTicks(armed: bool, start: int, choice: string, betAddress: string, cfg: Config, polls: seq<Poll>): seq<Effect>
    requires ValidChoice(choice)
  {
    if polls == [] || !armed then []
    else
      var r := Tick(start, choice, betAddress, polls[0].now, cfg, polls[0].chain);
      r.effects + RunTicks(Disarm !in r.effects, start, choice, betAddress, cfg, polls[1..])
  }

  /**
   * However many times the job fires and whatever the chain answers, a bet is paid out at most
   * once, its stake leaves the bet wallet at most once, and its row is written at most once:
   * disarming before resolving makes resolution happen at most once.
   */
  lemma {:induction false} ResolvedAtMostOnce(armed: bool, start: int, choice: string, betAddress: string, cfg: Config, polls: seq<Poll>)
    requires ValidChoice(choice)
    ensures var effects := RunTicks(armed, start, choice, betAddress, cfg, polls);
      Payouts(effects) <= 1 && Updates(effects) <= 1 && BetWalletSends(effects) <= 1
  {
    if polls != [] && armed {
      var r := Tick(start, choice, betAddress, polls[0].now, cfg, polls[0].chain);
      var rest := RunTicks(Disarm !in r.effects, start, choice, betAddress, cfg, polls[1..]);
      TickShapes(start, choice, betAddress, polls[0].now, cfg, polls[0].chain);
      ResolvedAtMostOnce(Disarm !in r.effects, start, choice, betAddress, cfg, polls[1..]);
      CountsOfConcat(r.effects, rest);
    }
  }
}
