# TrxBetBot betting core in Dafny

TrxBetBot is a Telegram bot for betting on Tron blocks. A user bets on up to fifteen of the
sixteen hexadecimal digits. The bot creates a one-off wallet and polls its balance. Once the
wallet is funded, the last character of the hash of the block holding the deposit decides the bet.
A win is paid out of the house wallet at a fixed leverage. The stake is then swept to the house
wallet. Users can also tip each other TRX and keep a bet running automatically.

This project models three plugins of the bot and proves properties of the model:

- `/bet` (`bet.py`).
  - `BetRules` holds the pure part of `execute`: argument validation, the stored normalised
    choice and the leverage table. It also holds the win rule and the winnings.
  - `BetTick` models the polling tick `scan_balance`.
    - The specification function `Tick` lists the ordered effects of one tick.
    - The class `BetPlugin` runs the tick step by step, with its list of loss messages, and
      `remove_losses`.
    - The class `Probe` is the polling job; its `armed` flag is the job's schedule.
  - `BetProperties` holds what one tick and a whole run of ticks guarantee.
- `/autobet` (`autobet.py`).
  - The class `AutobetPlugin` holds the `autobet` table as a map from user id to row, and the
    job registry as a map from job name to job.
  - `Enter` re-arms every stored row at start-up, and `Execute` runs the command.
  - `AutoBet` is the job tick, which calls the bet plugin.
- `/tip` (`tip.py`).
  - `Tip.Execute` gives the ordered effects of the command: lookups, transfer, replies, the
    removal job, the notification and the tip record.
  - `RunTip` computes them step by step.
  - `RemoveMsg` is `_remove_msg`'s decoding of the job context.
  - `TipProperties` holds what the command promises.

Shared modules:

- `Text`: Python's `str(i)`, `split`, `replace(c, "")`, `lower` and `in`. Each comes with the
  laws the code relies on: `str` reads back, `split` inverts a join, `replace` works part by part.
- `Amounts`: decimal amounts as `float()` reads them, written back out, conversion to and from
  sun, and the funds comparison, all done exactly.
- `Outcomes`: the answer of a transfer call and a chat message reference, shared by `/bet` and
  `/tip`.
- `Wrappers`: `Option`.

Telegram, the database and the Tron node are never called. What they answer is an input (the
`Chain`, `World` and `Request` values, with `None`/`Raised` for a call that raises). What the
code does to them is the ordered list of effects it returns.

Some behaviours of the code are worth stating:

- An auto-bet tick never places a bet. `auto_bet` calls the bet plugin with two arguments. The
  bet plugin accepts exactly one, so every tick ends in the usage reply (`Autobet.AutoBet`).
- No "refunded" or "expired" state is ever written. A refund writes no row, and neither does a
  timeout. The only row write is the one after a settled bet.
- An empty block hash counts as a win (`"" in choice` is true in Python), as
  `BetRules.BetWon` states.
- An empty argument `""` passes validation, but `LEVERAGE[0]` then raises. That happens after
  the wallet has been saved. It is modelled as the outcome `EmptyChoice`.
- Before the tip funds guard, a negative amount such as `-5` passes `float()`. It never exceeds
  the balance, so it reaches the transfer (`TipProperties.NegativeAmountPassesGuard`).
- A missing key in the transaction listing, the transaction info or the block (`KeyError`
  outside any `try`) ends a funded tick after the disarm, with nobody notified
  (`BetProperties.MissingKeyEndsSilently`).
- `/tip` records the tip with tronapi's `toSun` applied to the amount as typed, a string. If that
  raises, the error reply follows the confirmation, the removal job and the notification, and no
  tip is recorded. `World.toSunRaises` chooses this outcome (`TipProperties.ToSunFailureRecordsNothing`).

## Model

| member | source | states |
|---|---|---|
| BetRules.ContainsAll | trxbetbot/plugins/bet/bet.py:128-130 | A set of valid characters has at most sixteen members, and sixteen only when it is the whole alphabet. |
| BetRules.ValidCharsCount | trxbetbot/plugins/bet/bet.py:15 | VALID_CHARS has sixteen distinct characters. |
| BetRules.Leverage | trxbetbot/plugins/bet/bet.py:16-17 | LEVERAGE is defined exactly for 1..15 characters. Every multiplier exceeds 1, and k·LEVERAGE[k] ≤ 16, so the expected payout never exceeds the stake. |
| BetRules.LeverageDecreasing | trxbetbot/plugins/bet/bet.py:16-17 | Fewer characters give a strictly higher multiplier. |
| BetRules.ValidateArgs | trxbetbot/plugins/bet/bet.py:40-82 | A bet is accepted iff there is exactly one argument whose characters are all valid and number 1 to 15 distinct. The stored choice is then sorted and duplicate-free over exactly those characters, and its leverage is LEVERAGE[len(choice)]. |
| BetRules.Insert | trxbetbot/plugins/bet/bet.py:80 | Inserting into a strictly sorted string keeps it strictly sorted and adds exactly that character. |
| BetRules.Normalize | trxbetbot/plugins/bet/bet.py:80 | `"".join(sorted(set(s)))` is strictly sorted and holds exactly the characters of s. |
| BetRules.SortedLength | trxbetbot/plugins/bet/bet.py:80 | A strictly sorted string has as many characters as distinct characters. |
| BetRules.SortedUnique | trxbetbot/plugins/bet/bet.py:80 | Two strictly sorted strings over the same characters are equal. |
| BetRules.NormalizeCanonical | trxbetbot/plugins/bet/bet.py:80 | The normalised choice is the only strictly sorted spelling of its characters. |
| BetRules.NormalizeLength | trxbetbot/plugins/bet/bet.py:80-82 | The normalised choice has len(set(args[0])) characters, so LEVERAGE is indexed by the count. |
| BetRules.NormalizeIdempotent | trxbetbot/plugins/bet/bet.py:80 | Normalising a stored choice again changes nothing. |
| BetRules.LastChar | trxbetbot/plugins/bet/bet.py:237 | `block_hash[-1:]` is the hash's last character, and empty only for an empty hash. |
| BetRules.BetWon | trxbetbot/plugins/bet/bet.py:237-248 | The bet is won iff the hash's last character is in the choice, or the hash is empty. |
| BetRules.Winnings | trxbetbot/plugins/bet/bet.py:256-257 | `int(balance * leverage)` is the product rounded down to whole sun. |
| BetRules.HouseEdge | trxbetbot/plugins/bet/bet.py:255-258 | Exactly len(choice) of the sixteen hash endings win. Their total winnings do not exceed sixteen stakes. |
| BetTick.LastNativeIndex | trxbetbot/plugins/bet/bet.py:183-190 | The funding transaction is the last one without an asset name, and None iff there is none. |
| BetTick.FindFundingTx | trxbetbot/plugins/bet/bet.py:183-190 | The loop over the transactions leaves the last native transfer, or nothing. |
| BetTick.Funding | trxbetbot/plugins/bet/bet.py:183-197 | A funding transaction is found iff there is a last native transfer and both its id and its owner are non-empty, and it is then that transfer. |
| BetTick.OutsideStakeBounds | trxbetbot/plugins/bet/bet.py:199-203 | A stake within [min, max] passes, and with min above max none does. |
| BetTick.Tick | trxbetbot/plugins/bet/bet.py:132-329 | A tick disarms the job iff the deadline has passed or a non-zero balance was read. |
| BetTick.Resolve | trxbetbot/plugins/bet/bet.py:172-329 | After the disarm nothing disarms again, and a loss is listed only when the block hash was read and the bet lost. |
| BetTick.Settle | trxbetbot/plugins/bet/bet.py:237-329 | A settlement lists its outcome message only for a lost bet. |
| BetTick.SettleTransfers | trxbetbot/plugins/bet/bet.py:255-297 | A settlement never disarms; its only transfers are the whole stake to the house wallet and, on a win, the winnings to the sender. |
| BetTick.ResolveTransfers | trxbetbot/plugins/bet/bet.py:172-297 | Every transfer of a funded tick needs a usable funding transaction; the bet wallet only sends its whole balance, and money only goes to the sender or to the house wallet. |
| BetTick.Probe.constructor | trxbetbot/plugins/bet/bet.py:106-115 | A probe starts armed with its start time, choice and bet address. |
| BetTick.BetPlugin.constructor | trxbetbot/plugins/bet/bet.py:320-324 | The plugin starts over the loss list its configuration holds. |
| BetTick.BetPlugin.ScanBalance | trxbetbot/plugins/bet/bet.py:132-329 | One tick has exactly the effects of Tick, in order, and lists the outcome message of a lost bet. The job stays armed iff the tick did not disarm it. |
| BetTick.BetPlugin.ResolveFunded | trxbetbot/plugins/bet/bet.py:172-237 | After a non-zero balance: find the funding transaction, refund an out-of-bounds stake, look up the block, then settle, exactly as Resolve. |
| BetTick.BetPlugin.SettleFunded | trxbetbot/plugins/bet/bet.py:247-329 | Decide the bet, pay out a win, sweep the stake, write the row and list a loss, exactly as Settle. |
| BetTick.BetPlugin.RemoveLosses | trxbetbot/plugins/bet/bet.py:119-126 | Every listed loss message is attempted once, in order, and the list is then empty. |
| BetProperties.TimeoutTick | trxbetbot/plugins/bet/bet.py:147-154 | Past the deadline the tick disarms and removes the bet messages, whatever the chain would answer. |
| BetProperties.WaitingTick | trxbetbot/plugins/bet/bet.py:156-167 | A failed balance query notifies the operator. A zero balance does nothing. Either way the job stays armed. |
| BetProperties.FundedTickDisarmsFirst | trxbetbot/plugins/bet/bet.py:165-170 | A non-zero balance disarms the job before anything else, and only once. |
| BetProperties.NoFundingTxStops | trxbetbot/plugins/bet/bet.py:192-197 | Without a usable funding transaction the tick replies with the error and notifies. There is no transfer and no row. |
| BetProperties.MissingKeyEndsSilently | trxbetbot/plugins/bet/bet.py:184-237 | A missing `data`, `blockNumber` or `blockID` key ends the tick right after the disarm, with no notification. |
| BetProperties.OutOfBoundsRefund | trxbetbot/plugins/bet/bet.py:199-219 | A stake outside [min, max] is sent back whole to its sender, as the only transfer. The reply is skipped if the refund raised. No row is written. |
| BetProperties.RowRecordsSettlement | trxbetbot/plugins/bet/bet.py:247-312 | Every row write records the sender, stake, funding id, block hash and address. It records won iff BetWon. It comes after the sweep. On a win it follows the payout of int(balance·leverage) and records the payout id. |
| BetProperties.SettledShape | trxbetbot/plugins/bet/bet.py:255-312 | A row write happens only on the settle path, at position 2 (loss) or 3 (win), right after the sweep. |
| BetProperties.SettleRowAt | trxbetbot/plugins/bet/bet.py:255-312 | Within a settlement, the row comes right after the sweep and, on a win, after the payout of the winnings, and only when both went through. |
| BetProperties.FailedPayoutAborts | trxbetbot/plugins/bet/bet.py:271-279 | A payout that raises or returns no transaction ends the tick. There is no sweep and no row. |
| BetProperties.LossListedIffLost | trxbetbot/plugins/bet/bet.py:320-324 | The outcome message is listed for deletion iff a lost bet's row was written. |
| BetProperties.TickShapes | trxbetbot/plugins/bet/bet.py:132-329 | A tick has at most one payout, one sweep or refund, and one row write. A tick that does not disarm has none of them. |
| BetProperties.CountsOfConcat | trxbetbot/plugins/bet/bet.py:132-329 | Effect counts add up over concatenated ticks. |
| BetProperties.ResolvedAtMostOnce | trxbetbot/plugins/bet/bet.py:165-170 | Over any sequence of polls of one job, a bet is paid out at most once and its stake leaves the bet wallet at most once. Its row is written at most once. |
| Autobet.JobName | trxbetbot/plugins/autobet/autobet.py:114-118 | A job name is the plugin's name followed by a text from which the user id reads back. |
| Autobet.JobNameInjective | trxbetbot/plugins/autobet/autobet.py:55-58 | Job names `get_name() + str(usr_id)` are equal iff the user ids are. |
| Autobet.JobsAfterRemoval | trxbetbot/plugins/autobet/autobet.py:52-58 | Deleting a user's row and that user's job keeps every remaining job owned by a row. |
| Autobet.JobsAfterInsertion | trxbetbot/plugins/autobet/autobet.py:98-118 | A user without a row has no job, and inserting the row and arming the job keeps every job owned by a row. |
| Autobet.ParseCommand | trxbetbot/plugins/autobet/autobet.py:51-80 | `stop` in any case, alone, stops. Any other count than two shows usage. A non-numeric amount is refused. Otherwise the chars and amount are enabled. |
| Autobet.AutobetPlugin.constructor | trxbetbot/plugins/autobet/autobet.py:15-21 | The plugin starts over its table with no jobs. |
| Autobet.AutobetPlugin.Enter | trxbetbot/plugins/autobet/autobet.py:15-43 | If the rows cannot be read, the operator is notified and no job is armed. Otherwise exactly one job per stored row is armed, named after the user, with the row's context, the interval and a first delay in [0, 60). |
| Autobet.AutobetPlugin.Execute | trxbetbot/plugins/autobet/autobet.py:48-118 | Stop deletes the row and that user's job only. Usage and a bad amount change nothing. An existing row is updated without re-arming. A new row is inserted and its job armed. Every job keeps a row. |
| Autobet.AutoBet | trxbetbot/plugins/autobet/autobet.py:120-129 | The first plugin named "bet" gets the saved chars and amount. Being two arguments, they always give the bet plugin's usage reply. |
| Tip.Dispatch | trxbetbot/plugins/tip/tip.py:27-47 | When replying only the amount may be given, otherwise the amount and the user. The target username has every `@` removed. |
| Tip.RemoveContextSplits | trxbetbot/plugins/tip/tip.py:171-174 | The job context `f"{chat_id}_{message_id}"` splits on `_` into exactly the two rendered ids. |
| Tip.Execute | trxbetbot/plugins/tip/tip.py:23-169 | The command is silent iff the replied-to author has no username, and a refusal or error reply is always its last effect. |
| Tip.FindWallets | trxbetbot/plugins/tip/tip.py:58-169 | After the amount is read, a refusal or error reply is always the last effect. |
| Tip.Send | trxbetbot/plugins/tip/tip.py:113-169 | The send block starts with the transfer of the amount from the sender's wallet to the receiver's address, and a refusal or error ends it. |
| Tip.Confirmed | trxbetbot/plugins/tip/tip.py:128-169 | After the confirmation the block ends in the error reply iff `get_chat` or `toSun` raised. |
| Tip.RunTip | trxbetbot/plugins/tip/tip.py:23-169 | The command, step by step, has exactly the effects of Tip.Execute. |
| Tip.LookUpAndSend | trxbetbot/plugins/tip/tip.py:58-169 | After the amount is read, step by step: both lookups, the balance query, the funds guard and the send block, exactly as FindWallets. |
| Tip.SendTip | trxbetbot/plugins/tip/tip.py:113-169 | The send block, step by step, exactly as Send. |
| Tip.FinishTip | trxbetbot/plugins/tip/tip.py:128-169 | The steps after the confirmation, exactly as Confirmed. |
| Tip.RemoveMsg | trxbetbot/plugins/tip/tip.py:171-174 | Decoding fails exactly when the context has no `_`. |
| TipProperties.SendPrefix | trxbetbot/plugins/tip/tip.py:58-114 | A command that passes every check looks up the receiver, the sender and the balance, then transfers. |
| TipProperties.TransferIffChecksPass | trxbetbot/plugins/tip/tip.py:58-114 | A transfer happens iff every check passes. It is the only transfer, from the sender's wallet to the receiver's address, of the amount read. |
| TipProperties.TransferWithinBalance | trxbetbot/plugins/tip/tip.py:103-114 | No transfer moves more sun than the sender's balance. |
| TipProperties.ArgumentCount | trxbetbot/plugins/tip/tip.py:27-47 | A wrong argument count gives the error (reply) or the usage (no reply), and nothing else. |
| TipProperties.NonNumericRejectedFirst | trxbetbot/plugins/tip/tip.py:49-56 | A non-numeric amount is refused before any lookup. |
| TipProperties.LookupStripsAt | trxbetbot/plugins/tip/tip.py:36-59 | The receiver is looked up once, first, under the given name with every `@` removed. |
| TipProperties.MissingWalletStops | trxbetbot/plugins/tip/tip.py:58-95 | A missing receiver or sender wallet ends the command with its message, before any balance query or transfer. |
| TipProperties.InsufficientFunds | trxbetbot/plugins/tip/tip.py:103-111 | An amount above the balance is refused with the balance, and nothing is sent. |
| TipProperties.NegativeAmountPassesGuard | trxbetbot/plugins/tip/tip.py:103-111 | The guard compares signed amounts, so a negative amount always reaches the transfer. |
| TipProperties.UnconfirmedEffects | trxbetbot/plugins/tip/tip.py:113-169 | A send that raises, returns no transaction, or is followed by a failing `get_chat` gives the lookups, the transfer, then the error or fee hint, after the confirmation if it went out. |
| TipProperties.ConfirmedEffects | trxbetbot/plugins/tip/tip.py:113-160 | A confirmed tip gives the lookups, the transfer, the confirmation, its removal job, the notification, then the record, or the error if `toSun` raised. |
| TipProperties.FailedSendRecordsNothing | trxbetbot/plugins/tip/tip.py:113-169 | A send with no transaction gives the fee hint, and a send that raises gives the error. Neither records a tip. |
| TipProperties.ChatFailureRecordsNothing | trxbetbot/plugins/tip/tip.py:126-169 | When `get_chat` raises after the confirmation, the error is the last reply and no tip is recorded. |
| TipProperties.ToSunFailureRecordsNothing | trxbetbot/plugins/tip/tip.py:133-169 | When `toSun` raises, the removal job and the notification still happen, then the error reply, and no tip is recorded. |
| TipProperties.ConfirmedTipRecorded | trxbetbot/plugins/tip/tip.py:113-160 | A tip that went out, was confirmed and converted is recorded last, as toSun(amount), after the transfer, the confirmation, its removal job and the notification. |
| TipProperties.RecordedIffSent | trxbetbot/plugins/tip/tip.py:113-160 | A tip is recorded iff the transfer returned a transaction, the chat could be read and `toSun` did not raise. The record comes last. Before it come the transfer, the confirmation, its scheduled removal and the notification. |
| TipProperties.FailureIffRaised | trxbetbot/plugins/tip/tip.py:113-169 | The error reply is sent iff the send raised, or it went out and `get_chat` or `toSun` raised. |
| TipProperties.SendEffects | trxbetbot/plugins/tip/tip.py:113-169 | The send block starts with the transfer and has no other. Each send outcome gives its exact effects, and a tip is recorded only as the last one. |
| TipProperties.ConfirmedSendEffects | trxbetbot/plugins/tip/tip.py:126-160 | A sent transfer in a readable chat gives the confirmation, the removal job after the chat type's delay, the notification, then the record or the error. |
| TipProperties.StopsBeforeSend | trxbetbot/plugins/tip/tip.py:23-111 | A command that stops before the transfer neither transfers nor records a tip. |
| TipProperties.RemoveContextRoundTrip | trxbetbot/plugins/tip/tip.py:133-174 | The context `f"{chat_id}_{message_id}"` is decoded back to the same chat id and message id. |
| Amounts.ParseAmount | trxbetbot/plugins/tip/tip.py:49-56 | `float()` accepts a string iff, after one optional sign, it is a decimal literal. It is negative iff the sign is `-`, and its digits and scale are those ParseUnsigned reads. |
| Amounts.ParseUnsigned | trxbetbot/plugins/tip/tip.py:49-56 | A decimal literal is read as the value of its digits with the point taken out, scaled by the number of digits behind the point. Nothing else is read. |
| Amounts.AmountRoundTrip | trxbetbot/plugins/tip/tip.py:49-56 | Every amount, written out as a literal, is read back as itself. |
| Amounts.ParseIntegerLiteral | trxbetbot/plugins/tip/tip.py:49-56 | Every integer literal is read back as that integer. |
| Amounts.ToSun | trxbetbot/plugins/tip/tip.py:158 | The amount in whole sun, truncated toward zero, with the amount's sign. |
| Amounts.FromSun | trxbetbot/plugins/tip/tip.py:104 | `fromSun(balance)` is balance/10^6 TRX, and converts back to the same sun. |
| Amounts.Exceeds | trxbetbot/plugins/tip/tip.py:107 | `float(amount) > float(fromSun(balance))`, compared exactly. |
| Amounts.NegativeNeverExceeds | trxbetbot/plugins/tip/tip.py:106-111 | A negative amount never exceeds a balance. |
| Amounts.WithinBalance | trxbetbot/plugins/tip/tip.py:106-111 | An amount that does not exceed fromSun(balance) converts to at most balance sun. |
| Text.IntToStringRoundTrip | trxbetbot/plugins/tip/tip.py:137 | `str(i)` reads back as i. |
| Text.IntToStringInjective | trxbetbot/plugins/autobet/autobet.py:57 | Distinct integers render as distinct strings. |
| Text.IntToStringAlphabet | trxbetbot/plugins/tip/tip.py:137 | The rendering of an integer never holds `_`, or any other non-digit other than `-`. |
| Text.Split | trxbetbot/plugins/tip/tip.py:172 | `split` gives at least one part, and no part holds the separator. |
| Text.JoinSplit | trxbetbot/plugins/tip/tip.py:172 | Joining the parts of a split with the separator gives back the string. |
| Text.SplitJoin | trxbetbot/plugins/tip/tip.py:172 | Splitting a join of separator-free parts gives back the parts. |
| Text.Remove | trxbetbot/plugins/tip/tip.py:36-47 | `replace("@", "")` leaves no `@`, changes nothing when there is none, drops or keeps a single character, and keeps every other character's count. |
| Text.RemoveConcat | trxbetbot/plugins/tip/tip.py:36-47 | Removing from a concatenation removes from each part, so the kept characters stay in order. |
| Text.RemoveIdempotent | trxbetbot/plugins/tip/tip.py:36-47 | Stripping `@` twice is stripping it once. |
| Text.LowerIsStop | trxbetbot/plugins/autobet/autobet.py:51 | `s.lower() == "stop"` holds exactly for the sixteen case spellings of "stop". |
| Text.ContainsSingle | trxbetbot/plugins/bet/bet.py:248 | `c in s` for a string of length at most one is empty-or-member. |
| Text.IndexOf | trxbetbot/plugins/tip/tip.py:172 | The first occurrence of a character, or None iff it does not occur. |
| Text.NatToStringRoundTrip | trxbetbot/plugins/tip/tip.py:137 | The decimal digits of n read back as n. |

## Left out

- Tron, Telegram and SQL calls are not made. Their answers are inputs, and their effects are
  list entries. This covers balance queries, transaction and block lookups, transfers, replies,
  message deletion and database statements.
- Float arithmetic is not modelled. LEVERAGE is kept in hundredths. `int(balance * leverage)`
  is computed exactly as balance·L/100, while the float product can round the other way by one
  sun. The stake bounds and the tip funds guard compare amounts exactly too.
- Amounts.ParseAmount accepts plain decimal literals only. Python's `float()` also accepts
  exponents, surrounding whitespace, underscores, `inf` and `nan`. Those inputs are not modelled.
- TipProperties.RecordedIffSent: tronapi's `toSun` is not part of this model. Whether it raises
  on the argument string is the input `World.toSunRaises`. When it does not raise, the record
  holds Amounts.ToSun of the decimal amount, converted exactly.
- Base58 decoding of the sender address is not modelled. Bet rows carry the owner address as
  the chain reports it.
- Wallet creation in `Bet.execute`, its replies, the `bets` insert and arming the probe are not
  modelled. Only the validation and normalisation part of `execute` is. `Bet.__enter__` and its
  table creation and `clean_losses` job are left out, as is `remove_messages`, which is one
  `DeleteBetMessages` effect here.
- Tip's `__enter__` (table creation), the message texts, logging and Markdown escaping are left
  out.
- `randrange(0, 60)` in Autobet.AutobetPlugin.Enter is an input function bounded by 60. The
  order in which rows come back is not modelled: the resulting job registry does not depend on it.
- Autobet.AutobetPlugin.Execute: the database statements of `/autobet` are assumed to succeed.
  The code does not check their results, and a failed `exists` query raises. Pickling of the
  stored update is modelled as storing the update itself.
- Autobet: user ids are assumed stored so that `get_name() + autobet[0]` equals
  `get_name() + str(usr_id)`. The table's schema file is not part of this model.
- Text.LowerIsStop: `lower` is modelled for ASCII letters only. That is exact for comparing
  with "stop".
- Threading, the job queue's timing and concurrent ticks are not modelled. A tick is one atomic
  step, and RunTicks runs ticks one after another.
- A message whose `reply_text` raises outside a `try` is not modelled. A `get_chat` that raises
  is modelled as `World.chatIsPrivate` being None.
- Autobet.AutobetPlugin.Execute: the `@private` decorator (autobet.py:45) is defined in
  trxbetbot/plugin.py, which is not part of this model. The command is modelled as a private
  chat sees it. What the decorator does in other chats is not modelled.
