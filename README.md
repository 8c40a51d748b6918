# Star casino core, in Dafny

This project models the game and money core of a Telegram "Stars" casino back
end:

- **the shared roulette round** (`RouletteRound`): one round at a time cycles
  through betting, spinning and result. Users place, remove and clear bets on
  the current round while betting is open. Entering the spinning phase fixes
  the outcome and settles every user's bets, crediting each user once.
  Entering the result phase records the outcome in a history of at most 20
  entries and drops the ledgers and results of rounds older than the previous
  one;
- **the European roulette rules** (`Roulette`): colour, column and dozen of a
  pocket, the bet table with its multipliers, the win rule of every bet type,
  and a single-player spin;
- **the dice rules** (`Dice`): winning-roll counts, validation, the win rule
  and the list of offered bets;
- **the balance store** (`UserBalance`): per user a balance and a newest-first
  history of at most 50 entries, with guarded debits and credits;
- **the deposit-charge store** (`DepositCharges`): Star deposits per user,
  the greedy exact-sum selection of unused charges that pays a withdrawal
  back, and marking charges used;
- **the withdrawal-request store** (`Withdrawals`): requests under increasing
  ids with a status that can be confirmed or declined.

Money is integer cents, so the source's `Math.round(x * 100) / 100` is the
identity. User ids are strings. The objects whose fields the source updates
in place are classes:

- `RouletteRoundManager`;
- `UserBalanceStore`, whose `users` map is the source's module-level `Map`;
- `ChargeStore`;
- `WithdrawalStore`.

The rules are functions. Timers, `Date.now()` and `Math.random()` become
parameters:

- each phase change is a method;
- `now` is passed to `GetState` and to the history-recording operations;
- the spin and the roll are passed to the play functions and to
  `StartSpinningPhase`.

`Seqs` holds the generic list operations the stores use: `filter`, a stable
descending `sort` and `slice(0, limit)`.

The round manager keeps an invariant (`Valid`). It is stated on plain values
by `RoundInv` (phase, clock, outcome and colour agree; every round before
the current one has been settled, each exactly once) and `StoreInv` (ledgers exist only for opened rounds and every
user's entry is a non-empty list of valid bets with distinct keys). Every bet
operation also keeps "balance plus open stake" unchanged for every user: a
bet moves money from the balance into the round's ledger and back, and
nothing else does.

## Model

| member | source | states |
|---|---|---|
| Roulette.RedBlackPartition | src/games/roulette.js:19-27 | the red and black sets are disjoint and together hold exactly 1..36 |
| Roulette.GetColor | src/games/roulette.js:34-38 | green exactly for 0 |
| Roulette.GetColorSets | src/games/roulette.js:34-38 | on 1..36: red exactly for members of the red set, black exactly for members of the black set |
| Roulette.GetColumn | src/games/roulette.js:46-49 | 0 for pocket 0; for n >= 1 a column in 1..3 congruent to n modulo 3 |
| Roulette.GetDozen | src/games/roulette.js:54-59 | 0 for pocket 0; for 1..36 the dozen d with 12(d-1) < n <= 12d |
| Roulette.UnknownTypeNeverWins | src/games/roulette.js:87-104 | a bet type outside the table never wins |
| Roulette.ZeroLosesOutsideBets | src/games/roulette.js:87-104 | on 0 a bet wins if and only if it is a straight bet on 0 |
| Roulette.ExactlyOneOfEachFamily | src/games/roulette.js:87-104 | on 1..36 exactly one of red/black wins, agreeing with the colour; exactly one of odd/even, low/high; exactly one dozen and one column |
| Roulette.BetPayout | src/games/roulette.js:133-134 | a win returns the stake plus stake times multiplier, a loss nothing; never negative for a non-negative stake |
| Roulette.BetProfit | src/games/roulette.js:135 | on a win the profit is payout minus stake; on a loss it is minus the stake |
| Roulette.ProfitIsPayoutMinusStake | src/games/roulette.js:133-135 | for every resolved bet, profit equals payout minus stake |
| Roulette.Play | src/games/roulette.js:113-148 | refused exactly for a non-positive amount, a type that is not an entry of the table, or a straight number outside 0..36; otherwise the spin, its colour, the win rule, the table multiplier, payout and profit, and a bet number only for straight bets |
| Roulette.PlayRejectionAsWritten | src/games/roulette.js:113-127 | the validation as written: it passes exactly a positive amount of a type whose table lookup is truthy (an entry or an inherited property name) with a straight number in 0..36 |
| Roulette.InheritedBetTypeAcceptedAsWritten | src/games/roulette.js:118 | as written, a 10-cent "toString" bet is accepted and loses its stake on every pocket, while the corrected check refuses it |
| Roulette.PlayRefusesInheritedNames | src/games/roulette.js:118 | the corrected check refuses every inherited property name and otherwise agrees with the check as written |
| Roulette.StraightPaysThirtySixFold | src/games/roulette.js:113-135 | a straight bet on N wins exactly on N and then pays 36 times the stake |
| Roulette.RedPaysDouble | src/games/roulette.js:113-135 | a red bet wins exactly on the red pockets and then pays twice the stake |
| Dice.CalculateCoefficient | src/games/dice.js:30-51 | None for an unknown direction; the winning-outcome count is 6 - target (higher) or target - 1 (lower), lies in 1..5 and equals the number of winning faces; the coefficient exceeds 1 |
| Dice.NoCoefficientOnlyAtEdges | src/games/dice.js:43-45 | for targets 1..6 and a known direction, no coefficient exactly for higher-than-6 and lower-than-1 |
| Dice.Play | src/games/dice.js:60-106 | the error for a bad amount, then for a bad target; an outcome exactly for a valid bet that has a coefficient; won is roll > target or roll < target; a loss pays 0 with profit minus the stake |
| Dice.WinningBetNeverLoses | src/games/dice.js:92-93 | a winning dice bet never has a negative profit |
| Dice.OptionsAtExact | src/games/dice.js:114-136 | one target's options are exactly its bets that have a coefficient, higher before lower; two for inner targets, one at the edges |
| Dice.OptionsThroughMembers | src/games/dice.js:114-136 | the options for targets 1..n are exactly the bets on those targets that have a coefficient |
| Dice.OptionsThroughLength | src/games/dice.js:114-136 | 2n - 1 options for targets 1..n below 6, ten in all |
| Dice.OptionsThroughOrdered | src/games/dice.js:114-136 | options are in target order with higher before lower |
| Dice.GetBetOptions | src/games/dice.js:111-139 | the loop yields the specified option list: ten options, each with a coefficient |
| UserBalance.PrependCapped | src/userBalance.js:67-77 | the new entry comes first, the rest is a prefix of the old history, at most 50 entries |
| UserBalance.UserBalanceStore.constructor | src/userBalance.js:9 | the store starts empty |
| UserBalance.UserBalanceStore.GetOrCreateUser | src/userBalance.js:11-20 | an unseen user is created with balance 0 and no history; an existing one is returned unchanged |
| UserBalance.UserBalanceStore.GetBalance | src/userBalance.js:22-25 | returns the user's balance; only creates a missing user |
| UserBalance.UserBalanceStore.DeductBet | src/userBalance.js:27-34 | refuses a non-positive amount and an overdraft without changing the balance; otherwise lowers it by exactly the amount; a non-negative balance stays non-negative |
| UserBalance.UserBalanceStore.AddWinnings | src/userBalance.js:36-40 | raises the balance by exactly the amount, always succeeds, touches nobody else |
| UserBalance.UserBalanceStore.AddDeposit | src/userBalance.js:42-48 | refuses a non-positive amount with no change; otherwise adds it and records a deposit entry with the new balance |
| UserBalance.UserBalanceStore.DeductWithdrawal | src/userBalance.js:50-57 | the guards of a bet debit; on success lowers the balance and records a withdrawal entry |
| UserBalance.UserBalanceStore.RefundWithdrawal | src/userBalance.js:59-65 | refuses a non-positive amount with no change; otherwise adds it and records a refund entry |
| UserBalance.UserBalanceStore.AddHistoryEntry | src/userBalance.js:67-77 | prepends the timestamped entry, keeps at most 50, changes nothing else |
| UserBalance.UserBalanceStore.GetHistory | src/userBalance.js:79-82 | a prefix of the history with at most `limit` entries |
| Seqs.Filter | src/withdrawals.js:27 | every element kept satisfies the predicate and comes from the input; every input element satisfying it is kept; no element more often than in the input |
| Seqs.FilterAppend | src/withdrawals.js:27 | filtering a concatenation is the concatenation of the filtered parts, so the kept elements stay in input order |
| Seqs.FilterSingle | src/withdrawals.js:27 | one element is kept exactly when it satisfies the predicate |
| Seqs.SortDesc | src/withdrawals.js:53 | a permutation of the input in non-increasing key order |
| Seqs.SliceTo | src/userBalance.js:81 | a prefix of the input, of length `limit` capped at the input's length; a negative limit drops from the end |
| Seqs.PrefixKeepsGreatest | src/withdrawals.js:53-54 | a prefix of a sorted list holds part of it, and nothing it leaves out has a greater key than anything it keeps |
| Seqs.SortThenSlice | src/withdrawals.js:53-54 | sorting then slicing yields a sorted sub-multiset of the input holding the greatest keys |
| DepositCharges.Unused | src/depositCharges.js:31 | exactly the unused charges of the list |
| DepositCharges.UnusedTotalAppend | src/depositCharges.js:50-55 | adding an unused charge raises the unused total by its amount |
| DepositCharges.GreedyWalk | src/depositCharges.js:35-44 | the loop computes the greedy walk |
| DepositCharges.GreedySound | src/depositCharges.js:37-44 | a greedy selection sums exactly to the target and picks charges of the list in order |
| DepositCharges.PickedFromUnused | src/depositCharges.js:31-40 | picks from unused charges are distinct unused charges |
| DepositCharges.PickedFromSorted | src/depositCharges.js:34-40 | picks from a list sorted by decreasing amount come in non-increasing amount order |
| DepositCharges.SelectionSound | src/depositCharges.js:26-45 | a selection exists only for a known user and a positive target; it sums exactly to the target, is in non-increasing order, uses distinct unused charges, and with non-negative amounts never exceeds the unused total |
| DepositCharges.SumStarsPermutation | src/depositCharges.js:34 | sorting does not change the total of the charges |
| DepositCharges.MarkList | src/depositCharges.js:60-67 | same charges in the same order; `used` is set exactly on listed ids and never cleared; other fields unchanged |
| DepositCharges.MarkCharges | src/depositCharges.js:63-65 | the inner loop computes MarkList |
| DepositCharges.MarkedLeaveUnused | src/depositCharges.js:60-67 | after marking, no listed charge is unused or offered in a selection |
| DepositCharges.ChargeStore.constructor | src/depositCharges.js:7 | the store starts empty |
| DepositCharges.ChargeStore.GetUnusedStarsTotal | src/depositCharges.js:50-55 | 0 for an unknown user; otherwise the sum of the amounts of the user's unused charges |
| DepositCharges.ChargeStore.AddCharge | src/depositCharges.js:9-19 | appends one unused charge to the user's list, creating the list if needed; other users unchanged; the unused total rises by the amount |
| DepositCharges.ChargeStore.FindUnusedCharges | src/depositCharges.js:26-45 | returns the specified selection (None without a list, for a non-positive target, with no unused charge, or when greedy fails) and changes nothing |
| DepositCharges.ChargeStore.MarkUsed | src/depositCharges.js:60-67 | every user's list becomes its MarkList; no user added or removed |
| Withdrawals.RequestsOf | src/withdrawals.js:52 | exactly the user's requests |
| Withdrawals.NewestFirst | src/withdrawals.js:49-55 | only the user's stored requests, newest first; `limit` of them when there are that many, all of them otherwise; a negative limit drops that many from the end |
| Withdrawals.NewestFirstKeepsNewest | src/withdrawals.js:49-55 | the result is part of the user's requests, and no request left out is newer than one returned |
| Withdrawals.WithdrawalStore.constructor | src/withdrawals.js:7-8 | no requests, next id 1 |
| Withdrawals.WithdrawalStore.CreateRequest | src/withdrawals.js:10-24 | a pending request with no charges under the next id, greater than every earlier id, appended to the store |
| Withdrawals.WithdrawalStore.GetPendingRequests | src/withdrawals.js:26-28 | exactly the stored requests whose status is pending |
| Withdrawals.WithdrawalStore.GetRequest | src/withdrawals.js:30-32 | the request with that id, None exactly when no request has it |
| Withdrawals.WithdrawalStore.ConfirmRequest | src/withdrawals.js:34-40 | None and no change for an unknown id; otherwise that request alone becomes confirmed with the given charges |
| Withdrawals.WithdrawalStore.DeclineRequest | src/withdrawals.js:42-47 | None and no change for an unknown id; otherwise that request alone becomes declined |
| Withdrawals.WithdrawalStore.GetUserRequests | src/withdrawals.js:49-55 | only the user's stored requests, newest first, with the lengths `slice` gives; part of the user's requests, with no request left out newer than one returned |
| RouletteRound.DecimalStringInjective | src/games/rouletteRound.js:97 | different numbers are printed differently |
| RouletteRound.CheckBet | src/games/rouletteRound.js:83-97 | accepts exactly a positive amount of a known type whose straight number is in 0..36; the stored bet has a number only for straight bets and carries its key |
| RouletteRound.CheckBetValid | src/games/rouletteRound.js:83-97 | the accepted bets are exactly the valid stored bets |
| RouletteRound.CheckBetAsWritten | src/games/rouletteRound.js:83-97 | the validation as written: it accepts exactly a positive amount of a type whose table lookup is truthy (an entry or an inherited property name) with a straight number in 0..36 |
| RouletteRound.InheritedBetAcceptedAsWritten | src/games/rouletteRound.js:86 | as written, a 10-cent "toString" bet is accepted as a bet that is not valid and loses on every pocket, while the corrected check refuses it |
| RouletteRound.CheckBetRefusesInheritedNames | src/games/rouletteRound.js:86 | the corrected check refuses every inherited property name and otherwise agrees with the check as written |
| RouletteRound.BetKeyIdentifies | src/games/rouletteRound.js:97 | equal keys of valid bets mean the same type and number |
| RouletteRound.FindBet | src/games/rouletteRound.js:133 | the first index with that key, or None when no bet has it |
| RouletteRound.MergeBetTotal | src/games/rouletteRound.js:104-113 | merging raises the entry's total by exactly the bet's amount, keeps keys distinct, and adds an entry only for a new key |
| RouletteRound.RemoveAtTotal | src/games/rouletteRound.js:136-137 | removing a bet lowers the entry's total by exactly its amount |
| RouletteRound.RemoveAtWellFormed | src/games/rouletteRound.js:136-139 | what is left is well formed or empty and no longer holds the removed key |
| RouletteRound.ResolveBet | src/games/rouletteRound.js:260-271 | won by the roulette rule; a win pays amount times (multiplier + 1), a loss pays 0 with profit minus the amount |
| RouletteRound.ResolveAllAt | src/games/rouletteRound.js:260-272 | every bet is resolved in place |
| RouletteRound.AnyWon | src/games/rouletteRound.js:281 | true exactly when some resolved bet won |
| RouletteRound.SettlementTotals | src/games/rouletteRound.js:274-286 | total profit is the sum of the per-bet profits; the payout is non-negative, positive exactly when something won, 0 with the whole stake lost otherwise; the balance rises by the payout |
| RouletteRound.PushHistory | src/games/rouletteRound.js:230-231 | the outcome comes first, the rest is a prefix of the old history, at most 20 entries |
| RouletteRound.DropRoundsBelow | src/games/rouletteRound.js:236-241 | exactly the rounds at or above the floor are kept, with their data unchanged |
| RouletteRound.ReplaceEntryOpen | src/games/rouletteRound.js:104-113 | replacing one user's entry changes that user's open total only |
| RouletteRound.SettleUserBets | src/games/rouletteRound.js:283-301 | the user is credited the payout once, if positive, and gets one history entry with the final balance; nobody else changes |
| RouletteRound.SettleAll | src/games/rouletteRound.js:259-311 | every user of the round is settled once, with results for exactly those users; nobody else changes |
| RouletteRound.SettledRoundsExact | src/games/rouletteRound.js:192-213 | the settled rounds are exactly the rounds before the current one, plus the current one once its outcome is fixed |
| RouletteRound.OpenRoundInv | src/games/rouletteRound.js:192-197 | opening the next round from waiting or from the result phase keeps the round invariant, every earlier round having been settled |
| RouletteRound.OpenRoundStore | src/games/rouletteRound.js:198 | installing the new round's empty ledger keeps the stores valid |
| RouletteRound.SpinRoundInv | src/games/rouletteRound.js:207-213 | closing betting with a pocket settles a round not settled before and keeps the invariant |
| RouletteRound.SpinRoundStore | src/games/rouletteRound.js:313 | recording the round's results keeps the stores valid |
| RouletteRound.ResultRoundInv | src/games/rouletteRound.js:225-227 | showing the result keeps the round invariant |
| RouletteRound.ResultRoundStore | src/games/rouletteRound.js:235-241 | housekeeping that keeps the current round keeps the stores valid |
| RouletteRound.RouletteRoundManager.constructor | src/games/rouletteRound.js:21-37 | round 0, waiting, empty history, ledgers and results; the invariant holds |
| RouletteRound.RouletteRoundManager.GetUserBets | src/games/rouletteRound.js:173-178 | the user's entry in the given round (0 or absent: the current one), or no bets |
| RouletteRound.RouletteRoundManager.GetUserRoundResult | src/games/rouletteRound.js:181-186 | the user's stored settlement of the given round (0 or absent: the current one), or None exactly when there is none |
| RouletteRound.RouletteRoundManager.GetState | src/games/rouletteRound.js:53-71 | the phase, round and history; the phase's duration; the time left until the phase ends, 0 once it has passed, never more than the duration; the round's outcome and colour, which are absent while betting and a pocket with its colour while spinning or showing the result |
| RouletteRound.RouletteRoundManager.PlaceBet | src/games/rouletteRound.js:77-120 | closed and changed-round failures first, then the validation error, then insufficient balance, none changing anything; on success the stake is debited and merged into the user's entry, others unchanged; balance plus open stake is unchanged for everyone |
| RouletteRound.RouletteRoundManager.AcceptBet | src/games/rouletteRound.js:99-119 | a failed debit leaves the ledger untouched; otherwise the debit and the merged entry |
| RouletteRound.RouletteRoundManager.Refund | src/games/rouletteRound.js:137-144 | credits exactly the amount and answers the new balance |
| RouletteRound.RouletteRoundManager.SetEntry | src/games/rouletteRound.js:104-113 | stores or drops the user's entry; that user's open total becomes the entry's total, others unchanged |
| RouletteRound.RouletteRoundManager.RemoveBet | src/games/rouletteRound.js:122-146 | closed, changed-round, no-bets and not-found failures change nothing; otherwise exactly that bet is removed and its amount refunded, the key is gone, an empty entry is dropped |
| RouletteRound.RouletteRoundManager.WithdrawBet | src/games/rouletteRound.js:132-145 | removes the bet at the index and refunds exactly its amount |
| RouletteRound.RouletteRoundManager.ClearBets | src/games/rouletteRound.js:148-170 | closed and changed-round failures change nothing; otherwise the user's entry is gone and exactly its total is refunded; with no entry nothing changes |
| RouletteRound.RouletteRoundManager.Start | src/games/rouletteRound.js:43-47 | on a manager still waiting, opens round 1 for bets |
| RouletteRound.RouletteRoundManager.StartBettingPhase | src/games/rouletteRound.js:192-205 | from waiting or the result phase: round id plus one, betting, no result, an empty ledger for the new round, nothing else changed; the state shows no result and the full betting time |
| RouletteRound.RouletteRoundManager.StartSpinningPhase | src/games/rouletteRound.js:207-223 | spinning with the given pocket and its colour; the round is settled once; each of its users is settled, nobody else's record changes |
| RouletteRound.RouletteRoundManager.SettleBets | src/games/rouletteRound.js:253-314 | no results for an empty round; otherwise results for exactly the round's users, each settled, and nobody else's record changes |
| RouletteRound.RouletteRoundManager.StartResultPhase | src/games/rouletteRound.js:225-247 | result phase; the outcome is prepended to a history of at most 20; ledgers and results are kept only for the current and previous rounds, unchanged |

## Left out

- Timers (`setTimeout` phase chaining), the EventEmitter and `_broadcast` are not modelled. Each phase change is a method the caller invokes, and publishing state has no model.
- `Math.random()` for the roulette spin and the dice roll is an input. Uniformity is not modelled.
- Floating point is not modelled. Amounts are integer cents, so `Math.round(x * 100) / 100` is the identity. The dice coefficient is kept as its value in hundredths, and a winning dice payout rounds half up to whole cents. The dice win chance is kept as a whole percentage.
- The `parseFloat`, `parseInt`, `String()` and `toLowerCase()` coercions are not modelled. Inputs arrive typed: a bet number is `Option<int>`, a user id is a string, and a direction is already lower case.
- The `createdAt` field of a user record is dropped, because nothing reads it. Timestamps and `createdAt` of requests are the `now` parameter.
- The settlement's history entry in the balance store does not carry the per-bet list (`bets: resolvedBets`). The settlement kept in the round results does carry it.
- RouletteRound.RouletteRoundManager.constructor takes the balance store, which the source injects in `start()`. The store is never used before `start()`, so the two agree.
- RouletteRound.RouletteRoundManager.RemoveBet does not model the `!roundBets` guard, because the invariant guarantees the current round's ledger exists while betting.
- RouletteRound.RouletteRoundManager.PlaceBet states the ledger effect per user record, through `View` and `LedgerSet`: the named user's record is the stated one and every other user's record is unchanged. It does not state equality of the whole map when a record is first created.
- RouletteRound.RouletteRoundManager.RemoveBet, RouletteRound.RouletteRoundManager.ClearBets, RouletteRound.RouletteRoundManager.AcceptBet and RouletteRound.RouletteRoundManager.WithdrawBet state their ledger effect per user record in the same way.
- RouletteRound.RouletteRoundManager.StartSpinningPhase and RouletteRound.RouletteRoundManager.SettleBets also state their ledger effect per user record.
- RouletteRound.RouletteRoundManager.Refund reads the balance back before the bet ledger is updated, where the source does it after. The two share no state.
- DepositCharges.ChargeStore.FindUnusedCharges returns the specified selection. Its guarantees (exact sum, order, distinct unused charges) are stated by DepositCharges.SelectionSound.
- Seqs.SortDesc is a stable insertion sort, matching the engine's stable `Array.prototype.sort`. Stability itself is not stated.
- Console logging, the Express routes, the Telegram bot, the admin panel and the web client are not modelled. They are I/O and UI.
- Concurrency is not modelled. The source runs on a single thread and has no locking.
- Roulette.Play models the corrected bet-type check: only the table's own entries pass. The check as written also passes inherited property names; see Findings.
- RouletteRound.CheckBet models the corrected check in the same way, and so RouletteRound.RouletteRoundManager.PlaceBet never stores a bet on an inherited name; see Findings.
- RouletteRound.RouletteRoundManager.Start requires a manager that is still waiting. The source does not guard `start()`, which the server calls once; a second call would run a second timer chain, which is not modelled.
- RouletteRound.RouletteRoundManager.StartBettingPhase requires the waiting or the result phase, the only phases from which the timer chain calls it.
- UserBalance.UserBalanceStore.GetHistory and Withdrawals.WithdrawalStore.GetUserRequests take `limit` explicitly. The source's default of 20 is not modelled.
- Withdrawals.WithdrawalStore.ConfirmRequest takes `chargeIds` explicitly. The source's default of an empty list is not modelled.
- RouletteRound.RouletteRoundManager.GetUserBets, RouletteRound.RouletteRoundManager.GetState and the request queries return values. The source returns its live arrays and request objects, which a caller could change in place. That aliasing is not modelled.
- Sub-cent amounts are not modelled. `parseFloat` admits an amount such as 0.004, which the source accepts as a bet and then rounds away in the balance with `Math.round(x * 100) / 100`.

## Findings

| source | as written | input that shows it | evidently intended | confidence | as-written member | corrected member |
|---|---|---|---|---|---|---|
| src/games/roulette.js:118 | the bet type is checked by the truthiness of `BET_TYPES[betType]`, which is also truthy for the properties an object literal inherits (`toString`, `constructor`, `__proto__` and the like) | `play(10, "toString", null)`: accepted, `isBetWinner` falls to its default on every pocket, the multiplier is `undefined`, the payout 0 and the profit -10 | only the table's own bet types are accepted, as the error "Invalid bet type" says | not executed | Roulette.PlayRejectionAsWritten, Roulette.InheritedBetTypeAcceptedAsWritten | Roulette.Play, Roulette.PlayRefusesInheritedNames |
| src/games/rouletteRound.js:86 | the same truthiness test on `rouletteGame.BET_TYPES[betType]` | `placeBet(u, r, "toString", null, 10)` while betting: the 10 is debited and a bet that can never win is stored | only the table's own bet types are accepted, as the error "Invalid bet type: ..." says | not executed | RouletteRound.CheckBetAsWritten, RouletteRound.InheritedBetAcceptedAsWritten | RouletteRound.CheckBet, RouletteRound.CheckBetRefusesInheritedNames |
