/**
 * The shared roulette round: one round at a time cycles through the phases
 * betting -> spinning -> result -> betting. Bets are taken only while
 * betting and only for the current round id; entering the spinning phase
 * fixes the outcome and settles every user's bets against it; entering the
 * result phase records the outcome in a bounded history and drops ledgers
 * and results of old rounds. Money moves through the balance store.
 *
 * Timers become explicit transition methods, `Date.now()` a `now`
 * parameter and the random spin an `outcome` parameter.
 */
module RouletteRound {
  import opened Wrappers
  import opened Roulette
  import UserBalance

  const BettingDurationMs := 15000
  const SpinningDurationMs := 5000
  const ResultDurationMs := 10000
  const HistoryLimit := 20

  datatype Phase = Waiting | Betting | Spinning | Result

  /** How long a phase lasts; `waiting` has no duration. */
  function PhaseDurationMs(p: Phase): int {
    match p
    case Waiting => 0
    case Betting => BettingDurationMs
    case Spinning => SpinningDurationMs
    case Result => ResultDurationMs
  }

  /** One open bet of a user: the amounts of repeated bets on the same key are merged. */
  datatype Bet = Bet(betKey: string, betType: string, betNumber: Option<int>, betAmount: int)

  datatype ResolvedBet = ResolvedBet(bet: Bet, won: bool, multiplier: nat, payout: int, profit: int)

  /** What a user gets for a settled round. */
  datatype Settlement = Settlement(bets: seq<ResolvedBet>, totalBet: int, totalPayout: int,
                                   totalProfit: int, won: bool, balance: int)

  datatype HistoryItem = HistoryItem(number: int, color: Color)

  /** The answer to a bet operation; `roundId` is absent when `clearBets` had nothing to clear. */
  datatype Response = Failure(error: string) | Success(roundId: Option<int>, balance: int)

  /** The public snapshot of the round. */
  datatype State = State(phase: Phase, roundId: int, phaseRemainingMs: int, phaseDurationMs: int,
                         result: Option<int>, resultColor: Option<Color>, history: seq<HistoryItem>)

  // ---------------------------------------------------------------------
  // Bet keys
  // ---------------------------------------------------------------------

  function DigitChar(d: nat): char
    requires d < 10
  {
    (48 + d) as char
  }

  /** The decimal spelling of a natural number, as a template literal prints it. */
  function DecimalString(n: nat): (s: string)
    ensures |s| >= 1
    ensures n >= 10 <==> |s| >= 2
    decreases n
  {
    if n < 10 then [DigitChar(n)] else DecimalString(n / 10) + [DigitChar(n % 10)]
  }

  /** Different numbers are spelled differently. */
  lemma {:induction false} DecimalStringInjective(a: nat, b: nat)
    requires DecimalString(a) == DecimalString(b)
    ensures a == b
    decreases a
  {
    var s := DecimalString(a);
    if a >= 10 {
      assert b >= 10;
      assert s[|s| - 1] == DigitChar(a % 10) == DigitChar(b % 10);
      assert s[..|s| - 1] == DecimalString(a / 10) == DecimalString(b / 10);
      DecimalStringInjective(a / 10, b / 10);
    }
  }

  /** `straight_N` for a straight bet on N, the type name for every other bet. */
  function BetKey(betType: string, betNumber: Option<int>): string {
    if betType == "straight" && betNumber.Some? && betNumber.value >= 0 then
      "straight_" + DecimalString(betNumber.value)
    else betType
  }

  datatype Checked = Rejected(error: string) | Accepted(bet: Bet)

  /** The validation of `placeBet`, in the source's order, producing the bet to store. */
  function CheckBet(betType: string, betNumber: Option<int>, betAmount: int): (c: Checked)
    ensures c.Accepted? <==>
      && betAmount > 0
      && betType in BetTypes
      && (betType == "straight" ==> betNumber.Some? && IsPocket(betNumber.value))
    ensures c.Accepted? ==>
      && c.bet.betType == betType
      && c.bet.betAmount == betAmount
      && c.bet.betNumber == (if betType == "straight" then betNumber else None)
      && c.bet.betKey == BetKey(betType, c.bet.betNumber)
  {
    if betAmount <= 0 then Rejected("Invalid bet amount")
    else if betType !in BetTypes then Rejected("Invalid bet type: " + betType)
    else if betType == "straight" then
      if betNumber.None? || !IsPocket(betNumber.value) then Rejected("Number must be 0-36")
      else Accepted(Bet(BetKey(betType, betNumber), betType, betNumber, betAmount))
    else Accepted(Bet(betType, betType, None, betAmount))
  }

  /** A bet as `placeBet` stores it. */
  predicate ValidBet(b: Bet) {
    && b.betAmount > 0
    && b.betType in BetTypes
    && (b.betType == "straight" ==> b.betNumber.Some? && IsPocket(b.betNumber.value))
    && (b.betType != "straight" ==> b.betNumber.None?)
    && b.betKey == BetKey(b.betType, b.betNumber)
  }

  /** The stored bets are exactly the bets `CheckBet` accepts. */
  lemma CheckBetValid(betType: string, betNumber: Option<int>, betAmount: int, b: Bet)
    ensures CheckBet(betType, betNumber, betAmount).Accepted? ==> ValidBet(CheckBet(betType, betNumber, betAmount).bet)
    ensures ValidBet(b) ==> CheckBet(b.betType, b.betNumber, b.betAmount) == Accepted(b)
  {
  }

  /**
   * `placeBet`'s validation as written: the bet-type test is the truthiness of
   * `BET_TYPES[betType]`, which inherited property names pass.
   */
  function CheckBetAsWritten(betType: string, betNumber: Option<int>, betAmount: int): (c: Checked)
    ensures c.Accepted? <==>
      && betAmount > 0
      && LookupIsTruthy(betType)
      && (betType == "straight" ==> betNumber.Some? && IsPocket(betNumber.value))
  {
    if betAmount <= 0 then Rejected("Invalid bet amount")
    else if !LookupIsTruthy(betType) then Rejected("Invalid bet type: " + betType)
    else if betType == "straight" then
      if betNumber.None? || !IsPocket(betNumber.value) then Rejected("Number must be 0-36")
      else Accepted(Bet(BetKey(betType, betNumber), betType, betNumber, betAmount))
    else Accepted(Bet(betType, betType, None, betAmount))
  }

  /**
   * The discrepancy: as written, a "toString" bet of 10 is accepted and would
   * be stored (and the stake debited) although it is not a valid bet; at
   * settlement it loses on every pocket. `CheckBet`, which the model uses,
   * refuses it.
   */
  lemma InheritedBetAcceptedAsWritten(outcome: int)
    requires IsPocket(outcome)
    ensures CheckBetAsWritten("toString", None, 10) == Accepted(Bet("toString", "toString", None, 10))
    ensures !ValidBet(Bet("toString", "toString", None, 10))
    ensures !IsBetWinner("toString", None, outcome)
    ensures CheckBet("toString", None, 10) == Rejected("Invalid bet type: toString")
  {
    assert "toString" in InheritedNames;
  }

  /** The corrected check refuses every inherited name and otherwise agrees with the check as written. */
  lemma CheckBetRefusesInheritedNames(betType: string, betNumber: Option<int>, betAmount: int)
    ensures betType in InheritedNames ==> CheckBet(betType, betNumber, betAmount).Rejected?
    ensures betType !in InheritedNames ==>
      CheckBet(betType, betNumber, betAmount) == CheckBetAsWritten(betType, betNumber, betAmount)
  {
    PlayRefusesInheritedNames(betAmount, betType, betNumber);
  }

  /**
   * The key of a stored bet determines its type and number, so merging by key
   * only ever merges bets on the same thing.
   */
  lemma BetKeyIdentifies(b1: Bet, b2: Bet)
    requires ValidBet(b1) && ValidBet(b2)
    requires b1.betKey == b2.betKey
    ensures b1.betType == b2.betType && b1.betNumber == b2.betNumber
  {
    var k := b1.betKey;
    if b1.betType == "straight" || b2.betType == "straight" {
      // A straight key is longer than every other type name.
      assert |"straight_"| == 9;
      if b1.betType == "straight" && b2.betType == "straight" {
        var n1, n2 := b1.betNumber.value, b2.betNumber.value;
        assert k == "straight_" + DecimalString(n1) == "straight_" + DecimalString(n2);
        assert DecimalString(n1) == k[9..] == DecimalString(n2);
        DecimalStringInjective(n1, n2);
      }
    }
  }

  // ---------------------------------------------------------------------
  // A user's list of open bets
  // ---------------------------------------------------------------------

  /** Index of the first bet with this key (`findIndex`), or None. */
  function FindBet(bets: seq<Bet>, key: string): (r: Option<nat>)
    ensures r.Some? ==> r.value < |bets| && bets[r.value].betKey == key
    ensures r.Some? ==> forall j :: 0 <= j < r.value ==> bets[j].betKey != key
    ensures r.None? ==> forall j :: 0 <= j < |bets| ==> bets[j].betKey != key
  {
    if bets == [] then None
    else if bets[0].betKey == key then Some(0)
    else match FindBet(bets[1..], key)
      case None => None
      case Some(i) => Some(i + 1)
  }

  /** Adds `b` to the entry with its key, or appends it as a new entry. */
  function MergeBet(bets: seq<Bet>, b: Bet): seq<Bet> {
    match FindBet(bets, b.betKey)
    case Some(i) => bets[i := bets[i].(betAmount := bets[i].betAmount + b.betAmount)]
    case None => bets + [b]
  }

  /** `splice(i, 1)`. */
  function RemoveAt(bets: seq<Bet>, i: nat): seq<Bet>
    requires i < |bets|
  {
    bets[..i] + bets[i + 1..]
  }

  function SumAmounts(bets: seq<Bet>): int {
    if bets == [] then 0 else bets[0].betAmount + SumAmounts(bets[1..])
  }

  /** A user's entry in a round's ledger: valid bets with distinct keys, never empty. */
  ghost predicate WellFormed(bets: seq<Bet>) {
    && |bets| > 0
    && KnownTypes(bets)
    && (forall i :: 0 <= i < |bets| ==> ValidBet(bets[i]))
    && (forall i, j :: 0 <= i < j < |bets| ==> bets[i].betKey != bets[j].betKey)
  }

  lemma {:induction false} SumAmountsAppend(a: seq<Bet>, b: seq<Bet>)
    ensures SumAmounts(a + b) == SumAmounts(a) + SumAmounts(b)
    decreases |a|
  {
    if a == [] {
      assert a + b == b;
    } else {
      assert (a + b)[1..] == a[1..] + b;
      SumAmountsAppend(a[1..], b);
    }
  }

  lemma SumAmountsSplitAt(bets: seq<Bet>, i: nat)
    requires i < |bets|
    ensures SumAmounts(bets) == SumAmounts(bets[..i]) + bets[i].betAmount + SumAmounts(bets[i + 1..])
  {
    assert bets == bets[..i] + ([bets[i]] + bets[i + 1..]);
    SumAmountsAppend(bets[..i], [bets[i]] + bets[i + 1..]);
    assert ([bets[i]] + bets[i + 1..])[1..] == bets[i + 1..];
  }

  /** Merging a bet raises the user's open total by exactly its amount and keeps the entry well formed. */
  lemma MergeBetTotal(bets: seq<Bet>, b: Bet)
    requires bets == [] || WellFormed(bets)
    requires ValidBet(b)
    ensures SumAmounts(MergeBet(bets, b)) == SumAmounts(bets) + b.betAmount
    ensures WellFormed(MergeBet(bets, b))
    ensures |MergeBet(bets, b)| == |bets| + (if FindBet(bets, b.betKey).Some? then 0 else 1)
  {
    var merged := MergeBet(bets, b);
    match FindBet(bets, b.betKey)
    case Some(i) =>
      SumAmountsSplitAt(bets, i);
      SumAmountsSplitAt(merged, i);
      assert merged[..i] == bets[..i] && merged[i + 1..] == bets[i + 1..];
      assert ValidBet(merged[i]);
    case None =>
      SumAmountsAppend(bets, [b]);
  }

  /** The entries left after `RemoveAt` are the others, in order. */
  lemma RemoveAtElements(bets: seq<Bet>, i: nat)
    requires i < |bets|
    ensures |RemoveAt(bets, i)| == |bets| - 1
    ensures forall j :: 0 <= j < |bets| - 1 ==> RemoveAt(bets, i)[j] == bets[if j < i then j else j + 1]
  {
  }

  /** Removing an entry lowers the user's open total by exactly its amount. */
  lemma RemoveAtTotal(bets: seq<Bet>, i: nat)
    requires i < |bets|
    ensures SumAmounts(RemoveAt(bets, i)) == SumAmounts(bets) - bets[i].betAmount
  {
    SumAmountsSplitAt(bets, i);
    SumAmountsAppend(bets[..i], bets[i + 1..]);
  }

  /** What is left of a well-formed entry is well formed (or empty) and no longer holds the removed key. */
  lemma RemoveAtWellFormed(bets: seq<Bet>, i: nat)
    requires i < |bets|
    requires WellFormed(bets)
    ensures RemoveAt(bets, i) == [] || WellFormed(RemoveAt(bets, i))
    ensures forall b :: b in RemoveAt(bets, i) ==> b.betKey != bets[i].betKey
    ensures FindBet(RemoveAt(bets, i), bets[i].betKey).None?
  {
    var rest := RemoveAt(bets, i);
    RemoveAtElements(bets, i);
    forall j, k | 0 <= j < k < |rest| ensures rest[j].betKey != rest[k].betKey {
      var j', k' := if j < i then j else j + 1, if k < i then k else k + 1;
      assert rest[j] == bets[j'] && rest[k] == bets[k'] && j' < k';
    }
    forall b | b in rest ensures b.betKey != bets[i].betKey {
      var j :| 0 <= j < |rest| && rest[j] == b;
      var j' := if j < i then j else j + 1;
      assert rest[j] == bets[j'] && j' != i;
    }
  }

  /** Every open bet is positive, so a user's open total is positive. */
  lemma {:induction false} OpenTotalPositive(bets: seq<Bet>)
    requires forall i :: 0 <= i < |bets| ==> bets[i].betAmount > 0
    ensures SumAmounts(bets) >= 0
    ensures bets != [] ==> SumAmounts(bets) > 0
    decreases |bets|
  {
    if bets != [] {
      OpenTotalPositive(bets[1..]);
    }
  }

  // ---------------------------------------------------------------------
  // Settlement
  // ---------------------------------------------------------------------

  function ResolveBet(b: Bet, outcome: int): (rb: ResolvedBet)
    requires b.betType in BetTypes
    ensures rb.bet == b
    ensures rb.won == IsBetWinner(b.betType, b.betNumber, outcome)
    ensures rb.multiplier == BetTypes[b.betType]
    ensures rb.payout == if rb.won then b.betAmount * (rb.multiplier + 1) else 0
    ensures rb.profit == if rb.won then rb.payout - b.betAmount else -b.betAmount
  {
    var won := IsBetWinner(b.betType, b.betNumber, outcome);
    var multiplier := BetTypes[b.betType];
    var payout := BetPayout(b.betAmount, multiplier, won);
    ResolvedBet(b, won, multiplier, payout, BetProfit(b.betAmount, payout, won))
  }

  predicate KnownTypes(bets: seq<Bet>) {
    forall i :: 0 <= i < |bets| ==> bets[i].betType in BetTypes
  }

  /** `bets.map(...)`: every bet resolved against the outcome, in order. */
  function ResolveAll(bets: seq<Bet>, outcome: int): (rs: seq<ResolvedBet>)
    requires KnownTypes(bets)
    ensures |rs| == |bets|
  {
    if bets == [] then [] else [ResolveBet(bets[0], outcome)] + ResolveAll(bets[1..], outcome)
  }

  /** `ResolveAll` resolves each bet in place. */
  lemma {:induction false} ResolveAllAt(bets: seq<Bet>, outcome: int, i: nat)
    requires KnownTypes(bets) && i < |bets|
    ensures ResolveAll(bets, outcome)[i] == ResolveBet(bets[i], outcome)
    decreases i
  {
    if i > 0 {
      ResolveAllAt(bets[1..], outcome, i - 1);
    }
  }

  function SumPayouts(rs: seq<ResolvedBet>): int {
    if rs == [] then 0 else rs[0].payout + SumPayouts(rs[1..])
  }

  function SumProfits(rs: seq<ResolvedBet>): int {
    if rs == [] then 0 else rs[0].profit + SumProfits(rs[1..])
  }

  /** `resolvedBets.some(b => b.won)`. */
  function AnyWon(rs: seq<ResolvedBet>): (won: bool)
    ensures won <==> exists i :: 0 <= i < |rs| && rs[i].won
  {
    if rs == [] then false
    else
      assert forall i :: 1 <= i < |rs| ==> rs[i] == rs[1..][i - 1];
      rs[0].won || AnyWon(rs[1..])
  }

  /** A user's settlement of a round, given the balance the credit is applied to. */
  function SettleUser(bets: seq<Bet>, outcome: int, balanceBefore: int): Settlement
    requires KnownTypes(bets)
  {
    var rs := ResolveAll(bets, outcome);
    var totalBet := SumAmounts(bets);
    var totalPayout := SumPayouts(rs);
    var credit := if totalPayout > 0 then totalPayout else 0;
    Settlement(rs, totalBet, totalPayout, totalPayout - totalBet, AnyWon(rs), balanceBefore + credit)
  }

  /**
   * The totals of a settlement agree with its bets: the total profit is the
   * sum of the per-bet profits, the payout is never negative, a user who won
   * nothing is paid nothing and loses the whole stake, and the balance rises
   * by exactly the payout.
   */
  lemma {:induction false} SettlementTotals(bets: seq<Bet>, outcome: int, balanceBefore: int)
    requires KnownTypes(bets)
    requires forall i :: 0 <= i < |bets| ==> bets[i].betAmount > 0
    ensures var s := SettleUser(bets, outcome, balanceBefore);
      && s.totalProfit == SumProfits(s.bets)
      && s.totalPayout >= 0
      && (!s.won ==> s.totalPayout == 0 && s.totalProfit == -s.totalBet)
      && (s.won ==> s.totalPayout > 0)
      && s.balance == balanceBefore + s.totalPayout
    decreases |bets|
  {
    if bets != [] {
      SettlementTotals(bets[1..], outcome, balanceBefore);
      var rs := ResolveAll(bets, outcome);
      assert rs[1..] == ResolveAll(bets[1..], outcome);
      assert AnyWon(rs) == (rs[0].won || AnyWon(rs[1..]));
    }
  }

  /** The balance-store record of a user after the settlement credit and history entry. */
  function SettledRecord(before: UserBalance.UserRecord, s: Settlement, outcome: int, now: int): UserBalance.UserRecord {
    UserBalance.UserRecord(
      s.balance,
      UserBalance.PrependCapped(
        UserBalance.HistoryEntry(
          UserBalance.RouletteRound(s.totalBet, outcome, ColorName(GetColor(outcome)), s.won,
                                    s.totalPayout, s.totalProfit, s.balance), now),
        before.history))
  }

  /** `after` is `before` once the user's bets are settled into `s`. */
  ghost predicate SettledUser(bets: seq<Bet>, s: Settlement, before: UserBalance.UserRecord,
                              after: UserBalance.UserRecord, outcome: int, now: int)
  {
    && KnownTypes(bets)
    && s == SettleUser(bets, outcome, before.balance)
    && after == SettledRecord(before, s, outcome, now)
  }

  /** `history.unshift(item)` followed by one `pop()` when that makes it longer than 20. */
  function PushHistory(item: HistoryItem, history: seq<HistoryItem>): (r: seq<HistoryItem>)
    requires |history| <= HistoryLimit
    ensures |r| == if |history| < HistoryLimit then |history| + 1 else HistoryLimit
    ensures r[0] == item
    ensures r[1..] <= history
  {
    var h := [item] + history;
    if |h| > HistoryLimit then h[..|h| - 1] else h
  }

  /** A non-empty set of round ids has a member. */
  lemma NonEmptyHasMember(keys: set<int>)
    requires keys != {}
    ensures exists k :: k in keys
  {
    if forall k :: k !in keys {
      assert false;
    }
  }

  /** The housekeeping loop: deletes every round key below `floor`. */
  method DropRoundsBelow<V>(m: map<int, V>, floor: int) returns (r: map<int, V>)
    ensures forall k :: k in r <==> k in m && k >= floor
    ensures forall k :: k in r ==> r[k] == m[k]
  {
    r := m;
    var keys := m.Keys;
    while keys != {}
      invariant keys <= m.Keys
      invariant r.Keys <= m.Keys
      invariant forall k :: k in r ==> r[k] == m[k]
      invariant forall k :: k in m && k !in keys ==> (k in r <==> k >= floor)
      invariant forall k :: k in keys ==> k in r
      decreases keys
    {
      NonEmptyHasMember(keys);
      var k :| k in keys;
      if k < floor {
        r := r - {k};
      }
      keys := keys - {k};
    }
  }

  /** A round's ledger with the user's entry replaced, or dropped when `bets` is empty. */
  function ReplaceEntry(ledgers: map<int, map<string, seq<Bet>>>, rid: int, userId: string, bets: seq<Bet>)
    : map<int, map<string, seq<Bet>>>
    requires rid in ledgers
  {
    var round := ledgers[rid];
    ledgers[rid := if bets == [] then round - {userId} else round[userId := bets]]
  }

  /** Every user's entry in every round's ledger is well formed. */
  ghost predicate LedgersWellFormed(ledgers: map<int, map<string, seq<Bet>>>) {
    forall r, u :: r in ledgers && u in ledgers[r] ==> WellFormed(ledgers[r][u])
  }

  /** Replacing an entry by a well-formed one (or dropping it) keeps the ledgers well formed and their rounds. */
  lemma ReplaceEntryWellFormed(ledgers: map<int, map<string, seq<Bet>>>, rid: int, userId: string, bets: seq<Bet>)
    requires rid in ledgers && LedgersWellFormed(ledgers)
    requires bets == [] || WellFormed(bets)
    ensures LedgersWellFormed(ReplaceEntry(ledgers, rid, userId, bets))
    ensures ReplaceEntry(ledgers, rid, userId, bets).Keys == ledgers.Keys
  {
  }

  /** What a user has staked in a round. */
  function OpenIn(ledgers: map<int, map<string, seq<Bet>>>, rid: int, userId: string): int {
    if rid in ledgers && userId in ledgers[rid] then SumAmounts(ledgers[rid][userId]) else 0
  }

  /** Replacing one user's entry changes that user's open total only. */
  lemma ReplaceEntryOpen(ledgers: map<int, map<string, seq<Bet>>>, rid: int, userId: string, bets: seq<Bet>, u: string)
    requires rid in ledgers
    ensures OpenIn(ReplaceEntry(ledgers, rid, userId, bets), rid, u)
         == if u == userId then SumAmounts(bets) else OpenIn(ledgers, rid, u)
  {
  }

  /**
   * Settles one user of the closing round: credits the payout when it is
   * positive, then records the round in the user's history with the final
   * balance.
   */
  method SettleUserBets(ledger: UserBalance.UserBalanceStore, userId: string, bets: seq<Bet>, outcome: int, now: int)
    returns (s: Settlement)
    requires KnownTypes(bets)
    modifies ledger
    ensures SettledUser(bets, s, old(ledger.View(userId)), ledger.View(userId), outcome, now)
    ensures forall u :: u != userId ==> ledger.View(u) == old(ledger.View(u))
  {
    s := SettleUser(bets, outcome, 0);
    if s.totalPayout > 0 {
      var _ := ledger.AddWinnings(userId, s.totalPayout);
    }
    var finalBalance := ledger.GetBalance(userId);
    s := s.(balance := finalBalance);
    ledger.AddHistoryEntry(userId,
      UserBalance.RouletteRound(s.totalBet, outcome, ColorName(GetColor(outcome)), s.won,
                                s.totalPayout, s.totalProfit, finalBalance), now);
  }

  /** The settlement loop: every user of the round settled once, nobody else touched. */
  method SettleAll(ledger: UserBalance.UserBalanceStore, roundBets: map<string, seq<Bet>>, outcome: int, now: int)
    returns (results: map<string, Settlement>)
    requires forall u :: u in roundBets ==> KnownTypes(roundBets[u])
    modifies ledger
    ensures results.Keys == roundBets.Keys
    ensures forall u :: u in roundBets ==>
      SettledUser(roundBets[u], results[u], old(ledger.View(u)), ledger.View(u), outcome, now)
    ensures forall u :: u !in roundBets ==> ledger.View(u) == old(ledger.View(u))
  {
    results := map[];
    var todo := roundBets.Keys;
    while todo != {}
      invariant todo <= roundBets.Keys
      invariant results.Keys == roundBets.Keys - todo
      invariant forall u :: u in results ==>
        SettledUser(roundBets[u], results[u], old(ledger.View(u)), ledger.View(u), outcome, now)
      invariant forall u :: u !in results ==> ledger.View(u) == old(ledger.View(u))
      decreases todo
    {
      var userId :| userId in todo;
      var settlement := SettleUserBets(ledger, userId, roundBets[userId], outcome, now);
      results := results[userId := settlement];
      todo := todo - {userId};
    }
  }

  // ---------------------------------------------------------------------
  // The manager's invariant, on values
  // ---------------------------------------------------------------------

  /** The round's clock, outcome and settlement bookkeeping agree with its phase. */
  ghost predicate RoundInv(roundId: int, phase: Phase, phaseEndTime: int, phaseStart: int,
                           result: Option<int>, resultColor: Option<Color>, settled: seq<int>)
  {
    && roundId >= 0
    && (phase == Waiting <==> roundId == 0)
    && (phase == Waiting ==> phaseEndTime == 0 && phaseStart == 0)
    && phaseEndTime == phaseStart + PhaseDurationMs(phase)
    && (result.Some? <==> phase == Spinning || phase == Result)
    && (result.None? ==> resultColor.None?)
    && (result.Some? ==> IsPocket(result.value) && resultColor == Some(GetColor(result.value)))
    && (forall i, j :: 0 <= i < j < |settled| ==> settled[i] < settled[j])
    && (forall i :: 0 <= i < |settled| ==> 1 <= settled[i] <= roundId)
    && (forall r :: 1 <= r < roundId ==> r in settled)
    && ((phase == Spinning || phase == Result) <==> roundId in settled)
  }

  /**
   * Every round before the current one has been settled, and the current one
   * exactly when its outcome is fixed; no other round has been.
   */
  lemma SettledRoundsExact(roundId: int, phase: Phase, phaseEndTime: int, phaseStart: int,
                           result: Option<int>, resultColor: Option<Color>, settled: seq<int>)
    requires RoundInv(roundId, phase, phaseEndTime, phaseStart, result, resultColor, settled)
    ensures forall r :: r in settled <==> 1 <= r < roundId || (r == roundId && (phase == Spinning || phase == Result))
  {
    forall r | r in settled ensures 1 <= r <= roundId {
      var i :| 0 <= i < |settled| && settled[i] == r;
    }
  }

  /** Ledgers and results are kept only for rounds that have been opened, and every entry is well formed. */
  ghost predicate StoreInv(roundId: int, phase: Phase, pendingBets: map<int, map<string, seq<Bet>>>,
                           roundResults: map<int, map<string, Settlement>>)
  {
    && (phase != Waiting ==> roundId in pendingBets)
    && (forall r :: r in pendingBets ==> 1 <= r <= roundId)
    && (forall r :: r in roundResults ==> 1 <= r <= roundId)
    && LedgersWellFormed(pendingBets)
  }

  /**
   * Opening the next round for bets, from the waiting phase or once a round's
   * result is shown, keeps the round invariant: the round it leaves behind
   * has been settled.
   */
  lemma OpenRoundInv(roundId: int, phase: Phase, phaseEndTime: int, phaseStart: int,
                     result: Option<int>, resultColor: Option<Color>, settled: seq<int>, now: int)
    requires RoundInv(roundId, phase, phaseEndTime, phaseStart, result, resultColor, settled)
    requires phase == Waiting || phase == Result
    ensures RoundInv(roundId + 1, Betting, now + BettingDurationMs, now, None, None, settled)
  {
    SettledRoundsExact(roundId, phase, phaseEndTime, phaseStart, result, resultColor, settled);
    assert roundId + 1 !in settled;
  }

  /** Opening the next round adds its empty ledger and keeps the stores valid. */
  lemma OpenRoundStore(roundId: int, phase: Phase, pendingBets: map<int, map<string, seq<Bet>>>,
                       roundResults: map<int, map<string, Settlement>>)
    requires StoreInv(roundId, phase, pendingBets, roundResults)
    requires roundId >= 0
    ensures StoreInv(roundId + 1, Betting, pendingBets[roundId + 1 := map[]], roundResults)
  {
  }

  /** Closing betting with a pocket settles the round once: it joins the settled rounds. */
  lemma SpinRoundInv(roundId: int, phaseEndTime: int, phaseStart: int,
                     settled: seq<int>, outcome: int, now: int)
    requires RoundInv(roundId, Betting, phaseEndTime, phaseStart, None, None, settled)
    requires IsPocket(outcome)
    ensures roundId !in settled
    ensures RoundInv(roundId, Spinning, now + SpinningDurationMs, now, Some(outcome), Some(GetColor(outcome)),
                     settled + [roundId])
  {
    var s := settled + [roundId];
    forall i, j | 0 <= i < j < |s| ensures s[i] < s[j] {
      if j == |settled| {
        assert settled[i] <= roundId && settled[i] != roundId;
      }
    }
  }

  /** Settling the current round adds at most that round's results. */
  lemma SpinRoundStore(roundId: int, pendingBets: map<int, map<string, seq<Bet>>>,
                       roundResults: map<int, map<string, Settlement>>,
                       results: map<int, map<string, Settlement>>)
    requires StoreInv(roundId, Betting, pendingBets, roundResults)
    requires forall r :: r in results ==> 1 <= r <= roundId
    ensures StoreInv(roundId, Spinning, pendingBets, results)
  {
  }

  /** Moving from spinning to showing the result keeps the round invariant. */
  lemma ResultRoundInv(roundId: int, phaseEndTime: int, phaseStart: int,
                       result: Option<int>, resultColor: Option<Color>, settled: seq<int>, now: int)
    requires RoundInv(roundId, Spinning, phaseEndTime, phaseStart, result, resultColor, settled)
    ensures RoundInv(roundId, Result, now + ResultDurationMs, now, result, resultColor, settled)
  {
  }

  /** Dropping old rounds, while keeping the current one, keeps the stores valid. */
  lemma ResultRoundStore(roundId: int, pendingBets: map<int, map<string, seq<Bet>>>,
                         roundResults: map<int, map<string, Settlement>>,
                         kept: map<int, map<string, seq<Bet>>>, keptResults: map<int, map<string, Settlement>>)
    requires StoreInv(roundId, Spinning, pendingBets, roundResults)
    requires forall r :: r in kept <==> r in pendingBets && r >= roundId - 1
    requires forall r :: r in kept ==> kept[r] == pendingBets[r]
    requires forall r :: r in keptResults ==> r in roundResults
    ensures StoreInv(roundId, Result, kept, keptResults)
  {
  }

  // ---------------------------------------------------------------------
  // The round manager
  // ---------------------------------------------------------------------

  class RouletteRoundManager {
    var roundId: int
    var phase: Phase
    /** When the current phase ends, in ms. */
    var phaseEndTime: int
    var result: Option<int>
    var resultColor: Option<Color>
    /** Most recent first. */
    var history: seq<HistoryItem>
    /** roundId -> userId -> open bets. */
    var pendingBets: map<int, map<string, seq<Bet>>>
    /** roundId -> userId -> settlement. */
    var roundResults: map<int, map<string, Settlement>>
    /** The balance store the manager debits and credits. */
    const ledger: UserBalance.UserBalanceStore

    /** When the current phase began. */
    ghost var phaseStart: int
    /** The rounds settled so far, in order. */
    ghost var settledRounds: seq<int>

    /** The round's clock, outcome, settlement bookkeeping and stores agree with its phase. */
    ghost predicate Valid()
      reads this
    {
      && RoundInv(roundId, phase, phaseEndTime, phaseStart, result, resultColor, settledRounds)
      && StoreInv(roundId, phase, pendingBets, roundResults)
      && |history| <= HistoryLimit
    }

    constructor (ledger: UserBalance.UserBalanceStore)
      ensures Valid()
      ensures this.ledger == ledger
      ensures roundId == 0 && phase == Waiting && history == []
      ensures pendingBets == map[] && roundResults == map[] && settledRounds == []
    {
      this.ledger := ledger;
      roundId := 0;
      phase := Waiting;
      phaseEndTime := 0;
      result := None;
      resultColor := None;
      history := [];
      pendingBets := map[];
      roundResults := map[];
      phaseStart := 0;
      settledRounds := [];
    }

    /** The user's open bets in a round (`roundId || this.roundId`: 0 or absent means the current one). */
    function GetUserBets(userId: string, rid: Option<int>): (bets: seq<Bet>)
      reads this
      ensures var r := if rid.None? || rid.value == 0 then roundId else rid.value;
        bets == if r in pendingBets && userId in pendingBets[r] then pendingBets[r][userId] else []
    {
      var r := if rid.None? || rid.value == 0 then roundId else rid.value;
      if r in pendingBets && userId in pendingBets[r] then pendingBets[r][userId] else []
    }

    /** What the user has staked in the current round. */
    function OpenTotal(userId: string): int
      reads this
    {
      OpenIn(pendingBets, roundId, userId)
    }

    /** The user's settlement of a round, or None. */
    function GetUserRoundResult(userId: string, rid: Option<int>): (s: Option<Settlement>)
      reads this
      ensures var r := if rid.None? || rid.value == 0 then roundId else rid.value;
        && (s.Some? <==> r in roundResults && userId in roundResults[r])
        && (s.Some? ==> s.value == roundResults[r][userId])
    {
      var r := if rid.None? || rid.value == 0 then roundId else rid.value;
      if r in roundResults && userId in roundResults[r] then Some(roundResults[r][userId]) else None
    }

    /** The public snapshot at time `now`. */
    function GetState(now: int): (s: State)
      requires Valid()
      reads this
      ensures s.phase == phase && s.roundId == roundId && s.history == history
      ensures s.phaseDurationMs == PhaseDurationMs(phase)
      ensures s.phaseRemainingMs == if now < phaseEndTime then phaseEndTime - now else 0
      ensures s.phaseRemainingMs >= 0
      ensures s.result == result && s.resultColor == resultColor
      ensures now >= phaseStart ==> s.phaseRemainingMs <= s.phaseDurationMs
      ensures s.phase == Betting || s.phase == Waiting ==> s.result.None? && s.resultColor.None?
      ensures s.phase == Spinning || s.phase == Result ==>
        s.result.Some? && IsPocket(s.result.value) && s.resultColor == Some(GetColor(s.result.value))
    {
      State(phase, roundId,
            if phaseEndTime - now > 0 then phaseEndTime - now else 0,
            PhaseDurationMs(phase),
            if phase != Betting then result else None,
            if phase != Betting then resultColor else None,
            history)
    }

    /** The ledger now holds `rec` for `userId`, and every other user's record as before. */
    twostate predicate LedgerSet(userId: string, rec: UserBalance.UserRecord)
      reads ledger
    {
      && ledger.View(userId) == rec
      && forall u :: u != userId ==> ledger.View(u) == old(ledger.View(u))
    }

    /**
     * Takes a bet for the current round. Refuses it, changing nothing, when
     * betting is closed, the round has changed, the bet is invalid or the
     * balance does not cover it; otherwise debits it and merges it into the
     * user's entry. Either way a user's balance plus open total is unchanged.
     */
    method PlaceBet(userId: string, rid: int, betType: string, betNumber: Option<int>, betAmount: int)
      returns (r: Response)
      requires Valid()
      modifies this`pendingBets, ledger
      ensures Valid()
      ensures old(phase) != Betting ==>
        r == Failure("Betting is closed") && pendingBets == old(pendingBets) && ledger.users == old(ledger.users)
      ensures old(phase) == Betting && rid != roundId ==>
        r == Failure("Round has changed") && pendingBets == old(pendingBets) && ledger.users == old(ledger.users)
      ensures old(phase) == Betting && rid == roundId && CheckBet(betType, betNumber, betAmount).Rejected? ==>
        && r == Failure(CheckBet(betType, betNumber, betAmount).error)
        && pendingBets == old(pendingBets) && ledger.users == old(ledger.users)
      ensures old(phase) == Betting && rid == roundId && CheckBet(betType, betNumber, betAmount).Accepted? ==>
        var before := old(ledger.View(userId));
        if betAmount > before.balance then
          && r == Failure("Insufficient balance")
          && pendingBets == old(pendingBets)
          && LedgerSet(userId, before)
        else
          && r == Success(Some(roundId), before.balance - betAmount)
          && pendingBets == old(ReplaceEntry(pendingBets, roundId, userId, MergeBet(GetUserBets(userId, None),
                                                               CheckBet(betType, betNumber, betAmount).bet)))
          && LedgerSet(userId, before.(balance := before.balance - betAmount))
      ensures forall u :: ledger.BalanceOf(u) + OpenTotal(u) == old(ledger.BalanceOf(u) + OpenTotal(u))
    {
      if phase != Betting {
        return Failure("Betting is closed");
      }
      if rid != roundId {
        return Failure("Round has changed");
      }
      var checked := CheckBet(betType, betNumber, betAmount);
      if checked.Rejected? {
        return Failure(checked.error);
      }
      CheckBetValid(betType, betNumber, betAmount, checked.bet);
      r := AcceptBet(userId, checked.bet);
    }

    /** The rest of `placeBet` once the bet is valid: debit the stake, then merge the bet into the user's entry. */
    method AcceptBet(userId: string, bet: Bet) returns (r: Response)
      requires Valid() && phase == Betting && ValidBet(bet)
      modifies this`pendingBets, ledger
      ensures Valid()
      ensures var before := old(ledger.View(userId));
        if bet.betAmount > before.balance then
          && r == Failure("Insufficient balance")
          && pendingBets == old(pendingBets)
          && LedgerSet(userId, before)
        else
          && r == Success(Some(roundId), before.balance - bet.betAmount)
          && pendingBets == old(ReplaceEntry(pendingBets, roundId, userId, MergeBet(GetUserBets(userId, None), bet)))
          && LedgerSet(userId, before.(balance := before.balance - bet.betAmount))
      ensures forall u :: ledger.BalanceOf(u) + OpenTotal(u) == old(ledger.BalanceOf(u) + OpenTotal(u))
    {
      var deducted := ledger.DeductBet(userId, bet.betAmount);
      if deducted.Err? {
        return Failure(deducted.error);
      }
      var userBets := GetUserBets(userId, None);
      MergeBetTotal(userBets, bet);
      SetEntry(userId, MergeBet(userBets, bet));
      var balance := ledger.GetBalance(userId);
      r := Success(Some(roundId), balance);
    }

    /**
     * Credits a refund and reads the balance back. The source reads the
     * balance after updating the ledger of bets; the two do not share state.
     */
    method Refund(userId: string, amount: int) returns (balance: int)
      modifies ledger
      ensures var before := old(ledger.View(userId));
        && balance == before.balance + amount
        && LedgerSet(userId, before.(balance := balance))
    {
      var _ := ledger.AddWinnings(userId, amount);
      balance := ledger.GetBalance(userId);
    }

    /** Stores `bets` as the user's entry in the current round, or drops the entry when `bets` is empty. */
    method SetEntry(userId: string, bets: seq<Bet>)
      requires Valid() && phase != Waiting
      requires bets == [] || WellFormed(bets)
      modifies this`pendingBets
      ensures Valid()
      ensures pendingBets == old(ReplaceEntry(pendingBets, roundId, userId, bets))
      ensures OpenTotal(userId) == SumAmounts(bets)
      ensures forall u :: u != userId ==> OpenTotal(u) == old(OpenTotal(u))
    {
      ReplaceEntryWellFormed(pendingBets, roundId, userId, bets);
      ReplaceEntryOpen(pendingBets, roundId, userId, bets, userId);
      forall u | u != userId ensures OpenIn(ReplaceEntry(pendingBets, roundId, userId, bets), roundId, u) == OpenTotal(u) {
        ReplaceEntryOpen(pendingBets, roundId, userId, bets, u);
      }
      pendingBets := ReplaceEntry(pendingBets, roundId, userId, bets);
    }

    /**
     * Withdraws one open bet by key and refunds exactly its amount; the
     * user's entry goes once it is empty.
     */
    method RemoveBet(userId: string, rid: int, betKey: string) returns (r: Response)
      requires Valid()
      modifies this`pendingBets, ledger
      ensures Valid()
      ensures old(phase) != Betting ==>
        r == Failure("Betting is closed") && pendingBets == old(pendingBets) && ledger.users == old(ledger.users)
      ensures old(phase) == Betting && rid != roundId ==>
        r == Failure("Round has changed") && pendingBets == old(pendingBets) && ledger.users == old(ledger.users)
      ensures old(phase) == Betting && rid == roundId && userId !in old(pendingBets[roundId]) ==>
        r == Failure("No bets to remove") && pendingBets == old(pendingBets) && ledger.users == old(ledger.users)
      ensures old(phase) == Betting && rid == roundId && userId in old(pendingBets[roundId]) ==>
        var bets := old(pendingBets[roundId][userId]);
        var before := old(ledger.View(userId));
        match FindBet(bets, betKey)
        case None =>
          r == Failure("Bet not found") && pendingBets == old(pendingBets) && ledger.users == old(ledger.users)
        case Some(i) =>
          && r == Success(Some(roundId), before.balance + bets[i].betAmount)
          && pendingBets == old(ReplaceEntry(pendingBets, roundId, userId, RemoveAt(bets, i)))
          && LedgerSet(userId, before.(balance := before.balance + bets[i].betAmount))
          && FindBet(GetUserBets(userId, None), betKey).None?
      ensures forall u :: ledger.BalanceOf(u) + OpenTotal(u) == old(ledger.BalanceOf(u) + OpenTotal(u))
    {
      if phase != Betting {
        return Failure("Betting is closed");
      }
      if rid != roundId {
        return Failure("Round has changed");
      }
      var roundBets := pendingBets[roundId];
      if userId !in roundBets {
        return Failure("No bets to remove");
      }
      var userBets := roundBets[userId];
      var idx := FindBet(userBets, betKey);
      if idx.None? {
        return Failure("Bet not found");
      }
      r := WithdrawBet(userId, idx.value);
    }

    /** The rest of `removeBet` once the bet is found: take it out of the entry and refund it. */
    method WithdrawBet(userId: string, i: nat) returns (r: Response)
      requires Valid() && phase == Betting
      requires userId in pendingBets[roundId] && i < |pendingBets[roundId][userId]|
      modifies this`pendingBets, ledger
      ensures Valid()
      ensures var bets := old(pendingBets[roundId][userId]);
        var before := old(ledger.View(userId));
        && r == Success(Some(roundId), before.balance + bets[i].betAmount)
        && pendingBets == old(ReplaceEntry(pendingBets, roundId, userId, RemoveAt(bets, i)))
        && LedgerSet(userId, before.(balance := before.balance + bets[i].betAmount))
        && FindBet(GetUserBets(userId, None), bets[i].betKey).None?
      ensures forall u :: ledger.BalanceOf(u) + OpenTotal(u) == old(ledger.BalanceOf(u) + OpenTotal(u))
    {
      var userBets := pendingBets[roundId][userId];
      var removed := userBets[i];
      RemoveAtTotal(userBets, i);
      RemoveAtWellFormed(userBets, i);
      userBets := RemoveAt(userBets, i);
      var balance := Refund(userId, removed.betAmount);
      SetEntry(userId, userBets);
      r := Success(Some(roundId), balance);
    }

    /**
     * Withdraws all of the user's open bets with one refund of their total.
     * With nothing open it succeeds and changes nothing.
     */
    method ClearBets(userId: string, rid: int) returns (r: Response)
      requires Valid()
      modifies this`pendingBets, ledger
      ensures Valid()
      ensures old(phase) != Betting ==>
        r == Failure("Betting is closed") && pendingBets == old(pendingBets) && ledger.users == old(ledger.users)
      ensures old(phase) == Betting && rid != roundId ==>
        r == Failure("Round has changed") && pendingBets == old(pendingBets) && ledger.users == old(ledger.users)
      ensures old(phase) == Betting && rid == roundId ==>
        var before := old(ledger.View(userId));
        && GetUserBets(userId, None) == []
        && (userId !in old(pendingBets[roundId]) ==>
             && r == Success(None, before.balance)
             && pendingBets == old(pendingBets)
             && LedgerSet(userId, before))
        && (userId in old(pendingBets[roundId]) ==>
             && r == Success(Some(roundId), before.balance + old(OpenTotal(userId)))
             && pendingBets == old(ReplaceEntry(pendingBets, roundId, userId, []))
             && LedgerSet(userId, before.(balance := before.balance + old(OpenTotal(userId)))))
      ensures forall u :: ledger.BalanceOf(u) + OpenTotal(u) == old(ledger.BalanceOf(u) + OpenTotal(u))
    {
      if phase != Betting {
        return Failure("Betting is closed");
      }
      if rid != roundId {
        return Failure("Round has changed");
      }
      var roundBets := pendingBets[roundId];
      if userId !in roundBets {
        var balance := ledger.GetBalance(userId);
        return Success(None, balance);
      }
      var totalRefund := SumAmounts(roundBets[userId]);
      var balance := Refund(userId, totalRefund);
      SetEntry(userId, []);
      r := Success(Some(roundId), balance);
    }

    /** `start`: opens round 1 on a manager that has not started yet. */
    method Start(now: int)
      requires Valid() && phase == Waiting
      modifies this`roundId, this`phase, this`result, this`resultColor, this`phaseEndTime, this`phaseStart,
               this`pendingBets
      ensures Valid() && phase == Betting && roundId == 1
      ensures pendingBets == old(pendingBets)[roundId := map[]]
    {
      StartBettingPhase(now);
    }

    /** Opens the next round for bets with an empty ledger. */
    method StartBettingPhase(now: int)
      requires Valid() && (phase == Waiting || phase == Result)
      modifies this`roundId, this`phase, this`result, this`resultColor, this`phaseEndTime, this`phaseStart,
               this`pendingBets
      ensures Valid()
      ensures roundId == old(roundId) + 1 && phase == Betting
      ensures result.None? && resultColor.None?
      ensures phaseEndTime == now + BettingDurationMs
      ensures pendingBets == old(pendingBets)[roundId := map[]]
      ensures roundResults == old(roundResults) && history == old(history)
      ensures settledRounds == old(settledRounds)
      ensures GetState(now).result.None? && GetState(now).phaseRemainingMs == BettingDurationMs
    {
      OpenRoundInv(roundId, phase, phaseEndTime, phaseStart, result, resultColor, settledRounds, now);
      OpenRoundStore(roundId, phase, pendingBets, roundResults);
      roundId := roundId + 1;
      phase := Betting;
      result := None;
      resultColor := None;
      phaseEndTime := now + BettingDurationMs;
      phaseStart := now;
      pendingBets := pendingBets[roundId := map[]];
    }

    /**
     * Closes betting: fixes the outcome and settles every user's bets of
     * the closing round, each user credited once with the round's payout.
     */
    method StartSpinningPhase(outcome: int, now: int)
      requires Valid() && phase == Betting
      requires IsPocket(outcome)
      modifies this`phase, this`phaseEndTime, this`phaseStart, this`result, this`resultColor, this`settledRounds,
               this`roundResults, ledger
      ensures Valid()
      ensures phase == Spinning && roundId == old(roundId)
      ensures result == Some(outcome) && resultColor == Some(GetColor(outcome))
      ensures phaseEndTime == now + SpinningDurationMs
      ensures pendingBets == old(pendingBets) && history == old(history)
      ensures roundId !in old(settledRounds) && settledRounds == old(settledRounds) + [roundId]
      ensures var bets := old(pendingBets[roundId]);
        && (bets == map[] ==> roundResults == old(roundResults))
        && (bets != map[] ==>
             && roundId in roundResults
             && roundResults == old(roundResults)[roundId := roundResults[roundId]]
             && (forall u :: u in roundResults[roundId] <==> u in bets)
             && (forall u :: u in bets ==>
                  SettledUser(bets[u], roundResults[roundId][u], old(ledger.View(u)), ledger.View(u), outcome, now)))
        && (forall u :: u !in bets ==> ledger.View(u) == old(ledger.View(u)))
    {
      SpinRoundInv(roundId, phaseEndTime, phaseStart, settledRounds, outcome, now);
      phase := Spinning;
      phaseEndTime := now + SpinningDurationMs;
      phaseStart := now;
      result := Some(outcome);
      resultColor := Some(GetColor(outcome));
      settledRounds := settledRounds + [roundId];
      ghost var before := roundResults;
      SettleBets(outcome, now);
      SpinRoundStore(roundId, pendingBets, before, roundResults);
    }

    /** `_settleBets`: one pass over the closing round's users. */
    method SettleBets(outcome: int, now: int)
      requires roundId >= 1 && roundId in pendingBets
      requires forall u :: u in pendingBets[roundId] ==> KnownTypes(pendingBets[roundId][u])
      requires forall r :: r in roundResults ==> 1 <= r <= roundId
      modifies this`roundResults, ledger
      ensures forall r :: r in roundResults ==> 1 <= r <= roundId
      ensures var bets := pendingBets[roundId];
        && (bets == map[] ==> roundResults == old(roundResults))
        && (bets != map[] ==>
             && roundId in roundResults
             && roundResults == old(roundResults)[roundId := roundResults[roundId]]
             && (forall u :: u in roundResults[roundId] <==> u in bets)
             && (forall u :: u in bets ==>
                  SettledUser(bets[u], roundResults[roundId][u], old(ledger.View(u)), ledger.View(u), outcome, now)))
        && (forall u :: u !in bets ==> ledger.View(u) == old(ledger.View(u)))
    {
      var roundBets := pendingBets[roundId];
      if roundBets == map[] {
        return;
      }
      var results := SettleAll(ledger, roundBets, outcome, now);
      roundResults := roundResults[roundId := results];
    }

    /**
     * Shows the outcome: records it at the front of the history (at most 20
     * entries) and keeps ledgers and results of the last two rounds only.
     */
    method StartResultPhase(now: int)
      requires Valid() && phase == Spinning
      modifies this`phase, this`phaseEndTime, this`phaseStart, this`history, this`pendingBets, this`roundResults
      ensures Valid()
      ensures phase == Result && roundId == old(roundId) && result == old(result)
      ensures phaseEndTime == now + ResultDurationMs
      ensures history == PushHistory(HistoryItem(old(result).value, old(resultColor).value), old(history))
      ensures forall r :: r in pendingBets <==> r in old(pendingBets) && r >= roundId - 1
      ensures forall r :: r in pendingBets ==> pendingBets[r] == old(pendingBets[r])
      ensures forall r :: r in roundResults <==> r in old(roundResults) && r >= roundId - 1
      ensures forall r :: r in roundResults ==> roundResults[r] == old(roundResults[r])
      ensures forall r :: r in pendingBets ==> r == roundId || r == roundId - 1
      ensures settledRounds == old(settledRounds)
    {
      ResultRoundInv(roundId, phaseEndTime, phaseStart, result, resultColor, settledRounds, now);
      phase := Result;
      phaseEndTime := now + ResultDurationMs;
      phaseStart := now;
      history := PushHistory(HistoryItem(result.value, resultColor.value), history);
      ghost var before := pendingBets;
      ghost var beforeResults := roundResults;
      pendingBets := DropRoundsBelow(pendingBets, roundId - 1);
      roundResults := DropRoundsBelow(roundResults, roundId - 1);
      ResultRoundStore(roundId, before, beforeResults, pendingBets, roundResults);
    }
  }
}
