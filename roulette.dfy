/**
 * European single-zero roulette: pockets 0..36, the colour, column and dozen
 * of a pocket, the bet-type table with its payout multipliers, the win rule
 * of each bet type, and the resolution of a single bet against a given spin.
 * Amounts are integer cents.
 */
module Roulette {
  import opened Wrappers

  datatype Color = Green | Red | Black

  /** The colour as the source spells it in results and history entries. */
  function ColorName(c: Color): string {
    match c
    case Green => "green"
    case Red => "red"
    case Black => "black"
  }

  const RedNumbers: set<int> := {1, 3, 5, 7, 9, 12, 14, 16, 18, 19, 21, 23, 25, 27, 30, 32, 34, 36}
  const BlackNumbers: set<int> := {2, 4, 6, 8, 10, 11, 13, 15, 17, 20, 22, 24, 26, 28, 29, 31, 33, 35}

  /** A pocket of the wheel. */
  predicate IsPocket(n: int) {
    0 <= n <= 36
  }

  /** The red and black sets split the numbered pockets 1..36 between them. */
  lemma RedBlackPartition()
    ensures RedNumbers !! BlackNumbers
    ensures forall n :: n in RedNumbers || n in BlackNumbers <==> 1 <= n <= 36
  {
  }

  function GetColor(n: int): (c: Color)
    ensures c == Green <==> n == 0
  {
    if n == 0 then Green
    else if n in RedNumbers then Red
    else Black
  }

  /** A numbered pocket is red exactly when it is in the red set, black exactly when it is in the black set. */
  lemma GetColorSets(n: int)
    requires 1 <= n <= 36
    ensures GetColor(n) == Red <==> n in RedNumbers
    ensures GetColor(n) == Black <==> n in BlackNumbers
  {
    RedBlackPartition();
  }

  /** JavaScript's `%`: the remainder takes the sign of the dividend. */
  function JsRem(a: int, b: int): int
    requires b > 0
  {
    if a >= 0 then a % b else -((-a) % b)
  }

  /** Column 1 holds 1, 4, ..., 34; column 2 holds 2, 5, ..., 35; column 3 holds 3, 6, ..., 36. */
  function GetColumn(n: int): (col: int)
    ensures n == 0 ==> col == 0
    ensures n >= 1 ==> 1 <= col <= 3 && (n - col) % 3 == 0
  {
    if n == 0 then 0 else JsRem(n - 1, 3) + 1
  }

  /** Dozen k holds 12k-11 .. 12k. */
  function GetDozen(n: int): (d: int)
    ensures n == 0 ==> d == 0
    ensures 1 <= n <= 36 ==> 1 <= d <= 3 && 12 * (d - 1) < n <= 12 * d
  {
    if n == 0 then 0
    else if n <= 12 then 1
    else if n <= 24 then 2
    else 3
  }

  /** The bet types and their payout multipliers ("35 to 1" is 35). */
  const BetTypes: map<string, nat> := map[
    "straight" := 35,
    "red" := 1, "black" := 1,
    "odd" := 1, "even" := 1,
    "low" := 1, "high" := 1,
    "dozen1" := 2, "dozen2" := 2, "dozen3" := 2,
    "column1" := 2, "column2" := 2, "column3" := 2
  ]

  function IsBetWinner(betType: string, betNumber: Option<int>, result: int): bool {
    if betType == "straight" then betNumber == Some(result)
    else if betType == "red" then result in RedNumbers
    else if betType == "black" then result in BlackNumbers
    else if betType == "odd" then result > 0 && JsRem(result, 2) == 1
    else if betType == "even" then result > 0 && JsRem(result, 2) == 0
    else if betType == "low" then 1 <= result <= 18
    else if betType == "high" then 19 <= result <= 36
    else if betType == "dozen1" then GetDozen(result) == 1
    else if betType == "dozen2" then GetDozen(result) == 2
    else if betType == "dozen3" then GetDozen(result) == 3
    else if betType == "column1" then GetColumn(result) == 1
    else if betType == "column2" then GetColumn(result) == 2
    else if betType == "column3" then GetColumn(result) == 3
    else false
  }

  /** A bet type outside the table fails closed: it never wins. */
  lemma UnknownTypeNeverWins(betType: string, betNumber: Option<int>, result: int)
    requires betType !in BetTypes
    ensures !IsBetWinner(betType, betNumber, result)
  {
  }

  /** On 0 every bet loses except a straight bet on 0. */
  lemma ZeroLosesOutsideBets(betType: string, betNumber: Option<int>)
    ensures IsBetWinner(betType, betNumber, 0) <==> betType == "straight" && betNumber == Some(0)
  {
  }

  /**
   * On a numbered pocket exactly one bet of each complementary family wins:
   * red/black (agreeing with the pocket's colour), odd/even, low/high,
   * the three dozens and the three columns.
   */
  lemma ExactlyOneOfEachFamily(n: int, x: Option<int>)
    requires 1 <= n <= 36
    ensures IsBetWinner("red", x, n) != IsBetWinner("black", x, n)
    ensures IsBetWinner("red", x, n) <==> GetColor(n) == Red
    ensures IsBetWinner("black", x, n) <==> GetColor(n) == Black
    ensures IsBetWinner("odd", x, n) != IsBetWinner("even", x, n)
    ensures IsBetWinner("low", x, n) != IsBetWinner("high", x, n)
    ensures (if IsBetWinner("dozen1", x, n) then 1 else 0) + (if IsBetWinner("dozen2", x, n) then 1 else 0)
          + (if IsBetWinner("dozen3", x, n) then 1 else 0) == 1
    ensures (if IsBetWinner("column1", x, n) then 1 else 0) + (if IsBetWinner("column2", x, n) then 1 else 0)
          + (if IsBetWinner("column3", x, n) then 1 else 0) == 1
  {
    RedBlackPartition();
  }

  /** What a resolved bet returns: its stake times (multiplier + 1) on a win, nothing on a loss. */
  function BetPayout(amount: int, multiplier: nat, won: bool): (payout: int)
    ensures amount >= 0 ==> payout >= 0
    ensures won ==> payout - amount == amount * multiplier
    ensures !won ==> payout == 0
  {
    if won then amount * (multiplier + 1) else 0
  }

  /** The profit of a resolved bet: payout minus stake on a win, minus the stake on a loss. */
  function BetProfit(amount: int, payout: int, won: bool): (profit: int)
    ensures won ==> profit == payout - amount
    ensures !won ==> profit == -amount
  {
    if won then payout - amount else -amount
  }

  /** A resolved stake-and-payout pair: the profit is always the payout minus the stake. */
  lemma ProfitIsPayoutMinusStake(amount: int, multiplier: nat, won: bool)
    ensures BetProfit(amount, BetPayout(amount, multiplier, won), won)
         == BetPayout(amount, multiplier, won) - amount
  {
  }

  datatype PlayResult =
    | PlayError(error: string)
    | PlayOutcome(result: int, resultColor: Color, betType: string, betNumber: Option<int>,
                  won: bool, multiplier: nat, payout: int, profit: int)

  /** Why a bet is refused, checked in the source's order, or None for a legal bet. */
  function PlayRejection(betAmount: int, betType: string, betNumber: Option<int>): Option<string> {
    if betAmount <= 0 then Some("Invalid bet amount")
    else if betType !in BetTypes then Some("Invalid bet type")
    else if betType == "straight" && (betNumber.None? || !IsPocket(betNumber.value)) then
      Some("Straight bet requires a number 0-36")
    else None
  }

  /**
   * A single-player spin: validates the bet, then resolves it against `spin`
   * (drawn uniformly from 0..36 by the caller).
   */
  function Play(betAmount: int, betType: string, betNumber: Option<int>, spin: int): (r: PlayResult)
    requires IsPocket(spin)
    ensures r.PlayError? <==>
      || betAmount <= 0
      || betType !in BetTypes
      || (betType == "straight" && (betNumber.None? || !(0 <= betNumber.value <= 36)))
    ensures r.PlayOutcome? ==>
      && r.result == spin
      && r.resultColor == GetColor(spin)
      && r.won == IsBetWinner(betType, betNumber, spin)
      && r.multiplier == BetTypes[betType]
      && (r.won ==> r.payout == betAmount * (r.multiplier + 1))
      && (!r.won ==> r.payout == 0)
      && r.profit == r.payout - betAmount
      && r.profit >= -betAmount
      && (r.betNumber.Some? <==> betType == "straight")
  {
    match PlayRejection(betAmount, betType, betNumber)
    case Some(e) => PlayError(e)
    case None =>
      var won := IsBetWinner(betType, betNumber, spin);
      var multiplier := BetTypes[betType];
      var payout := BetPayout(betAmount, multiplier, won);
      PlayOutcome(spin, GetColor(spin), betType,
                  if betType == "straight" then betNumber else None,
                  won, multiplier, payout, BetProfit(betAmount, payout, won))
  }

  /**
   * The properties every object literal inherits from `Object.prototype`.
   * Looking one of them up in the bet table yields a function or an object,
   * which is truthy.
   */
  const InheritedNames: set<string> := {
    "constructor", "__proto__", "toString", "toLocaleString", "valueOf",
    "hasOwnProperty", "isPrototypeOf", "propertyIsEnumerable",
    "__defineGetter__", "__defineSetter__", "__lookupGetter__", "__lookupSetter__"
  }

  /** `BET_TYPES[betType]` is truthy: an entry of the table or an inherited property. */
  predicate LookupIsTruthy(betType: string) {
    betType in BetTypes || betType in InheritedNames
  }

  /**
   * `play`'s validation as written: the bet-type test is the truthiness of the
   * table lookup, so inherited property names pass it.
   */
  function PlayRejectionAsWritten(betAmount: int, betType: string, betNumber: Option<int>): (e: Option<string>)
    ensures e.None? <==>
      && betAmount > 0
      && LookupIsTruthy(betType)
      && (betType == "straight" ==> betNumber.Some? && IsPocket(betNumber.value))
  {
    if betAmount <= 0 then Some("Invalid bet amount")
    else if !LookupIsTruthy(betType) then Some("Invalid bet type")
    else if betType == "straight" && (betNumber.None? || !IsPocket(betNumber.value)) then
      Some("Straight bet requires a number 0-36")
    else None
  }

  /**
   * The discrepancy: as written, `play(10, "toString", null)` is accepted and
   * then lost on every pocket (`isBetWinner` falls to its default, the payout
   * is 0 and the profit minus the stake), while `PlayRejection`, which the
   * model uses, refuses it as an invalid bet type.
   */
  lemma InheritedBetTypeAcceptedAsWritten(spin: int)
    requires IsPocket(spin)
    ensures PlayRejectionAsWritten(10, "toString", None).None?
    ensures !IsBetWinner("toString", None, spin)
    ensures BetPayout(10, 0, false) == 0 && BetProfit(10, 0, false) == -10
    ensures PlayRejection(10, "toString", None) == Some("Invalid bet type")
  {
    assert "toString" in InheritedNames;
  }

  /** The corrected check refuses every inherited property name, and accepts exactly what the lookup accepts among the table's own entries. */
  lemma PlayRefusesInheritedNames(betAmount: int, betType: string, betNumber: Option<int>)
    ensures betType in InheritedNames ==> PlayRejection(betAmount, betType, betNumber).Some?
    ensures betType !in InheritedNames ==>
      PlayRejection(betAmount, betType, betNumber) == PlayRejectionAsWritten(betAmount, betType, betNumber)
  {
    assert forall n :: n in InheritedNames ==> n !in BetTypes;
  }

  /** A straight bet on N wins exactly on N and then returns 36 times the stake. */
  lemma StraightPaysThirtySixFold(betAmount: int, n: int, spin: int)
    requires betAmount > 0 && IsPocket(n) && IsPocket(spin)
    ensures Play(betAmount, "straight", Some(n), spin).won <==> spin == n
    ensures spin == n ==> Play(betAmount, "straight", Some(n), spin).payout == 36 * betAmount
  {
  }

  /** A red bet wins exactly on the red pockets and then returns twice the stake. */
  lemma RedPaysDouble(betAmount: int, spin: int)
    requires betAmount > 0 && IsPocket(spin)
    ensures Play(betAmount, "red", None, spin).won <==> spin in RedNumbers
    ensures spin in RedNumbers ==> Play(betAmount, "red", None, spin).payout == 2 * betAmount
  {
  }
}
