/**
 * The single-shot dice game: the player picks a target 1..6 and bets that
 * the roll will be higher or lower than it. Only the integer part is
 * modelled: the number of winning rolls, the validation, the win rule for a
 * given roll, and the list of offered bets. The coefficient is kept as its
 * value in hundredths and the win chance as a whole percentage.
 */
module Dice {
  import opened Wrappers

  const DiceMin := 1
  const DiceMax := 6

  /** Whether `roll` wins a bet on `direction` of `target`. */
  predicate RollWins(direction: string, target: int, roll: int) {
    if direction == "higher" then roll > target else roll < target
  }

  /** How many of the six faces win the bet. */
  function WinningRolls(direction: string, target: int): int {
    (if RollWins(direction, target, 1) then 1 else 0)
    + (if RollWins(direction, target, 2) then 1 else 0)
    + (if RollWins(direction, target, 3) then 1 else 0)
    + (if RollWins(direction, target, 4) then 1 else 0)
    + (if RollWins(direction, target, 5) then 1 else 0)
    + (if RollWins(direction, target, 6) then 1 else 0)
  }

  /**
   * The source's `Math.round((6 / w) * 0.98 * 100)` for a bet with w winning
   * rolls: the coefficient with a 2% house edge, in hundredths.
   */
  function CoefficientHundredths(w: int): int
    requires 0 < w < DiceMax
  {
    if w == 1 then 588
    else if w == 2 then 294
    else if w == 3 then 196
    else if w == 4 then 147
    else 118
  }

  /** The source's `Math.round(w / 6 * 100)`: the win chance as a whole percentage. */
  function WinChancePercent(w: int): int
    requires 0 < w < DiceMax
  {
    if w == 1 then 17
    else if w == 2 then 33
    else if w == 3 then 50
    else if w == 4 then 67
    else 83
  }

  datatype Coefficient = Coefficient(coefficientHundredths: int, winChance: int, winningOutcomes: int)

  /**
   * The winning-outcome count of a bet, or None for an unknown direction and
   * for a bet that cannot lose or cannot win.
   */
  function CalculateCoefficient(target: int, direction: string): (r: Option<Coefficient>)
    ensures direction != "higher" && direction != "lower" ==> r == None
    ensures direction == "higher" && r.Some? ==> r.value.winningOutcomes == DiceMax - target
    ensures direction == "lower" && r.Some? ==> r.value.winningOutcomes == target - DiceMin
    ensures r.Some? ==> 0 < r.value.winningOutcomes < DiceMax
    ensures r.Some? ==> r.value.winningOutcomes == WinningRolls(direction, target)
    ensures r.Some? ==> 100 < r.value.coefficientHundredths
  {
    var w :=
      if direction == "higher" then Some(DiceMax - target)
      else if direction == "lower" then Some(target - DiceMin)
      else None;
    match w
    case None => None
    case Some(w) =>
      if w <= 0 || w >= DiceMax then None
      else Some(Coefficient(CoefficientHundredths(w), WinChancePercent(w), w))
  }

  /**
   * For a target on the die, a known direction is refused exactly at the
   * edges: higher than 6 cannot win, lower than 1 cannot win.
   */
  lemma NoCoefficientOnlyAtEdges(target: int, direction: string)
    requires DiceMin <= target <= DiceMax
    requires direction == "higher" || direction == "lower"
    ensures CalculateCoefficient(target, direction).None? <==>
      (direction == "higher" && target == 6) || (direction == "lower" && target == 1)
  {
  }

  datatype PlayResult =
    | PlayError(error: string)
    | PlayOutcome(roll: int, target: int, direction: string, won: bool,
                  coefficientHundredths: int, winChance: int, payout: int, profit: int)

  /** `Math.round(amount * coefficient * 100) / 100` in cents and hundredths. */
  function WinPayout(betAmount: int, coefficientHundredths: int): int {
    (betAmount * coefficientHundredths + 50) / 100
  }

  /** Validates the bet, then resolves it against `roll` (drawn uniformly from 1..6 by the caller). */
  function Play(betAmount: int, target: int, direction: string, roll: int): (r: PlayResult)
    requires DiceMin <= roll <= DiceMax
    ensures betAmount <= 0 ==> r == PlayError("Invalid bet amount")
    ensures betAmount > 0 && !(DiceMin <= target <= DiceMax) ==> r == PlayError("Target must be between 1 and 6")
    ensures r.PlayOutcome? <==>
      betAmount > 0 && (direction == "higher" || direction == "lower")
      && CalculateCoefficient(target, direction).Some? && DiceMin <= target <= DiceMax
    ensures r.PlayOutcome? ==>
      && r.roll == roll && r.target == target && r.direction == direction
      && (r.won <==> if direction == "higher" then roll > target else roll < target)
      && (!r.won ==> r.payout == 0 && r.profit == -betAmount)
      && (r.won ==> r.profit == r.payout - betAmount)
  {
    if betAmount <= 0 then PlayError("Invalid bet amount")
    else if target < DiceMin || target > DiceMax then PlayError("Target must be between 1 and 6")
    else if direction != "higher" && direction != "lower" then PlayError("Direction must be \"higher\" or \"lower\"")
    else
      match CalculateCoefficient(target, direction)
      case None => PlayError("Invalid bet: no possible winning outcomes")
      case Some(c) =>
        var won := if direction == "higher" then roll > target else roll < target;
        var payout := if won then WinPayout(betAmount, c.coefficientHundredths) else 0;
        var profit := if won then payout - betAmount else -betAmount;
        PlayOutcome(roll, target, direction, won, c.coefficientHundredths, c.winChance, payout, profit)
  }

  /** Every coefficient exceeds 1, so a winning bet never returns less than its stake. */
  lemma WinningBetNeverLoses(betAmount: int, target: int, direction: string, roll: int)
    requires DiceMin <= roll <= DiceMax
    requires Play(betAmount, target, direction, roll).PlayOutcome?
    requires Play(betAmount, target, direction, roll).won
    ensures Play(betAmount, target, direction, roll).profit >= 0
  {
    var c := CalculateCoefficient(target, direction).value;
    assert betAmount * c.coefficientHundredths >= betAmount * 100;
  }

  datatype BetOption = BetOption(target: int, direction: string, text: string,
                                 coefficientHundredths: int, winChance: int)

  /** The option for one bet, if the bet has a coefficient. */
  function OptionFor(target: int, direction: string, text: string): seq<BetOption> {
    match CalculateCoefficient(target, direction)
    case None => []
    case Some(c) => [BetOption(target, direction, text, c.coefficientHundredths, c.winChance)]
  }

  /** The label digit of a target. */
  function Digit(target: int): string
    requires DiceMin <= target <= DiceMax
  {
    [(48 + target) as char]
  }

  /** The options offered for one target: "higher" before "lower", each only if it has a coefficient. */
  function OptionsAt(target: int): seq<BetOption>
    requires DiceMin <= target <= DiceMax
  {
    OptionFor(target, "higher", "Higher than " + Digit(target))
    + OptionFor(target, "lower", "Lower than " + Digit(target))
  }

  /** The options offered for targets 1..n, in target order. */
  function OptionsThrough(n: int): seq<BetOption>
    requires n <= DiceMax
    decreases n
  {
    if n < DiceMin then [] else OptionsThrough(n - 1) + OptionsAt(n)
  }

  /** Position of an option in the list: by target, "higher" first. */
  function OptionRank(o: BetOption): int {
    2 * o.target + (if o.direction == "higher" then 0 else 1)
  }

  /** The options for one target: each has a coefficient, and every bet with a coefficient is there. */
  lemma OptionsAtExact(t: int)
    requires DiceMin <= t <= DiceMax
    ensures forall o :: o in OptionsAt(t) ==>
      o.target == t && (o.direction == "higher" || o.direction == "lower")
      && CalculateCoefficient(t, o.direction).Some?
    ensures forall d :: CalculateCoefficient(t, d).Some? ==> exists o :: o in OptionsAt(t) && o.direction == d
    ensures |OptionsAt(t)| == if t == DiceMin || t == DiceMax then 1 else 2
    ensures |OptionsAt(t)| == 2 ==> OptionsAt(t)[0].direction == "higher" && OptionsAt(t)[1].direction == "lower"
  {
    var here := OptionsAt(t);
    forall d | CalculateCoefficient(t, d).Some? ensures exists o :: o in here && o.direction == d {
      var o := if d == "higher" then here[0] else here[|here| - 1];
      assert o in here;
    }
  }

  /** The options up to target n are exactly the bets on targets 1..n that have a coefficient. */
  lemma {:induction false} OptionsThroughMembers(n: int)
    requires n <= DiceMax
    ensures forall o :: o in OptionsThrough(n) ==>
      DiceMin <= o.target <= n && (o.direction == "higher" || o.direction == "lower")
      && CalculateCoefficient(o.target, o.direction).Some?
    ensures forall t, d :: DiceMin <= t <= n && CalculateCoefficient(t, d).Some? ==>
      exists o :: o in OptionsThrough(n) && o.target == t && o.direction == d
    decreases n
  {
    if n >= DiceMin {
      OptionsThroughMembers(n - 1);
      OptionsAtExact(n);
      var prev := OptionsThrough(n - 1);
      var here := OptionsAt(n);
      assert OptionsThrough(n) == prev + here;
      forall t, d | DiceMin <= t <= n && CalculateCoefficient(t, d).Some?
        ensures exists o :: o in OptionsThrough(n) && o.target == t && o.direction == d
      {
        if t < n {
          var o :| o in prev && o.target == t && o.direction == d;
          assert o in OptionsThrough(n);
        } else {
          var o :| o in here && o.direction == d;
          assert o in OptionsThrough(n);
        }
      }
    }
  }

  /** The ranks of one target's options: 2t for "higher", 2t + 1 for "lower", in that order. */
  lemma OptionsAtRanks(t: int)
    requires DiceMin <= t <= DiceMax
    ensures forall k :: 0 <= k < |OptionsAt(t)| ==> 2 * t <= OptionRank(OptionsAt(t)[k]) <= 2 * t + 1
    ensures |OptionsAt(t)| == 2 ==> OptionRank(OptionsAt(t)[0]) < OptionRank(OptionsAt(t)[1])
    ensures |OptionsAt(t)| == if t == DiceMin || t == DiceMax then 1 else 2
  {
    OptionsAtExact(t);
  }

  /** Options in strictly increasing rank. */
  ghost predicate RankIncreasing(os: seq<BetOption>) {
    forall i, j :: 0 <= i < j < |os| ==> OptionRank(os[i]) < OptionRank(os[j])
  }

  /** Two increasing runs, the second wholly above `bound` and the first not, make an increasing run. */
  lemma ConcatIncreasing(prev: seq<BetOption>, here: seq<BetOption>, bound: int)
    requires RankIncreasing(prev) && RankIncreasing(here)
    requires forall i :: 0 <= i < |prev| ==> OptionRank(prev[i]) <= bound
    requires forall k :: 0 <= k < |here| ==> bound < OptionRank(here[k])
    ensures RankIncreasing(prev + here)
  {
    var all := prev + here;
    forall i, j | 0 <= i < j < |all| ensures OptionRank(all[i]) < OptionRank(all[j]) {
      if j < |prev| {
        assert all[i] == prev[i] && all[j] == prev[j];
      } else if i < |prev| {
        assert all[i] == prev[i] && all[j] == here[j - |prev|];
      } else {
        assert all[i] == here[i - |prev|] && all[j] == here[j - |prev|];
      }
    }
  }

  /** Two options for every inner target, one for each edge: ten in all. */
  lemma {:induction false} OptionsThroughLength(n: int)
    requires n <= DiceMax
    ensures |OptionsThrough(n)| == if n < DiceMin then 0 else if n < DiceMax then 2 * n - 1 else 10
    decreases n
  {
    if n >= DiceMin {
      OptionsThroughLength(n - 1);
      OptionsAtRanks(n);
    }
  }

  /** The options up to target n all rank at most 2n + 1. */
  lemma {:induction false} OptionsThroughBound(n: int)
    requires n <= DiceMax
    ensures forall i :: 0 <= i < |OptionsThrough(n)| ==> OptionRank(OptionsThrough(n)[i]) <= 2 * n + 1
    decreases n
  {
    if n >= DiceMin {
      OptionsThroughBound(n - 1);
      OptionsAtRanks(n);
      var prev := OptionsThrough(n - 1);
      var here := OptionsAt(n);
      assert OptionsThrough(n) == prev + here;
      forall i | 0 <= i < |prev + here| ensures OptionRank((prev + here)[i]) <= 2 * n + 1 {
        if i >= |prev| {
          assert (prev + here)[i] == here[i - |prev|];
        }
      }
    }
  }

  /** The options are listed in strictly increasing (target, direction) order. */
  lemma {:induction false} OptionsThroughOrdered(n: int)
    requires n <= DiceMax
    ensures RankIncreasing(OptionsThrough(n))
    decreases n
  {
    if n >= DiceMin {
      OptionsThroughOrdered(n - 1);
      OptionsThroughBound(n - 1);
      OptionsAtRanks(n);
      ConcatIncreasing(OptionsThrough(n - 1), OptionsAt(n), 2 * n - 1);
    }
  }

  /** `getBetOptions`: walks the targets 1..6, pushing each target's options. */
  method GetBetOptions() returns (options: seq<BetOption>)
    ensures options == OptionsThrough(DiceMax)
    ensures |options| == 10
    ensures forall o :: o in options ==> CalculateCoefficient(o.target, o.direction).Some?
  {
    options := [];
    var target := DiceMin;
    while target <= DiceMax
      invariant DiceMin <= target <= DiceMax + 1
      invariant options == OptionsThrough(target - 1)
    {
      ghost var before := options;
      var higher := CalculateCoefficient(target, "higher");
      var lower := CalculateCoefficient(target, "lower");
      var digit := Digit(target);
      if higher.Some? {
        options := options + [BetOption(target, "higher", "Higher than " + digit,
                                         higher.value.coefficientHundredths, higher.value.winChance)];
      }
      assert options == before + OptionFor(target, "higher", "Higher than " + digit);
      if lower.Some? {
        options := options + [BetOption(target, "lower", "Lower than " + digit,
                                         lower.value.coefficientHundredths, lower.value.winChance)];
      }
      assert options == before + OptionsAt(target);
      target := target + 1;
    }
    OptionsThroughMembers(DiceMax);
    OptionsThroughLength(DiceMax);
  }
}
