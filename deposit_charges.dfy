/**
 * The record of Star deposits per user, used to pay withdrawals back out:
 * each charge has an id, an amount of Stars and a `used` flag. A withdrawal
 * looks for unused charges that add up exactly to the amount wanted, choosing
 * greedily from the largest down, and confirmed withdrawals mark their
 * charges used.
 */
module DepositCharges {
  import opened Wrappers
  import Seqs

  datatype Charge = Charge(chargeId: string, starAmount: int, used: bool)

  /** An entry of a selection, `{ chargeId, starAmount }`. */
  datatype Pick = Pick(chargeId: string, starAmount: int)

  function StarKey(c: Charge): int { c.starAmount }

  function PickKey(p: Pick): int { p.starAmount }

  function PickOf(c: Charge): Pick { Pick(c.chargeId, c.starAmount) }

  /** The unused charge a pick stands for. */
  function AsCharge(p: Pick): Charge { Charge(p.chargeId, p.starAmount, false) }

  function AsCharges(ps: seq<Pick>): seq<Charge> {
    if ps == [] then [] else [AsCharge(ps[0])] + AsCharges(ps[1..])
  }

  /** `list.filter(c => !c.used)`. */
  function Unused(list: seq<Charge>): (r: seq<Charge>)
    ensures forall i :: 0 <= i < |r| ==> !r[i].used && r[i] in list
    ensures forall i :: 0 <= i < |list| && !list[i].used ==> list[i] in r
  {
    Seqs.Filter(list, (c: Charge) => !c.used)
  }

  function SumStars(s: seq<Charge>): int {
    if s == [] then 0 else s[0].starAmount + SumStars(s[1..])
  }

  function SumPicks(ps: seq<Pick>): int {
    if ps == [] then 0 else ps[0].starAmount + SumPicks(ps[1..])
  }

  /** Adding a charge at the end raises the unused total by its amount if it is unused. */
  lemma {:induction false} UnusedTotalAppend(list: seq<Charge>, c: Charge)
    ensures SumStars(Unused(list + [c])) == SumStars(Unused(list)) + (if c.used then 0 else c.starAmount)
  {
    if list == [] {
      assert list + [c] == [c];
    } else {
      assert (list + [c])[0] == list[0];
      assert (list + [c])[1..] == list[1..] + [c];
      UnusedTotalAppend(list[1..], c);
    }
  }

  /** Puts `pre` in front of a selection, if there is one. */
  function Prefixed(pre: seq<Pick>, o: Option<seq<Pick>>): Option<seq<Pick>> {
    match o
    case None => None
    case Some(rest) => Some(pre + rest)
  }

  /**
   * The greedy walk: take each charge (in the given order) whose amount still
   * fits in what remains; succeed as soon as nothing remains, fail at the end.
   */
  function Greedy(s: seq<Charge>, remain: int): Option<seq<Pick>>
    decreases |s|
  {
    if s == [] then None
    else if s[0].starAmount <= remain then
      if remain - s[0].starAmount == 0 then Some([PickOf(s[0])])
      else Prefixed([PickOf(s[0])], Greedy(s[1..], remain - s[0].starAmount))
    else Greedy(s[1..], remain)
  }

  /** One step of the greedy walk at position i, with `result` already picked. */
  lemma GreedyStep(s: seq<Charge>, i: nat, remain: int, result: seq<Pick>)
    requires i < |s|
    ensures var c := s[i];
      Prefixed(result, Greedy(s[i..], remain)) ==
        if c.starAmount > remain then Prefixed(result, Greedy(s[i + 1..], remain))
        else if remain - c.starAmount == 0 then Some(result + [PickOf(c)])
        else Prefixed(result + [PickOf(c)], Greedy(s[i + 1..], remain - c.starAmount))
  {
    var c := s[i];
    assert s[i..][1..] == s[i + 1..];
    if c.starAmount <= remain && remain - c.starAmount != 0 {
      var g := Greedy(s[i + 1..], remain - c.starAmount);
      if g.Some? {
        assert result + ([PickOf(c)] + g.value) == (result + [PickOf(c)]) + g.value;
      }
    }
  }

  /** The loop of `findUnusedCharges` over the sorted unused charges. */
  method GreedyWalk(sorted: seq<Charge>, need: int) returns (r: Option<seq<Pick>>)
    ensures r == Greedy(sorted, need)
  {
    var result: seq<Pick> := [];
    var remain := need;
    var i := 0;
    assert sorted[i..] == sorted;
    assert Greedy(sorted, need).Some? ==> [] + Greedy(sorted, need).value == Greedy(sorted, need).value;
    while i < |sorted|
      invariant 0 <= i <= |sorted|
      invariant Prefixed(result, Greedy(sorted[i..], remain)) == Greedy(sorted, need)
    {
      var c := sorted[i];
      GreedyStep(sorted, i, remain, result);
      if c.starAmount <= remain {
        result := result + [PickOf(c)];
        remain := remain - c.starAmount;
        if remain == 0 {
          return Some(result);
        }
      }
      i := i + 1;
    }
    assert sorted[i..] == [];
    r := None;
  }

  /** `ps` picks charges of `s` in order, each at most once. */
  ghost predicate PickedFrom(ps: seq<Pick>, s: seq<Charge>)
    decreases |s|
  {
    if ps == [] then true
    else if s == [] then false
    else (ps[0] == PickOf(s[0]) && PickedFrom(ps[1..], s[1..])) || PickedFrom(ps, s[1..])
  }

  /** A greedy selection adds up exactly to the amount asked for and is picked from the list in order. */
  lemma {:induction false} GreedySound(s: seq<Charge>, remain: int)
    requires Greedy(s, remain).Some?
    ensures SumPicks(Greedy(s, remain).value) == remain
    ensures PickedFrom(Greedy(s, remain).value, s)
    decreases |s|
  {
    var ps := Greedy(s, remain).value;
    if s[0].starAmount <= remain {
      if remain - s[0].starAmount != 0 {
        GreedySound(s[1..], remain - s[0].starAmount);
        assert ps[1..] == Greedy(s[1..], remain - s[0].starAmount).value;
      } else {
        assert PickedFrom([], s[1..]);
      }
    } else {
      GreedySound(s[1..], remain);
    }
  }

  /** Picks taken in order from unused charges are distinct unused charges of the list. */
  lemma {:induction false} PickedFromUnused(ps: seq<Pick>, s: seq<Charge>)
    requires PickedFrom(ps, s)
    requires forall i :: 0 <= i < |s| ==> !s[i].used
    ensures multiset(AsCharges(ps)) <= multiset(s)
    decreases |s|
  {
    if ps != [] {
      assert s == [s[0]] + s[1..];
      if ps[0] == PickOf(s[0]) && PickedFrom(ps[1..], s[1..]) {
        PickedFromUnused(ps[1..], s[1..]);
        assert AsCharge(ps[0]) == s[0];
      } else {
        PickedFromUnused(ps, s[1..]);
      }
    }
  }

  /** Picks taken in order from a list sorted by decreasing amount are themselves in that order. */
  lemma {:induction false} PickedFromSorted(ps: seq<Pick>, s: seq<Charge>)
    requires PickedFrom(ps, s)
    requires Seqs.SortedDesc(s, StarKey)
    ensures Seqs.SortedDesc(ps, PickKey)
    ensures forall i :: 0 <= i < |ps| ==> s != [] && ps[i].starAmount <= s[0].starAmount
    decreases |s|
  {
    if ps != [] {
      assert Seqs.SortedDesc(s[1..], StarKey);
      if ps[0] == PickOf(s[0]) && PickedFrom(ps[1..], s[1..]) {
        PickedFromSorted(ps[1..], s[1..]);
        forall i | 0 < i < |ps| ensures ps[i].starAmount <= ps[0].starAmount {
          assert ps[i] == ps[1..][i - 1];
        }
      } else {
        PickedFromSorted(ps, s[1..]);
      }
    }
  }

  /** With no negative amounts, picks never add up to more than the list they come from. */
  lemma {:induction false} PickedFromBounded(ps: seq<Pick>, s: seq<Charge>)
    requires PickedFrom(ps, s)
    requires forall i :: 0 <= i < |s| ==> s[i].starAmount >= 0
    ensures SumPicks(ps) <= SumStars(s)
    decreases |s|
  {
    if ps != [] {
      if ps[0] == PickOf(s[0]) && PickedFrom(ps[1..], s[1..]) {
        PickedFromBounded(ps[1..], s[1..]);
      } else {
        PickedFromBounded(ps, s[1..]);
      }
    } else if s != [] {
      PickedFromBounded(ps, s[1..]);
    }
  }

  /** What `findUnusedCharges` returns for a user's list of charges. */
  function Selection(list: Option<seq<Charge>>, need: int): Option<seq<Pick>> {
    if list.None? || need <= 0 then None
    else
      var unused := Unused(list.value);
      if unused == [] then None
      else Greedy(Seqs.SortDesc(unused, StarKey), need)
  }

  /**
   * `ps` is an exact selection of `need` Stars from `list`: it adds up to
   * `need`, is in non-increasing order of amount, and is made of distinct
   * unused charges of the list.
   */
  ghost predicate ExactSelection(ps: seq<Pick>, list: seq<Charge>, need: int) {
    && SumPicks(ps) == need
    && Seqs.SortedDesc(ps, PickKey)
    && multiset(AsCharges(ps)) <= multiset(Unused(list))
  }

  /**
   * Every selection found is exact; with no negative amounts it never exceeds
   * the user's unused total.
   */
  lemma SelectionSound(list: Option<seq<Charge>>, need: int)
    requires Selection(list, need).Some?
    ensures list.Some? && need > 0
    ensures ExactSelection(Selection(list, need).value, list.value, need)
    ensures (forall i :: 0 <= i < |list.value| ==> list.value[i].starAmount >= 0) ==>
      need <= SumStars(Unused(list.value))
  {
    var unused := Unused(list.value);
    var sorted := Seqs.SortDesc(unused, StarKey);
    var ps := Selection(list, need).value;
    GreedySound(sorted, need);
    PickedFromSorted(ps, sorted);
    forall i | 0 <= i < |sorted| ensures !sorted[i].used && sorted[i] in unused {
      assert sorted[i] in multiset(sorted);
    }
    PickedFromUnused(ps, sorted);
    if forall i :: 0 <= i < |list.value| ==> list.value[i].starAmount >= 0 {
      forall i | 0 <= i < |sorted| ensures sorted[i].starAmount >= 0 {
        assert sorted[i] in unused;
      }
      PickedFromBounded(ps, sorted);
      SumStarsPermutation(sorted, unused);
    }
  }

  /** The total of a list of charges does not depend on their order. */
  lemma {:induction false} SumStarsPermutation(a: seq<Charge>, b: seq<Charge>)
    requires multiset(a) == multiset(b)
    ensures SumStars(a) == SumStars(b)
    decreases |a|
  {
    if a != [] {
      var x := a[0];
      assert x in multiset(b);
      var k :| 0 <= k < |b| && b[k] == x;
      assert a == [x] + a[1..];
      assert multiset(a[1..]) == multiset(a) - multiset{x};
      RemoveAtMultiset(b, k);
      SumStarsRemove(b, k);
      SumStarsPermutation(a[1..], b[..k] + b[k + 1..]);
    }
  }

  lemma RemoveAtMultiset(b: seq<Charge>, k: int)
    requires 0 <= k < |b|
    ensures multiset(b[..k] + b[k + 1..]) == multiset(b) - multiset{b[k]}
  {
    assert b == b[..k] + [b[k]] + b[k + 1..];
  }

  lemma SumStarsRemove(b: seq<Charge>, k: int)
    requires 0 <= k < |b|
    ensures SumStars(b) == b[k].starAmount + SumStars(b[..k] + b[k + 1..])
  {
    assert b == b[..k] + ([b[k]] + b[k + 1..]);
    SumStarsSplit(b[..k], [b[k]] + b[k + 1..]);
    SumStarsSplit(b[..k], b[k + 1..]);
    assert ([b[k]] + b[k + 1..])[1..] == b[k + 1..];
  }

  lemma {:induction false} SumStarsSplit(a: seq<Charge>, b: seq<Charge>)
    ensures SumStars(a + b) == SumStars(a) + SumStars(b)
    decreases |a|
  {
    if a != [] {
      assert (a + b)[1..] == a[1..] + b;
      SumStarsSplit(a[1..], b);
    } else {
      assert a + b == b;
    }
  }

  /** A charge list with `used` set on every charge whose id is listed, nothing else changed. */
  function MarkList(list: seq<Charge>, ids: seq<string>): (r: seq<Charge>)
    ensures |r| == |list|
    ensures forall i :: 0 <= i < |r| ==>
      && r[i].chargeId == list[i].chargeId
      && r[i].starAmount == list[i].starAmount
      && (r[i].used <==> list[i].used || list[i].chargeId in ids)
  {
    seq(|list|, i requires 0 <= i < |list| => if list[i].chargeId in ids then list[i].(used := true) else list[i])
  }

  /** The inner loop of `markUsed` over one user's charges. */
  method MarkCharges(list: seq<Charge>, ids: seq<string>) returns (r: seq<Charge>)
    ensures r == MarkList(list, ids)
  {
    r := list;
    var i := 0;
    while i < |r|
      invariant 0 <= i <= |r| == |list|
      invariant forall j :: 0 <= j < i ==> r[j] == MarkList(list, ids)[j]
      invariant forall j :: i <= j < |r| ==> r[j] == list[j]
    {
      if r[i].chargeId in ids {
        r := r[i := r[i].(used := true)];
      }
      i := i + 1;
    }
  }

  /** Once marked, a charge is no longer offered for a selection. */
  lemma MarkedLeaveUnused(list: seq<Charge>, ids: seq<string>, need: int)
    ensures forall c :: c in Unused(MarkList(list, ids)) ==> c.chargeId !in ids
    ensures Selection(Some(MarkList(list, ids)), need).Some? ==>
      forall p :: p in Selection(Some(MarkList(list, ids)), need).value ==> p.chargeId !in ids
  {
    var marked := Unused(MarkList(list, ids));
    if Selection(Some(MarkList(list, ids)), need).Some? {
      var ps := Selection(Some(MarkList(list, ids)), need).value;
      SelectionSound(Some(MarkList(list, ids)), need);
      forall p | p in ps ensures p.chargeId !in ids {
        var i :| 0 <= i < |ps| && ps[i] == p;
        AsChargesAt(ps, i);
        assert AsCharge(p) in multiset(marked);
      }
    }
  }

  lemma {:induction false} AsChargesAt(ps: seq<Pick>, i: nat)
    requires i < |ps|
    ensures |AsCharges(ps)| == |ps| && AsCharges(ps)[i] == AsCharge(ps[i])
    decreases |ps|
  {
    if i > 0 {
      AsChargesAt(ps[1..], i - 1);
    } else if |ps| > 1 {
      AsChargesAt(ps[1..], 0);
    }
  }

  class ChargeStore {
    /** Charges per user id (the source keys by the id's string form). */
    var chargesByUser: map<string, seq<Charge>>

    constructor ()
      ensures chargesByUser == map[]
    {
      chargesByUser := map[];
    }

    function ListOf(uid: string): Option<seq<Charge>>
      reads this
    {
      if uid in chargesByUser then Some(chargesByUser[uid]) else None
    }

    /** The sum of the user's unused charges; 0 for a user without charges. */
    function GetUnusedStarsTotal(uid: string): (total: int)
      reads this
      ensures uid !in chargesByUser ==> total == 0
      ensures uid in chargesByUser ==> total == SumStars(Unused(chargesByUser[uid]))
    {
      if uid !in chargesByUser then 0 else SumStars(Unused(chargesByUser[uid]))
    }

    method AddCharge(uid: string, chargeId: string, starAmount: int)
      modifies this
      ensures chargesByUser ==
        old(chargesByUser)[uid := old(if uid in chargesByUser then chargesByUser[uid] else [])
                                  + [Charge(chargeId, starAmount, false)]]
      ensures GetUnusedStarsTotal(uid) == old(GetUnusedStarsTotal(uid)) + starAmount
    {
      var list := if uid in chargesByUser then chargesByUser[uid] else [];
      UnusedTotalAppend(list, Charge(chargeId, starAmount, false));
      chargesByUser := chargesByUser[uid := list + [Charge(chargeId, starAmount, false)]];
    }

    /**
     * Unused charges of the user adding up exactly to `need`, taken greedily
     * from the largest amount down, or None. Reads the store, changes nothing.
     * What a selection guarantees is SelectionSound.
     */
    method FindUnusedCharges(uid: string, need: int) returns (r: Option<seq<Pick>>)
      ensures r == Selection(ListOf(uid), need)
    {
      if uid !in chargesByUser || need <= 0 {
        return None;
      }
      var unused := Unused(chargesByUser[uid]);
      if unused == [] {
        return None;
      }
      var sorted := Seqs.SortDesc(unused, StarKey);
      r := GreedyWalk(sorted, need);
    }

    /** Sets `used` on every charge, of any user, whose id is listed. */
    method MarkUsed(chargeIds: seq<string>)
      modifies this
      ensures chargesByUser.Keys == old(chargesByUser).Keys
      ensures forall uid :: uid in chargesByUser ==> chargesByUser[uid] == MarkList(old(chargesByUser)[uid], chargeIds)
    {
      ghost var before := chargesByUser;
      var pending := chargesByUser.Keys;
      while pending != {}
        invariant pending <= before.Keys
        invariant chargesByUser.Keys == before.Keys
        invariant forall uid :: uid in chargesByUser ==>
          chargesByUser[uid] == if uid in pending then before[uid] else MarkList(before[uid], chargeIds)
        decreases pending
      {
        var uid :| uid in pending;
        var list := MarkCharges(chargesByUser[uid], chargeIds);
        chargesByUser := chargesByUser[uid := list];
        pending := pending - {uid};
      }
    }
  }
}
