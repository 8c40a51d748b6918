/**
 * Sequence operations the source takes from JavaScript's Array API:
 * `filter`, a stable `sort` with a numeric comparator, and `slice(0, limit)`.
 */
module Seqs {

  /** `s` is in non-increasing order of `key`. */
  ghost predicate SortedDesc<T>(s: seq<T>, key: T -> int) {
    forall i, j :: 0 <= i < j < |s| ==> key(s[i]) >= key(s[j])
  }

  /** The elements of `s` that satisfy `p`, in their original order (`Array.prototype.filter`). */
  function Filter<T>(s: seq<T>, p: T -> bool): (r: seq<T>)
    ensures |r| <= |s|
    ensures forall i :: 0 <= i < |r| ==> p(r[i])
    ensures forall i :: 0 <= i < |r| ==> r[i] in s
    ensures forall i :: 0 <= i < |s| && p(s[i]) ==> s[i] in r
    ensures multiset(r) <= multiset(s)
  {
    if s == [] then []
    else
      assert s == [s[0]] + s[1..];
      if p(s[0]) then [s[0]] + Filter(s[1..], p) else Filter(s[1..], p)
  }

  /**
   * `Filter` keeps order: filtering a concatenation filters each part. With
   * `FilterSingle` this determines `Filter` on every sequence.
   */
  lemma {:induction false} FilterAppend<T>(a: seq<T>, b: seq<T>, p: T -> bool)
    ensures Filter(a + b, p) == Filter(a, p) + Filter(b, p)
  {
    if a == [] {
      assert a + b == b;
    } else {
      var c := a + b;
      assert c[0] == a[0];
      assert c[1..] == a[1..] + b;
      FilterAppend(a[1..], b, p);
      if p(a[0]) {
        assert Filter(c, p) == [a[0]] + Filter(c[1..], p);
        assert Filter(a, p) == [a[0]] + Filter(a[1..], p);
      } else {
        assert Filter(c, p) == Filter(c[1..], p);
        assert Filter(a, p) == Filter(a[1..], p);
      }
    }
  }

  /** A single element is kept exactly when it satisfies `p`. */
  lemma FilterSingle<T>(x: T, p: T -> bool)
    ensures Filter([x], p) == if p(x) then [x] else []
  {
    assert [x][1..] == [];
  }

  /**
   * Inserts `x` in front of the first element whose key is not greater than
   * its own, so that `x` stays ahead of the equal keys that follow it.
   */
  function Insert<T>(x: T, s: seq<T>, key: T -> int): (r: seq<T>)
    ensures multiset(r) == multiset(s) + multiset{x}
    ensures |r| == |s| + 1
  {
    if s == [] || key(s[0]) <= key(x) then [x] + s
    else
      assert s == [s[0]] + s[1..];
      [s[0]] + Insert(x, s[1..], key)
  }

  /** A sorted sequence stays sorted with a head whose key is not below the old head's. */
  lemma SortedCons<T>(h: T, t: seq<T>, key: T -> int)
    requires SortedDesc(t, key)
    requires t != [] ==> key(h) >= key(t[0])
    ensures SortedDesc([h] + t, key)
  {
    var r := [h] + t;
    forall i, j | 0 <= i < j < |r| ensures key(r[i]) >= key(r[j]) {
      if i == 0 {
        assert r[j] == t[j - 1];
      } else {
        assert r[i] == t[i - 1] && r[j] == t[j - 1];
      }
    }
  }

  /** Inserting into a sorted sequence keeps it sorted. */
  lemma {:induction false} InsertSorted<T>(x: T, s: seq<T>, key: T -> int)
    requires SortedDesc(s, key)
    ensures SortedDesc(Insert(x, s, key), key)
    ensures Insert(x, s, key)[0] == x || Insert(x, s, key)[0] == s[0]
    decreases |s|
  {
    if s == [] || key(s[0]) <= key(x) {
      SortedCons(x, s, key);
    } else {
      var tail := s[1..];
      assert SortedDesc(tail, key) by {
        forall i, j | 0 <= i < j < |tail| ensures key(tail[i]) >= key(tail[j]) {
          assert tail[i] == s[i + 1] && tail[j] == s[j + 1];
        }
      }
      InsertSorted(x, tail, key);
      var rest := Insert(x, tail, key);
      assert key(s[0]) >= key(rest[0]) by {
        if rest[0] != x {
          assert rest[0] == s[1];
        }
      }
      SortedCons(s[0], rest, key);
    }
  }

  /**
   * A stable sort into non-increasing key order: what `arr.sort((a, b) => key(b) - key(a))`
   * computes, the engine's sort being stable.
   */
  function SortDesc<T>(s: seq<T>, key: T -> int): (r: seq<T>)
    ensures multiset(r) == multiset(s)
    ensures |r| == |s|
    ensures SortedDesc(r, key)
  {
    if s == [] then []
    else
      assert s == [s[0]] + s[1..];
      var sortedTail := SortDesc(s[1..], key);
      InsertSorted(s[0], sortedTail, key);
      var r := Insert(s[0], sortedTail, key);
      assert |r| == |multiset(r)|;
      r
  }

  /**
   * `s.slice(0, limit)`: a non-negative limit keeps the first `limit` elements,
   * a negative one drops the last `-limit` elements.
   */
  function SliceTo<T>(s: seq<T>, limit: int): (r: seq<T>)
    ensures r <= s
    ensures limit >= 0 ==> |r| == if limit < |s| then limit else |s|
    ensures limit < 0 ==> |r| == if |s| + limit > 0 then |s| + limit else 0
  {
    if limit >= 0 then
      if limit < |s| then s[..limit] else s
    else
      if |s| + limit > 0 then s[..|s| + limit] else []
  }

  /** A prefix of a sorted sequence is sorted, and holds only elements of the sequence. */
  lemma SortedPrefix<T>(s: seq<T>, t: seq<T>, key: T -> int)
    requires SortedDesc(s, key) && t <= s
    ensures SortedDesc(t, key)
    ensures forall i :: 0 <= i < |t| ==> t[i] in s
  {
    forall i | 0 <= i < |t| ensures t[i] in s {
      assert t[i] == s[i];
    }
  }

  /**
   * A prefix of a sorted sequence keeps the greatest keys: nothing it leaves
   * out has a greater key than anything it keeps.
   */
  lemma PrefixKeepsGreatest<T>(s: seq<T>, t: seq<T>, key: T -> int)
    requires SortedDesc(s, key) && t <= s
    ensures multiset(t) <= multiset(s)
    ensures forall q, x :: q in multiset(s) - multiset(t) && x in t ==> key(q) <= key(x)
  {
    var rest := s[|t|..];
    assert s == t + rest;
    assert multiset(s) - multiset(t) == multiset(rest);
    forall q, x | q in multiset(s) - multiset(t) && x in t ensures key(q) <= key(x) {
      assert q in rest;
      var j :| 0 <= j < |rest| && rest[j] == q;
      var i :| 0 <= i < |t| && t[i] == x;
      assert s[i] == x && s[|t| + j] == q;
    }
  }

  /**
   * Sorting by `key` and keeping a prefix (`sort` then `slice(0, limit)`)
   * returns a sorted sub-multiset of `s` holding the greatest keys.
   */
  lemma SortThenSlice<T>(s: seq<T>, limit: int, key: T -> int)
    ensures var r := SliceTo(SortDesc(s, key), limit);
      && SortedDesc(r, key)
      && (forall x :: x in r ==> x in s)
      && multiset(r) <= multiset(s)
      && forall q, x :: q in multiset(s) - multiset(r) && x in r ==> key(q) <= key(x)
  {
    var sorted := SortDesc(s, key);
    var r := SliceTo(sorted, limit);
    SortedPrefix(sorted, r, key);
    PrefixKeepsGreatest(sorted, r, key);
    forall x | x in r ensures x in s {
      assert x in multiset(sorted);
    }
  }

  /** Sequences with the same multiset hold the same elements. */
  lemma SameMembers<T>(s: seq<T>, t: seq<T>)
    requires multiset(s) == multiset(t)
    ensures forall i :: 0 <= i < |t| ==> t[i] in s
  {
    forall i | 0 <= i < |t| ensures t[i] in s {
      assert t[i] in multiset(t);
    }
  }
}
