/** Order-preserving filtering of sequences: the one operation behind every
    `Array.prototype.filter` call of the finance store and the reducer. */
module Sequences {

  /** The elements of `s` that satisfy `keep`, in their original order. */
  function Filter<T(!new)>(s: seq<T>, keep: T -> bool): (r: seq<T>)
    ensures |r| <= |s|
    ensures forall i :: 0 <= i < |r| ==> keep(r[i])
  {
    if s == [] then []
    else (if keep(s[0]) then [s[0]] else []) + Filter(s[1..], keep)
  }

  /** The positions (offset by `base`) of the elements of `s` that `keep` retains,
      in increasing order: the witness that Filter keeps relative order. */
  function KeptPositions<T>(s: seq<T>, keep: T -> bool, base: nat): seq<nat>
  {
    if s == [] then []
    else (if keep(s[0]) then [base] else []) + KeptPositions(s[1..], keep, base + 1)
  }

  /** There are as many retained positions as survivors of Filter. */
  lemma {:induction false} KeptPositionsLength<T(!new)>(s: seq<T>, keep: T -> bool, base: nat)
    ensures |KeptPositions(s, keep, base)| == |Filter(s, keep)|
  {
    if s != [] {
      KeptPositionsLength(s[1..], keep, base + 1);
    }
  }

  /** The j-th survivor of Filter is the element at the j-th retained position. */
  lemma {:induction false} KeptPositionAt<T(!new)>(s: seq<T>, keep: T -> bool, base: nat, j: nat)
    requires j < |KeptPositions(s, keep, base)|
    ensures j < |Filter(s, keep)|
    ensures base <= KeptPositions(s, keep, base)[j] < base + |s|
    ensures Filter(s, keep)[j] == s[KeptPositions(s, keep, base)[j] - base]
    decreases |s|
  {
    var tail := KeptPositions(s[1..], keep, base + 1);
    var rest := Filter(s[1..], keep);
    assert s != [];
    if keep(s[0]) {
      assert KeptPositions(s, keep, base) == [base] + tail;
      assert Filter(s, keep) == [s[0]] + rest;
      if j > 0 {
        KeptPositionAt(s[1..], keep, base + 1, j - 1);
        assert s[1..][tail[j - 1] - (base + 1)] == s[tail[j - 1] - base];
      }
    } else {
      assert KeptPositions(s, keep, base) == tail;
      assert Filter(s, keep) == rest;
      KeptPositionAt(s[1..], keep, base + 1, j);
      assert s[1..][tail[j] - (base + 1)] == s[tail[j] - base];
    }
  }

  /** Retained positions strictly increase. */
  lemma {:induction false} KeptPositionsIncrease<T(!new)>(s: seq<T>, keep: T -> bool, base: nat, j: nat, k: nat)
    requires j < k < |KeptPositions(s, keep, base)|
    ensures KeptPositions(s, keep, base)[j] < KeptPositions(s, keep, base)[k]
    decreases |s|
  {
    var tail := KeptPositions(s[1..], keep, base + 1);
    assert s != [];
    if keep(s[0]) {
      assert KeptPositions(s, keep, base) == [base] + tail;
      if j == 0 {
        KeptPositionAt(s[1..], keep, base + 1, k - 1);
      } else {
        KeptPositionsIncrease(s[1..], keep, base + 1, j - 1, k - 1);
      }
    } else {
      assert KeptPositions(s, keep, base) == tail;
      KeptPositionsIncrease(s[1..], keep, base + 1, j, k);
    }
  }

  /** Every element satisfying `keep` has its position retained. */
  lemma {:induction false} KeptPositionsComplete<T(!new)>(s: seq<T>, keep: T -> bool, base: nat)
    ensures forall i :: 0 <= i < |s| && keep(s[i]) ==> base + i in KeptPositions(s, keep, base)
  {
    if s != [] {
      KeptPositionsComplete(s[1..], keep, base + 1);
      var tail := KeptPositions(s[1..], keep, base + 1);
      assert KeptPositions(s, keep, base) == (if keep(s[0]) then [base] else []) + tail;
      forall i | 0 < i < |s| && keep(s[i]) ensures base + i in tail {
        assert s[1..][i - 1] == s[i];
      }
    }
  }

  /** Filter is stable: the j-th survivor is the element at the j-th retained
      position, positions strictly increase, and every element satisfying
      `keep` is retained. */
  lemma FilterIsStable<T(!new)>(s: seq<T>, keep: T -> bool)
    ensures |KeptPositions(s, keep, 0)| == |Filter(s, keep)|
    ensures forall j :: 0 <= j < |KeptPositions(s, keep, 0)| ==>
      KeptPositions(s, keep, 0)[j] < |s| && Filter(s, keep)[j] == s[KeptPositions(s, keep, 0)[j]]
    ensures forall j, k :: 0 <= j < k < |KeptPositions(s, keep, 0)| ==>
      KeptPositions(s, keep, 0)[j] < KeptPositions(s, keep, 0)[k]
    ensures forall i :: 0 <= i < |s| && keep(s[i]) ==> i in KeptPositions(s, keep, 0)
  {
    KeptPositionsLength(s, keep, 0);
    forall j, k | 0 <= j < k < |KeptPositions(s, keep, 0)|
      ensures KeptPositions(s, keep, 0)[j] < KeptPositions(s, keep, 0)[k]
    {
      KeptPositionsIncrease(s, keep, 0, j, k);
    }
    forall j | 0 <= j < |KeptPositions(s, keep, 0)|
      ensures KeptPositions(s, keep, 0)[j] < |s| && Filter(s, keep)[j] == s[KeptPositions(s, keep, 0)[j]]
    {
      KeptPositionAt(s, keep, 0, j);
    }
    KeptPositionsComplete(s, keep, 0);
  }

  /** An element survives Filter exactly when it occurs in `s` and satisfies `keep`. */
  lemma {:induction false} FilterMembers<T(!new)>(s: seq<T>, keep: T -> bool, x: T)
    ensures x in Filter(s, keep) <==> x in s && keep(x)
  {
    if s != [] {
      FilterMembers(s[1..], keep, x);
      assert Filter(s, keep) == (if keep(s[0]) then [s[0]] else []) + Filter(s[1..], keep);
      assert x in s <==> x == s[0] || x in s[1..];
    }
  }

  /** Filtering distributes over concatenation. */
  lemma {:induction false} FilterAppend<T(!new)>(a: seq<T>, b: seq<T>, keep: T -> bool)
    ensures Filter(a + b, keep) == Filter(a, keep) + Filter(b, keep)
  {
    if a == [] {
      assert a + b == b;
    } else {
      assert (a + b)[0] == a[0];
      assert (a + b)[1..] == a[1..] + b;
      FilterAppend(a[1..], b, keep);
    }
  }

  /** When `keep` holds of every element, filtering returns the input unchanged. */
  lemma {:induction false} FilterKeepsAll<T(!new)>(s: seq<T>, keep: T -> bool)
    requires forall x :: x in s ==> keep(x)
    ensures Filter(s, keep) == s
  {
    if s != [] {
      assert forall x :: x in s[1..] ==> x in s;
      FilterKeepsAll(s[1..], keep);
      assert [s[0]] + s[1..] == s;
    }
  }

  /** Filtering twice with the same predicate is filtering once. */
  lemma FilterIdempotent<T(!new)>(s: seq<T>, keep: T -> bool)
    ensures Filter(Filter(s, keep), keep) == Filter(s, keep)
  {
    FilterKeepsAll(Filter(s, keep), keep);
  }

  /** Two filters may be applied in either order. */
  lemma {:induction false} FilterCommute<T(!new)>(s: seq<T>, p: T -> bool, q: T -> bool)
    ensures Filter(Filter(s, p), q) == Filter(Filter(s, q), p)
  {
    if s != [] {
      FilterCommute(s[1..], p, q);
      var x := s[0];
      var ps := Filter(s[1..], p);
      var qs := Filter(s[1..], q);
      assert Filter(s, p) == (if p(x) then [x] else []) + ps;
      assert Filter(s, q) == (if q(x) then [x] else []) + qs;
      FilterAppend(if p(x) then [x] else [], ps, q);
      FilterAppend(if q(x) then [x] else [], qs, p);
      assert Filter([x], q) == (if q(x) then [x] else []) + Filter([], q);
      assert Filter([x], p) == (if p(x) then [x] else []) + Filter([], p);
    }
  }

  /** A filter followed by a stricter one is the stricter one alone. */
  lemma {:induction false} FilterNarrower<T(!new)>(s: seq<T>, p: T -> bool, q: T -> bool)
    requires forall x :: q(x) ==> p(x)
    ensures Filter(Filter(s, p), q) == Filter(s, q)
  {
    if s != [] {
      FilterNarrower(s[1..], p, q);
      var x := s[0];
      assert Filter(s, p) == (if p(x) then [x] else []) + Filter(s[1..], p);
      FilterAppend(if p(x) then [x] else [], Filter(s[1..], p), q);
      assert Filter([x], q) == (if q(x) then [x] else []) + Filter([], q);
    }
  }
}
