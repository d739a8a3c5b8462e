/** Stretches of integer sequences: order, contents as a multiset, and agreement. */
module Ranges {

  function Elem(s: seq<int>, k: nat): int {
    if k < |s| then s[k] else 0
  }

  ghost predicate Sorted(s: seq<int>, lo: nat, up: nat) {
    forall i: nat, j: nat :: lo <= i <= j < up ==> Elem(s, i) <= Elem(s, j)
  }

  ghost predicate AllBelow(s: seq<int>, lo: nat, up: nat, v: int) {
    forall k: nat :: lo <= k < up ==> Elem(s, k) <= v
  }

  ghost predicate AllAbove(s: seq<int>, lo: nat, up: nat, v: int) {
    forall k: nat :: lo <= k < up ==> v <= Elem(s, k)
  }

  ghost predicate Agree(s: seq<int>, t: seq<int>, lo: nat, up: nat) {
    forall k: nat :: lo <= k < up ==> Elem(s, k) == Elem(t, k)
  }

  ghost predicate Same(s: seq<int>, t: seq<int>, lo: nat, up: nat) {
    |s| == |t| && Agree(s, t, lo, up)
  }

  /** Nothing but the elements lo, ..., up - 1 may differ. */
  ghost predicate SameOutside(s: seq<int>, t: seq<int>, lo: nat, up: nat) {
    |s| == |t| && forall k: nat :: k < lo || up <= k ==> Elem(s, k) == Elem(t, k)
  }

  /** How often x occurs among s[lo], ..., s[up - 1]. */
  ghost function Occ(s: seq<int>, lo: nat, up: nat, x: int): nat
    decreases up
  {
    if lo < up then Occ(s, lo, up - 1, x) + (if Elem(s, up - 1) == x then 1 else 0) else 0
  }

  /** x occurs in the third stretch as often as in the first two together. */
  ghost predicate OccAdds(s: seq<int>, lo1: nat, up1: nat, lo2: nat, up2: nat, t: seq<int>, lo3: nat, up3: nat, x: int) {
    Occ(t, lo3, up3, x) == Occ(s, lo1, up1, x) + Occ(s, lo2, up2, x)
  }

  /** The third stretch is a permutation of the first two together. */
  ghost predicate Joined(s: seq<int>, lo1: nat, up1: nat, lo2: nat, up2: nat, t: seq<int>, lo3: nat, up3: nat) {
    forall x: int :: OccAdds(s, lo1, up1, lo2, up2, t, lo3, up3, x)
  }

  lemma {:induction false} OccSame(s: seq<int>, t: seq<int>, lo: nat, up: nat, x: int)
    requires Agree(s, t, lo, up)
    ensures Occ(s, lo, up, x) == Occ(t, lo, up, x)
    decreases up
  {
    if lo < up {
      OccSame(s, t, lo, up - 1, x);
    }
  }

  lemma {:induction false} OccSplit(s: seq<int>, lo: nat, mid: nat, up: nat, x: int)
    requires lo <= mid <= up
    ensures Occ(s, lo, up, x) == Occ(s, lo, mid, x) + Occ(s, mid, up, x)
    decreases up
  {
    if mid < up {
      OccSplit(s, lo, mid, up - 1, x);
    }
  }

  lemma {:induction false} OccFound(s: seq<int>, lo: nat, up: nat, k: nat)
    requires lo <= k < up
    ensures Occ(s, lo, up, Elem(s, k)) > 0
    decreases up
  {
    if k < up - 1 {
      OccFound(s, lo, up - 1, k);
    }
  }

  lemma {:induction false} FindOcc(s: seq<int>, lo: nat, up: nat, x: int) returns (k: nat)
    requires Occ(s, lo, up, x) > 0
    ensures lo <= k < up && Elem(s, k) == x
    decreases up
  {
    if Elem(s, up - 1) == x {
      k := up - 1;
    } else {
      k := FindOcc(s, lo, up - 1, x);
    }
  }

  lemma {:induction false} OccIsMultiset(s: seq<int>, lo: nat, up: nat, x: int)
    requires lo <= up <= |s|
    ensures Occ(s, lo, up, x) == multiset(s[lo..up])[x]
    decreases up
  {
    if lo < up {
      OccIsMultiset(s, lo, up - 1, x);
      assert s[lo..up] == s[lo..up - 1] + [s[up - 1]];
    }
  }

  /** An element of a joined stretch comes from one of the two. */
  lemma Origin(s: seq<int>, lo1: nat, up1: nat, lo2: nat, up2: nat, t: seq<int>, lo3: nat, up3: nat, k: nat) returns (i: nat)
    requires Joined(s, lo1, up1, lo2, up2, t, lo3, up3) && lo3 <= k < up3
    ensures (lo1 <= i < up1 || lo2 <= i < up2) && Elem(s, i) == Elem(t, k)
  {
    var x := Elem(t, k);
    OccFound(t, lo3, up3, k);
    assert OccAdds(s, lo1, up1, lo2, up2, t, lo3, up3, x);
    if Occ(s, lo1, up1, x) > 0 {
      i := FindOcc(s, lo1, up1, x);
    } else {
      i := FindOcc(s, lo2, up2, x);
    }
  }

  /** A bound on two stretches bounds what they are joined to. */
  lemma BelowFromParts(s: seq<int>, lo1: nat, up1: nat, lo2: nat, up2: nat, t: seq<int>, lo3: nat, up3: nat, v: int)
    requires Joined(s, lo1, up1, lo2, up2, t, lo3, up3) && AllBelow(s, lo1, up1, v) && AllBelow(s, lo2, up2, v)
    ensures AllBelow(t, lo3, up3, v)
  {
    forall k: nat | lo3 <= k < up3
      ensures Elem(t, k) <= v
    {
      var i := Origin(s, lo1, up1, lo2, up2, t, lo3, up3, k);
    }
  }

  lemma AboveFromParts(s: seq<int>, lo1: nat, up1: nat, lo2: nat, up2: nat, t: seq<int>, lo3: nat, up3: nat, v: int)
    requires Joined(s, lo1, up1, lo2, up2, t, lo3, up3) && AllAbove(s, lo1, up1, v) && AllAbove(s, lo2, up2, v)
    ensures AllAbove(t, lo3, up3, v)
  {
    forall k: nat | lo3 <= k < up3
      ensures v <= Elem(t, k)
    {
      var i := Origin(s, lo1, up1, lo2, up2, t, lo3, up3, k);
    }
  }

  /** s1 + s2, the pivot and the upper parts, all joined. */
  lemma JoinAroundPivot(s: seq<int>, lo1: nat, mid1: nat, up1: nat, lo2: nat, mid2: nat, up2: nat, t: seq<int>, lo3: nat, mid3: nat, up3: nat)
    requires lo1 <= mid1 < up1 && lo2 <= mid2 <= up2 && lo3 <= mid3 < up3
    requires Joined(s, lo1, mid1, lo2, mid2, t, lo3, mid3) && Joined(s, mid1 + 1, up1, mid2, up2, t, mid3 + 1, up3)
    requires Elem(t, mid3) == Elem(s, mid1)
    ensures Joined(s, lo1, up1, lo2, up2, t, lo3, up3)
  {
    forall x: int
      ensures OccAdds(s, lo1, up1, lo2, up2, t, lo3, up3, x)
    {
      assert OccAdds(s, lo1, mid1, lo2, mid2, t, lo3, mid3, x);
      assert OccAdds(s, mid1 + 1, up1, mid2, up2, t, mid3 + 1, up3, x);
      OccSplit(s, lo1, mid1 + 1, up1, x);
      OccSplit(s, lo2, mid2, up2, x);
      OccSplit(t, lo3, mid3 + 1, up3, x);
    }
  }

  /** The join of two stretches depends on their elements only. */
  lemma JoinedSame(s: seq<int>, s': seq<int>, lo1: nat, up1: nat, lo2: nat, up2: nat, t: seq<int>, t': seq<int>, lo3: nat, up3: nat)
    requires Joined(s, lo1, up1, lo2, up2, t, lo3, up3)
    requires Same(s, s', lo1, up1) && Same(s, s', lo2, up2) && Same(t, t', lo3, up3)
    ensures Joined(s', lo1, up1, lo2, up2, t', lo3, up3)
  {
    forall x: int
      ensures OccAdds(s', lo1, up1, lo2, up2, t', lo3, up3, x)
    {
      assert OccAdds(s, lo1, up1, lo2, up2, t, lo3, up3, x);
      OccSame(s, s', lo1, up1, x);
      OccSame(s, s', lo2, up2, x);
      OccSame(t, t', lo3, up3, x);
    }
  }

  /** Sorted stretches on both sides of a bound join to a sorted stretch. */
  lemma SortedJoin(s: seq<int>, lo: nat, mid: nat, up: nat)
    requires lo <= mid < up
    requires Sorted(s, lo, mid) && Sorted(s, mid + 1, up)
    requires AllBelow(s, lo, mid, Elem(s, mid)) && AllAbove(s, mid + 1, up, Elem(s, mid))
    ensures Sorted(s, lo, up)
  {
  }

  ghost predicate OccKept(s: seq<int>, t: seq<int>, lo: nat, up: nat, x: int) {
    Occ(s, lo, up, x) == Occ(t, lo, up, x)
  }

  /** The stretches lo, ..., up - 1 of s and t are permutations of each other. */
  ghost predicate Permuted(s: seq<int>, t: seq<int>, lo: nat, up: nat) {
    forall x: int :: OccKept(s, t, lo, up, x)
  }

  // The sorted permutation of a sequence

  function Insert(s: seq<int>, x: int): (r: seq<int>)
    ensures |r| == |s| + 1
  {
    var n := |s|;
    if n == 0 || s[n - 1] <= x then s + [x] else Insert(s[..n - 1], x) + [s[n - 1]]
  }

  function SortedSeq(s: seq<int>): (r: seq<int>)
    ensures |r| == |s|
  {
    if s == [] then [] else Insert(SortedSeq(s[..|s| - 1]), s[|s| - 1])
  }

  lemma {:induction false} OccShift(s: seq<int>, lo: nat, q: seq<int>, n: nat, x: int)
    requires forall k: nat :: k < n ==> Elem(s, lo + k) == Elem(q, k)
    ensures Occ(s, lo, lo + n, x) == Occ(q, 0, n, x)
    decreases n
  {
    if n > 0 {
      OccShift(s, lo, q, n - 1, x);
    }
  }

  lemma {:induction false} InsertOcc(s: seq<int>, v: int, x: int)
    ensures Occ(Insert(s, v), 0, |s| + 1, x) == Occ(s, 0, |s|, x) + if v == x then 1 else 0
    decreases |s|
  {
    var n := |s|;
    if n == 0 || s[n - 1] <= v {
      OccSame(s + [v], s + [v], 0, n, x);
      OccShift(s + [v], 0, s, n, x);
    } else {
      InsertOcc(s[..n - 1], v, x);
      OccShift(Insert(s, v), 0, Insert(s[..n - 1], v), n, x);
      OccShift(s, 0, s[..n - 1], n - 1, x);
    }
  }

  lemma {:induction false} InsertSorted(s: seq<int>, v: int)
    requires Sorted(s, 0, |s|)
    ensures Sorted(Insert(s, v), 0, |s| + 1)
    ensures forall b: int :: v <= b && AllBelow(s, 0, |s|, b) ==> AllBelow(Insert(s, v), 0, |s| + 1, b)
    decreases |s|
  {
    var n := |s|;
    if n > 0 && s[n - 1] > v {
      var t := s[..n - 1];
      assert forall k: nat :: k < n - 1 ==> Elem(t, k) == Elem(s, k);
      InsertSorted(t, v);
      assert AllBelow(t, 0, n - 1, Elem(s, n - 1));
      assert AllBelow(Insert(t, v), 0, n, Elem(s, n - 1));
      assert forall k: nat :: k < n ==> Elem(Insert(s, v), k) == Elem(Insert(t, v), k);
    } else {
      assert forall k: nat :: k < n ==> Elem(Insert(s, v), k) == Elem(s, k);
    }
  }

  lemma {:induction false} SortedSeqOk(s: seq<int>, x: int)
    ensures Sorted(SortedSeq(s), 0, |s|) && Occ(SortedSeq(s), 0, |s|, x) == Occ(s, 0, |s|, x)
    decreases |s|
  {
    if s != [] {
      var n := |s| - 1;
      SortedSeqOk(s[..n], x);
      InsertSorted(SortedSeq(s[..n]), s[n]);
      InsertOcc(SortedSeq(s[..n]), s[n], x);
      OccShift(s, 0, s[..n], n, x);
    }
  }

  /** s with the elements of t from place lo on. */
  function Patch(s: seq<int>, lo: nat, t: seq<int>): (r: seq<int>)
    requires lo + |t| <= |s|
    ensures |r| == |s|
  {
    s[..lo] + t + s[lo + |t|..]
  }

  /** The elements lo, ..., up - 1 are sorted, and nothing else changes. */
  function Qsorted(s: seq<int>, lo: nat, up: nat): seq<int>
    requires lo <= up <= |s|
  {
    Patch(s, lo, SortedSeq(s[lo..up]))
  }

  lemma QsortedOk(s: seq<int>, lo: nat, up: nat)
    requires lo <= up <= |s|
    ensures var t := Qsorted(s, lo, up);
      Sorted(t, lo, up) && Permuted(t, s, lo, up) && SameOutside(s, t, lo, up)
  {
    var t, q := Qsorted(s, lo, up), SortedSeq(s[lo..up]);
    assert forall k: nat :: k < up - lo ==> Elem(t, lo + k) == Elem(q, k);
    SortedSeqOk(s[lo..up], 0);
    forall i: nat, j: nat | lo <= i <= j < up
      ensures Elem(t, i) <= Elem(t, j)
    {
      assert Elem(t, lo + (i - lo)) == Elem(q, i - lo) && Elem(t, lo + (j - lo)) == Elem(q, j - lo);
    }
    forall x: int
      ensures OccKept(t, s, lo, up, x)
    {
      SortedSeqOk(s[lo..up], x);
      OccShift(t, lo, q, up - lo, x);
      OccShift(s, lo, s[lo..up], up - lo, x);
    }
  }
}
