/** The sequential loops of the parallel merge: merging two sorted stretches, and binary search. */
module MergeLoops {
  import opened Ranges

  /** The two stretches and the place of their merge; src and dst are different arrays. */
  datatype Job = Job(lo1: nat, up1: nat, lo2: nat, up2: nat, lo3: nat)

  ghost predicate JobFits(j: Job, src: seq<int>, dst: seq<int>) {
    j.lo1 <= j.up1 <= |src| && j.lo2 <= j.up2 <= |src| && End(j) <= |dst|
  }

  function Length(j: Job): int {
    (j.up1 - j.lo1) + (j.up2 - j.lo2)
  }

  /** The first place behind the merged elements. */
  function End(j: Job): int {
    j.lo3 + Length(j)
  }

  /** i1 and i2 elements have been taken, and lie merged before i3. */
  ghost predicate MergedTo(j: Job, src: seq<int>, dst: seq<int>, i1: nat, i2: nat, i3: nat) {
    && j.lo1 <= i1 <= j.up1 && j.lo2 <= i2 <= j.up2 && i3 == j.lo3 + (i1 - j.lo1) + (i2 - j.lo2)
    && Sorted(dst, j.lo3, i3)
    && Joined(src, j.lo1, i1, j.lo2, i2, dst, j.lo3, i3)
    && (i1 < j.up1 ==> AllBelow(dst, j.lo3, i3, Elem(src, i1)))
    && (i2 < j.up2 ==> AllBelow(dst, j.lo3, i3, Elem(src, i2)))
  }

  /** The next element comes from the first stretch. */
  function TakesFirst(j: Job, src: seq<int>, i1: nat, i2: nat): bool {
    i1 < j.up1 && (i2 >= j.up2 || Elem(src, i1) < Elem(src, i2))
  }

  lemma MergeOne(j: Job, src: seq<int>, dst: seq<int>, i1: nat, i2: nat, i3: nat)
    requires JobFits(j, src, dst) && Sorted(src, j.lo1, j.up1) && Sorted(src, j.lo2, j.up2)
    requires MergedTo(j, src, dst, i1, i2, i3) && (i1 < j.up1 || i2 < j.up2)
    ensures i3 < End(j) && i3 < |dst|
    ensures TakesFirst(j, src, i1, i2) ==> MergedTo(j, src, dst[i3 := Elem(src, i1)], i1 + 1, i2, i3 + 1)
    ensures !TakesFirst(j, src, i1, i2) ==> i2 < j.up2 && MergedTo(j, src, dst[i3 := Elem(src, i2)], i1, i2 + 1, i3 + 1)
  {
    var first := TakesFirst(j, src, i1, i2);
    var v := Elem(src, if first then i1 else i2);
    var dst' := dst[i3 := v];
    var i1', i2', i3': nat := if first then i1 + 1 else i1, if first then i2 else i2 + 1, i3 + 1;
    assert Same(dst, dst', j.lo3, i3);
    forall x: int
      ensures OccAdds(src, j.lo1, i1', j.lo2, i2', dst', j.lo3, i3', x)
    {
      assert OccAdds(src, j.lo1, i1, j.lo2, i2, dst, j.lo3, i3, x);
      OccSame(dst, dst', j.lo3, i3, x);
    }
  }

  lemma AllMerged(j: Job, src: seq<int>, dst: seq<int>, i3: nat)
    requires MergedTo(j, src, dst, j.up1, j.up2, i3)
    ensures i3 == End(j) && Sorted(dst, j.lo3, i3) && Joined(src, j.lo1, j.up1, j.lo2, j.up2, dst, j.lo3, i3)
  {
  }

  /** One assignment of `merge`: the smaller of the two next elements is copied. */
  method Take(src: array<int>, ghost j: Job, dst: array<int>, ghost before: seq<int>, ghost i1: nat, ghost i2: nat,
              i3: nat, from: nat, ghost first: bool)
    requires src != dst && JobFits(j, src[..], dst[..])
    requires Sorted(src[..], j.lo1, j.up1) && Sorted(src[..], j.lo2, j.up2)
    requires MergedTo(j, src[..], dst[..], i1, i2, i3) && SameOutside(before, dst[..], j.lo3, End(j))
    requires (i1 < j.up1 || i2 < j.up2) && first == TakesFirst(j, src[..], i1, i2) && from == if first then i1 else i2
    modifies dst
    ensures MergedTo(j, src[..], dst[..], if first then i1 + 1 else i1, if first then i2 else i2 + 1, i3 + 1)
    ensures SameOutside(before, dst[..], j.lo3, End(j))
  {
    MergeOne(j, src[..], dst[..], i1, i2, i3);
    assert src[from] == Elem(src[..], from);
    dst[i3] := src[from];
  }

  /** The first loop of `merge`: elements remain on both sides. */
  method MergeBoth(src: array<int>, j: Job, dst: array<int>) returns (i1: nat, i2: nat, i3: nat)
    requires src != dst && JobFits(j, src[..], dst[..])
    requires Sorted(src[..], j.lo1, j.up1) && Sorted(src[..], j.lo2, j.up2)
    modifies dst
    ensures MergedTo(j, src[..], dst[..], i1, i2, i3) && (i1 == j.up1 || i2 == j.up2)
    ensures SameOutside(old(dst[..]), dst[..], j.lo3, End(j))
  {
    ghost var before := dst[..];
    i1, i2, i3 := j.lo1, j.lo2, j.lo3;
    while i1 < j.up1 && i2 < j.up2
      invariant MergedTo(j, src[..], dst[..], i1, i2, i3) && SameOutside(before, dst[..], j.lo3, End(j))
    {
      if src[i1] < src[i2] {
        Take(src, j, dst, before, i1, i2, i3, i1, true);
        i1 := i1 + 1;
      } else {
        Take(src, j, dst, before, i1, i2, i3, i2, false);
        i2 := i2 + 1;
      }
      i3 := i3 + 1;
    }
  }

  /** `merge` */
  method MergeStretches(src: array<int>, j: Job, dst: array<int>)
    requires src != dst && JobFits(j, src[..], dst[..])
    requires Sorted(src[..], j.lo1, j.up1) && Sorted(src[..], j.lo2, j.up2)
    modifies dst
    ensures Sorted(dst[..], j.lo3, End(j))
    ensures Joined(src[..], j.lo1, j.up1, j.lo2, j.up2, dst[..], j.lo3, End(j))
    ensures SameOutside(old(dst[..]), dst[..], j.lo3, End(j))
  {
    ghost var before := dst[..];
    var i1: nat, i2: nat, i3: nat := MergeBoth(src, j, dst);
    while i1 < j.up1
      invariant MergedTo(j, src[..], dst[..], i1, i2, i3) && SameOutside(before, dst[..], j.lo3, End(j))
      invariant i1 == j.up1 || i2 == j.up2
    {
      Take(src, j, dst, before, i1, i2, i3, i1, true);
      i1, i3 := i1 + 1, i3 + 1;
    }
    while i2 < j.up2
      invariant MergedTo(j, src[..], dst[..], i1, i2, i3) && SameOutside(before, dst[..], j.lo3, End(j))
      invariant i1 == j.up1
    {
      Take(src, j, dst, before, i1, i2, i3, i2, false);
      i2, i3 := i2 + 1, i3 + 1;
    }
    AllMerged(j, src[..], dst[..], i3);
  }

  /** The place that `bin_search` finds. */
  function Search(s: seq<int>, lo: nat, up: nat, v: int): (r: nat)
    ensures lo <= up ==> lo <= r <= up
    decreases up - lo
  {
    if lo < up then
      var mid := (lo + up) / 2;
      if Elem(s, mid) < v then Search(s, mid + 1, up, v) else Search(s, lo, mid, v)
    else up
  }

  /** It divides a sorted stretch into what is less than v and what is not. */
  lemma {:induction false} SearchDivides(s: seq<int>, lo: nat, up: nat, v: int)
    requires lo <= up && Sorted(s, lo, up)
    ensures var r := Search(s, lo, up, v);
      && (forall k: nat :: lo <= k < r ==> Elem(s, k) < v)
      && (forall k: nat :: r <= k < up ==> v <= Elem(s, k))
    decreases up - lo
  {
    if lo < up {
      var mid := (lo + up) / 2;
      if Elem(s, mid) < v {
        SearchDivides(s, mid + 1, up, v);
      } else {
        SearchDivides(s, lo, mid, v);
      }
    }
  }

  /** `bin_search` on the inclusive range lo..hi, which may be empty. */
  method BinSearch(a: array<int>, lo: nat, hi: int, elem: int) returns (r: nat)
    requires -1 <= hi < a.Length
    ensures r == Search(a[..], lo, if lo > hi + 1 then lo else hi + 1, elem)
  {
    var l, h: nat := lo, if lo > hi + 1 then lo else hi + 1;
    while l < h
      invariant lo <= l <= h && (h > lo ==> h <= a.Length)
      invariant Search(a[..], l, h, elem) == Search(a[..], lo, if lo > hi + 1 then lo else hi + 1, elem)
      decreases h - l
    {
      var mid: nat := (l + h) / 2;
      assert Elem(a[..], mid) == a[mid];
      if a[mid] < elem {
        l := mid + 1;
      } else {
        h := mid;
      }
    }
    r := h;
  }
}
