/** The sequential loops of the sort/merge network: quicksort with arbitrary pivots, and the merge of two halves. */
module QuickSort {
  import opened Ranges
  import opened MergeNetworkSorts

  lemma {:induction false} OccUpdate(s: seq<int>, i: nat, v: int, lo: nat, up: nat, x: int)
    requires i < |s|
    ensures Occ(s[i := v], lo, up, x)
         == Occ(s, lo, up, x) + if lo <= i < up then (if v == x then 1 else 0) - (if s[i] == x then 1 else 0) else 0
    decreases up
  {
    if lo < up {
      OccUpdate(s, i, v, lo, up - 1, x);
    }
  }

  function Swapped(s: seq<int>, i: nat, k: nat): seq<int>
    requires i < |s| && k < |s|
  {
    s[i := s[k]][k := s[i]]
  }

  lemma SwapPermutes(s: seq<int>, i: nat, k: nat, lo: nat, up: nat)
    requires lo <= i < up <= |s| && lo <= k < up
    ensures Permuted(Swapped(s, i, k), s, lo, up) && SameOutside(s, Swapped(s, i, k), lo, up)
  {
    forall x: int
      ensures OccKept(Swapped(s, i, k), s, lo, up, x)
    {
      OccUpdate(s, i, s[k], lo, up, x);
      OccUpdate(s[i := s[k]], k, s[i], lo, up, x);
    }
  }

  lemma PermutedTrans(s: seq<int>, t: seq<int>, u: seq<int>, lo: nat, up: nat)
    requires Permuted(s, t, lo, up) && Permuted(t, u, lo, up)
    ensures Permuted(s, u, lo, up)
  {
    forall x: int
      ensures OccKept(s, u, lo, up, x)
    {
      assert OccKept(s, t, lo, up, x) && OccKept(t, u, lo, up, x);
    }
  }

  /** Permuting a part, and nothing else, permutes the whole. */
  lemma PermutedPart(s: seq<int>, t: seq<int>, lo: nat, mid1: nat, mid2: nat, up: nat)
    requires lo <= mid1 <= mid2 <= up && Permuted(t, s, mid1, mid2) && SameOutside(s, t, mid1, mid2)
    ensures Permuted(t, s, lo, up)
  {
    forall x: int
      ensures OccKept(t, s, lo, up, x)
    {
      assert OccKept(t, s, mid1, mid2, x);
      OccSplit(s, lo, mid1, up, x);
      OccSplit(t, lo, mid1, up, x);
      OccSplit(s, mid1, mid2, up, x);
      OccSplit(t, mid1, mid2, up, x);
      OccSame(s, t, lo, mid1, x);
      OccSame(s, t, mid2, up, x);
    }
  }

  lemma PermutedBounds(s: seq<int>, t: seq<int>, lo: nat, up: nat, v: int)
    requires Permuted(t, s, lo, up)
    ensures AllBelow(s, lo, up, v) ==> AllBelow(t, lo, up, v)
    ensures AllAbove(s, lo, up, v) ==> AllAbove(t, lo, up, v)
  {
    forall k: nat | lo <= k < up
      ensures exists i: nat :: lo <= i < up && Elem(s, i) == Elem(t, k)
    {
      OccFound(t, lo, up, k);
      assert OccKept(t, s, lo, up, Elem(t, k));
      var i := FindOcc(s, lo, up, Elem(t, k));
    }
  }

  /** What the loop of `partition` has arranged: [left, store) is at most v and [store, i) is more. */
  ghost predicate PartitionedTo(s: seq<int>, left: nat, store: nat, i: nat, v: int) {
    && left <= store <= i
    && AllBelow(s, left, store, v)
    && (forall k: nat :: store <= k < i ==> Elem(s, k) > v)
  }

  lemma PartitionStep(s: seq<int>, left: nat, store: nat, i: nat, right: nat, v: int)
    requires PartitionedTo(s, left, store, i, v) && i < right < |s| && Elem(s, right) == v
    ensures Elem(s, i) <= v ==>
      PartitionedTo(Swapped(s, i, store), left, store + 1, i + 1, v) && Elem(Swapped(s, i, store), right) == v
    ensures Elem(s, i) > v ==> PartitionedTo(s, left, store, i + 1, v)
  {
    var t := Swapped(s, i, store);
    SwapAffects(s, i, store);
    if Elem(s, i) <= v {
      forall k: nat | left <= k < store + 1
        ensures Elem(t, k) <= v
      {
        assert k < store ==> Elem(s, k) <= v;
      }
      forall k: nat | store + 1 <= k < i + 1
        ensures Elem(t, k) > v
      {
        assert Elem(s, if k == i then store else k) > v;
      }
    }
  }

  lemma SwapAffects(s: seq<int>, i: nat, k: nat)
    requires i < |s| && k < |s|
    ensures forall p: nat :: Elem(Swapped(s, i, k), p) == Elem(s, if p == i then k else if p == k then i else p)
  {
  }

  /** `partition` */
  method Partition(a: array<int>, left: nat, right: nat, pivotIndex: nat) returns (store: nat)
    requires left <= pivotIndex <= right < a.Length
    modifies a
    ensures left <= store <= right
    ensures AllBelow(a[..], left, store, a[store]) && AllAbove(a[..], store + 1, right + 1, a[store])
    ensures Permuted(a[..], old(a[..]), left, right + 1) && SameOutside(old(a[..]), a[..], left, right + 1)
  {
    var v := a[pivotIndex];
    SwapAt(a, pivotIndex, right, left, right + 1);
    store := left;
    for i := left to right
      invariant PartitionedTo(a[..], left, store, i, v) && Elem(a[..], right) == v
      invariant Permuted(a[..], old(a[..]), left, right + 1) && SameOutside(old(a[..]), a[..], left, right + 1)
    {
      PartitionStep(a[..], left, store, i, right, v);
      if a[i] <= v {
        ghost var before := a[..];
        SwapAt(a, i, store, left, right + 1);
        PermutedTrans(a[..], before, old(a[..]), left, right + 1);
        store := store + 1;
      }
    }
    ghost var before := a[..];
    SwapAt(a, store, right, left, right + 1);
    SwapAffects(before, store, right);
    PermutedTrans(a[..], before, old(a[..]), left, right + 1);
    forall k: nat | store + 1 <= k < right + 1
      ensures v <= Elem(a[..], k)
    {
      assert Elem(before, if k == right then store else k) >= v;
    }
  }

  /** `swap` */
  method SwapAt(a: array<int>, i: nat, k: nat, ghost lo: nat, ghost up: nat)
    requires lo <= i < up <= a.Length && lo <= k < up
    modifies a
    ensures a[..] == Swapped(old(a[..]), i, k)
    ensures Permuted(a[..], old(a[..]), lo, up) && SameOutside(old(a[..]), a[..], lo, up)
  {
    SwapPermutes(a[..], i, k, lo, up);
    var c := a[i];
    a[i] := a[k];
    a[k] := c;
  }

  /** `quicksort` of the inclusive range left..right: the pivot index may be any in [left, right). */
  method Quicksort(a: array<int>, left: nat, right: int)
    requires left <= right + 1 <= a.Length
    modifies a
    ensures Sorted(a[..], left, right + 1)
    ensures Permuted(a[..], old(a[..]), left, right + 1) && SameOutside(old(a[..]), a[..], left, right + 1)
    decreases right - left
  {
    if left < right {
      var pivotIndex :| left <= pivotIndex < right;
      var p: int := Partition(a, left, right, pivotIndex);
      ghost var s0 := a[..];
      Quicksort(a, left, p - 1);
      ghost var s1 := a[..];
      Quicksort(a, p + 1, right);
      ghost var s2 := a[..];
      Halves(s0, s1, s2, left, p, right + 1);
      PermutedTrans(s2, s0, old(a[..]), left, right + 1);
    }
  }

  /** Sorting both sides of the pivot sorts the whole. */
  lemma Halves(s0: seq<int>, s1: seq<int>, s2: seq<int>, left: nat, p: nat, up: nat)
    requires left <= p < up
    requires AllBelow(s0, left, p, Elem(s0, p)) && AllAbove(s0, p + 1, up, Elem(s0, p))
    requires Sorted(s1, left, p) && Permuted(s1, s0, left, p) && SameOutside(s0, s1, left, p)
    requires Sorted(s2, p + 1, up) && Permuted(s2, s1, p + 1, up) && SameOutside(s1, s2, p + 1, up)
    ensures Sorted(s2, left, up) && Permuted(s2, s0, left, up)
  {
    var v := Elem(s0, p);
    PermutedBounds(s0, s1, left, p, v);
    PermutedBounds(s1, s2, p + 1, up, v);
    PermutedPart(s0, s1, left, left, p, up);
    PermutedPart(s1, s2, left, p + 1, up, up);
    PermutedTrans(s2, s1, s0, left, up);
    SortedJoin(s2, left, p, up);
  }

  /** There is only one sorted permutation: whatever pivots are drawn, the result is that of SortedSeq. */
  lemma {:induction false} SortedUnique(s: seq<int>, t: seq<int>, lo: nat, up: nat)
    requires Sorted(s, lo, up) && Sorted(t, lo, up) && Permuted(s, t, lo, up)
    ensures Agree(s, t, lo, up)
    decreases up
  {
    if lo < up {
      var x, y := Elem(s, up - 1), Elem(t, up - 1);
      OccFound(s, lo, up, up - 1);
      OccFound(t, lo, up, up - 1);
      assert OccKept(s, t, lo, up, x) && OccKept(s, t, lo, up, y);
      var i := FindOcc(t, lo, up, x);
      var k := FindOcc(s, lo, up, y);
      assert x <= y && y <= x;
      var less: nat := up - 1;
      forall v: int
        ensures OccKept(s, t, lo, less, v)
      {
        assert OccKept(s, t, lo, up, v);
      }
      SortedUnique(s, t, lo, up - 1);
    }
  }

  /** `merge::fire`: the two halves of inp are merged into out, from the given offsets on. */
  method FireMerge(inp: array<int>, io: nat, out: array<int>, oo: nat, size: nat)
    requires inp != out && io + size <= inp.Length && oo + size <= out.Length
    modifies out
    ensures out[oo..oo + size] == MergeHalves(inp[io..io + size])
    ensures out[..oo] == old(out[..oo]) && out[oo + size..] == old(out[oo + size..])
  {
    var half := size / 2;
    ghost var s, line := inp[io..io + size], out[..];
    var j: nat, k: nat := 0, half;
    for i := 0 to size
      invariant j <= half <= k <= size && i == j + (k - half)
      invariant MergedSoFar(s, half, j, k, line, out[..], oo)
    {
      j, k := MergeIteration(inp, io, out, oo, size, half, line, i, j, k);
    }
  }

  /** The body of the loop of `merge::fire`. */
  method MergeIteration(inp: array<int>, io: nat, out: array<int>, oo: nat, size: nat, half: nat, ghost line: seq<int>, i: nat,
                        j: nat, k: nat)
    returns (j': nat, k': nat)
    requires inp != out && io + size <= inp.Length && oo + size <= out.Length && i < size
    requires j <= half <= k <= size && i == j + (k - half)
    requires MergedSoFar(inp[io..io + size], half, j, k, line, out[..], oo)
    modifies out
    ensures j' <= half <= k' <= size && i + 1 == j' + (k' - half)
    ensures MergedSoFar(inp[io..io + size], half, j', k', line, out[..], oo)
  {
    ghost var s := inp[io..io + size];
    MergeStep(s, j, half, k);
    var v;
    if j < half && k < size {
      if inp[io + j] < inp[io + k] {
        v, j', k' := inp[io + j], j + 1, k;
      } else {
        v, j', k' := inp[io + k], j, k + 1;
      }
    } else if j < half {
      v, j', k' := inp[io + j], j + 1, k;
    } else {
      v, j', k' := inp[io + k], j, k + 1;
    }
    PutNext(s, half, j, k, line, out, oo, j', k', oo + i, v);
  }

  /** j + k - half elements have been written from oo on, and the rest is to be merged. */
  ghost predicate MergedSoFar(s: seq<int>, half: nat, j: nat, k: nat, before: seq<int>, out: seq<int>, oo: nat) {
    && j <= half <= k <= |s| && |out| == |before| && oo + |s| <= |out|
    && out[oo..oo + (j + k - half)] + MergeTwo(s[j..half], s[k..]) == MergeTwo(s[..half], s[half..])
    && out[..oo] == before[..oo] && out[oo + |s|..] == before[oo + |s|..]
  }

  lemma WriteNext(s: seq<int>, half: nat, j: nat, k: nat, before: seq<int>, out: seq<int>, oo: nat, j': nat, k': nat, v: int)
    requires MergedSoFar(s, half, j, k, before, out, oo) && j' <= half <= k' <= |s| && j' + k' == j + k + 1
    requires MergeTwo(s[j..half], s[k..]) == [v] + MergeTwo(s[j'..half], s[k'..])
    ensures oo + (j + k - half) < |out|
    ensures MergedSoFar(s, half, j', k', before, out[oo + (j + k - half) := v], oo)
  {
    var n := j + k - half;
    var out' := out[oo + n := v];
    assert out'[oo..oo + n + 1] == out[oo..oo + n] + [v];
    assert (out[oo..oo + n] + [v]) + MergeTwo(s[j'..half], s[k'..]) == out[oo..oo + n] + ([v] + MergeTwo(s[j'..half], s[k'..]));
  }

  /** One assignment of the loop. */
  method PutNext(ghost s: seq<int>, ghost half: nat, ghost j: nat, ghost k: nat, ghost before: seq<int>, out: array<int>,
                 ghost oo: nat, ghost j': nat, ghost k': nat, p: nat, v: int)
    requires MergedSoFar(s, half, j, k, before, out[..], oo) && j' <= half <= k' <= |s| && j' + k' == j + k + 1
    requires MergeTwo(s[j..half], s[k..]) == [v] + MergeTwo(s[j'..half], s[k'..]) && p == oo + (j + k - half)
    modifies out
    ensures MergedSoFar(s, half, j', k', before, out[..], oo)
  {
    WriteNext(s, half, j, k, before, out[..], oo, j', k', v);
    out[p] := v;
  }

  /** The next element of a merge and what remains. */
  lemma MergeStep(s: seq<int>, j: nat, half: nat, k: nat)
    requires j <= half <= k <= |s| && (j < half || k < |s|)
    ensures j < half && (k == |s| || s[j] < s[k]) ==> MergeTwo(s[j..half], s[k..]) == [s[j]] + MergeTwo(s[j + 1..half], s[k..])
    ensures !(j < half && (k == |s| || s[j] < s[k])) ==> k < |s| && MergeTwo(s[j..half], s[k..]) == [s[k]] + MergeTwo(s[j..half], s[k + 1..])
  {
    if j < half {
      assert s[j..half][1..] == s[j + 1..half];
    }
    if k < |s| {
      assert s[k..][1..] == s[k + 1..];
    }
  }
}
