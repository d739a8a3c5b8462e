/** The codelets of the sort/merge network on the arrays: they do what the steps of MergeNetwork say. */
module MergeNetworkCodelets {
  import opened Ranges
  import opened MergeNetwork
  import opened MergeNetworkSorts
  import opened QuickSort

  /** Whatever pivots are drawn, a stretch that ends sorted and permuted is the sorted permutation. */
  lemma SortedIsQsorted(s: seq<int>, t: seq<int>, lo: nat, up: nat)
    requires lo <= up <= |s| && Sorted(t, lo, up) && Permuted(t, s, lo, up) && SameOutside(s, t, lo, up)
    ensures t == Qsorted(s, lo, up)
  {
    var r := Qsorted(s, lo, up);
    QsortedOk(s, lo, up);
    forall x: int
      ensures OccKept(t, r, lo, up, x)
    {
      assert OccKept(t, s, lo, up, x) && OccKept(r, s, lo, up, x);
    }
    SortedUnique(t, r, lo, up);
    forall k | 0 <= k < |s|
      ensures t[k] == r[k]
    {
      assert Elem(t, k) == Elem(r, k);
    }
  }

  /** `quick::fire` on the n places from lo on: the step of the quicksort codelet. */
  method FireQuick(inp: array<int>, ghost out: seq<int>, lo: nat, n: nat, ghost f: Kernel, ghost div: nat)
    requires lo + n <= inp.Length && IsBase(f) && LengthKeeping(f)
    modifies inp
    ensures (Quick(true), Mem(inp[..], out)) == Step(f, Quick(false), 0, div, lo, n, Mem(old(inp[..]), out), [])
  {
    ghost var s := inp[..];
    Quicksort(inp, lo, lo + n - 1);
    SortedIsQsorted(s, inp[..], lo, lo + n);
    assert BaseAt(f, s[lo..lo + n]);
  }

  /** The two arrays, of which a merge codelet reads src and writes dst. */
  function MemOf(toOut: bool, src: seq<int>, dst: seq<int>): Mem {
    if toOut then Mem(src, dst) else Mem(dst, src)
  }

  /** `merge::fire` on the n places from lo on: the step of the merge codelet, whichever array it writes. */
  method FireJoin(src: array<int>, dst: array<int>, lo: nat, n: nat, ghost f: Kernel, ghost t: Net, ghost depth: nat, ghost div: nat)
    requires src != dst && lo + n <= src.Length && lo + n <= dst.Length && IsBase(f) && LengthKeeping(f)
    requires t.Join? && Fireable(t, [])
    modifies dst
    ensures (Join(t.l, t.r, t.dep, t.enabled, true), MemOf(WritesOut(depth), src[..], dst[..]))
         == Step(f, t, depth, div, lo, n, MemOf(WritesOut(depth), src[..], old(dst[..])), [])
  {
    ghost var s, before := src[..], dst[..];
    FireMerge(src, lo, dst, lo, n);
    assert BaseAt(f, s[lo..lo + n]);
    assert dst[..] == dst[..lo] + dst[lo..lo + n] + dst[lo + n..];
    assert dst[..] == Patch(before, lo, MergeHalves(s[lo..lo + n]));
  }
}
