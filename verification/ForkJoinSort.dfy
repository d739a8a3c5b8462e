/** The merge sort with exchanged buffers: under every schedule its range of the source array ends as the sorted
    permutation of what it held. */
module ForkJoinSort {
  import opened SyncSlots
  import opened Ranges
  import opened MergeLoops
  import opened ForkJoin
  import opened ForkJoinMerge

  // The tree's invariant

  ghost predicate Bounded(lo: nat, up: nat, m: Mem) {
    lo <= up <= |m.a| && up <= |m.b|
  }

  /** The merge that `MergeSortSync::fire` starts. */
  function BackMerge(lo: nat, up: nat): Job {
    Job(lo, Middle(lo, up) + 1, Middle(lo, up) + 1, up, lo)
  }

  ghost predicate SortOk(t: Task, lo: nat, up: nat, side: bool, m: Mem, orig: seq<int>)
    decreases t
  {
    && Bounded(lo, up, m)
    && match t
       case Finished => Sorted(Arr(m, side), lo, up) && Permuted(Arr(m, side), orig, lo, up)
       case SortReady(lo', up', side') =>
         && lo' == lo && up' == up && side' == side
         && Agree(Arr(m, side), orig, lo, up) && Agree(Arr(m, !side), orig, lo, up)
       case SortJoin(lo', up', side', l, r, dep, enabled) =>
         && lo' == lo && up' == up && side' == side && lo < up && SyncOk(l, r, dep, enabled)
         && SortOk(l, lo, Middle(lo, up) + 1, !side, m, orig) && SortOk(r, Middle(lo, up) + 1, up, !side, m, orig)
       case SortMerging(lo', up', side', merge) =>
         && lo' == lo && up' == up && side' == side && lo < up && !merge.Finished?
         && MergeOk(merge, BackMerge(lo, up), m, side)
         && Permuted(Arr(m, !side), orig, lo, Middle(lo, up) + 1) && Permuted(Arr(m, !side), orig, Middle(lo, up) + 1, up)
       case _ => false
  }

  // Frames

  ghost predicate SameBoth(m: Mem, m': Mem, lo: nat, up: nat) {
    Same(m.a, m'.a, lo, up) && Same(m.b, m'.b, lo, up)
  }

  ghost predicate WithinBoth(m: Mem, m': Mem, lo: nat, up: nat) {
    SameOutside(m.a, m'.a, lo, up) && SameOutside(m.b, m'.b, lo, up)
  }

  lemma PermutedFrame(s: seq<int>, s': seq<int>, orig: seq<int>, lo: nat, up: nat)
    requires Permuted(s, orig, lo, up) && Agree(s, s', lo, up)
    ensures Permuted(s', orig, lo, up)
  {
    forall x: int
      ensures OccKept(s', orig, lo, up, x)
    {
      assert OccKept(s, orig, lo, up, x);
      OccSame(s, s', lo, up, x);
    }
  }

  lemma PermutedJoin(s: seq<int>, orig: seq<int>, lo: nat, mid: nat, up: nat, t: seq<int>)
    requires lo <= mid <= up && Permuted(s, orig, lo, mid) && Permuted(s, orig, mid, up)
    requires Joined(s, lo, mid, mid, up, t, lo, up)
    ensures Permuted(t, orig, lo, up)
  {
    forall x: int
      ensures OccKept(t, orig, lo, up, x)
    {
      assert OccKept(s, orig, lo, mid, x) && OccKept(s, orig, mid, up, x) && OccAdds(s, lo, mid, mid, up, t, lo, up, x);
      OccSplit(orig, lo, mid, up, x);
    }
  }

  lemma MiddleWithin(lo: nat, up: nat)
    requires lo < up
    ensures lo <= Middle(lo, up) < up && (lo + 1 < up ==> Middle(lo, up) + 1 < up)
  {
  }

  lemma {:induction false} SortFrame(t: Task, lo: nat, up: nat, side: bool, m: Mem, m': Mem, orig: seq<int>)
    requires SortOk(t, lo, up, side, m, orig) && SameBoth(m, m', lo, up)
    ensures SortOk(t, lo, up, side, m', orig)
    decreases t, 1
  {
    match t
    case Finished => PermutedFrame(Arr(m, side), Arr(m', side), orig, lo, up);
    case SortJoin(_, _, _, _, _, _, _) => JoinFrames(t, lo, up, side, m, m', orig);
    case SortMerging(_, _, _, merge) => MergingFrames(merge, lo, up, side, m, m', orig);
    case _ =>
  }

  lemma JoinFrames(t: Task, lo: nat, up: nat, side: bool, m: Mem, m': Mem, orig: seq<int>)
    requires SortOk(t, lo, up, side, m, orig) && SameBoth(m, m', lo, up) && t.SortJoin?
    ensures SortOk(t, lo, up, side, m', orig)
    decreases t, 0
  {
    MiddleWithin(lo, up);
    SortFrame(t.l, lo, Middle(lo, up) + 1, !side, m, m', orig);
    SortFrame(t.r, Middle(lo, up) + 1, up, !side, m, m', orig);
  }

  lemma MergingFrames(merge: Task, lo: nat, up: nat, side: bool, m: Mem, m': Mem, orig: seq<int>)
    requires SortOk(SortMerging(lo, up, side, merge), lo, up, side, m, orig) && SameBoth(m, m', lo, up)
    ensures SortOk(SortMerging(lo, up, side, merge), lo, up, side, m', orig)
  {
    MiddleWithin(lo, up);
    PermutedFrame(Arr(m, !side), Arr(m', !side), orig, lo, Middle(lo, up) + 1);
    PermutedFrame(Arr(m, !side), Arr(m', !side), orig, Middle(lo, up) + 1, up);
    MergeFrame(merge, BackMerge(lo, up), m, m', side);
  }

  // Steps

  lemma FireSortKeeps(cut: Cutoffs, lo: nat, up: nat, side: bool, m: Mem, orig: seq<int>)
    requires SortOk(SortReady(lo, up, side), lo, up, side, m, orig)
    ensures var u := FireSort(cut, lo, up, side, m);
      SortOk(u.0, lo, up, side, u.1, orig) && WithinBoth(m, u.1, lo, up)
  {
    if up - lo <= cut.sort {
      var s := Arr(m, side);
      var t := Qsorted(s, lo, up);
      QsortedOk(s, lo, up);
      forall x: int
        ensures OccKept(t, orig, lo, up, x)
      {
        assert OccKept(t, s, lo, up, x);
        OccSame(s, orig, lo, up, x);
      }
    } else {
      MiddleWithin(lo, up);
    }
  }

  /** `MergeSortSync::fire`: both halves are sorted in the other array. */
  lemma FireSyncKeeps(lo: nat, up: nat, side: bool, l: Task, r: Task, dep: nat, m: Mem, orig: seq<int>)
    requires SortOk(SortJoin(lo, up, side, l, r, dep, true), lo, up, side, m, orig)
    ensures SortOk(SortMerging(lo, up, side, MergeReady(BackMerge(lo, up))), lo, up, side, m, orig)
  {
    MiddleWithin(lo, up);
    assert l.Finished? && r.Finished?;
  }

  lemma UpperSorted(t: Task, lo: nat, up: nat, side: bool, m: Mem, orig: seq<int>, r: Task, m': Mem)
    requires SortOk(t, lo, up, side, m, orig) && t.SortJoin? && !t.r.Finished?
    requires SortOk(r, Middle(lo, up) + 1, up, !side, m', orig) && WithinBoth(m, m', Middle(lo, up) + 1, up)
    ensures SortOk(SortJoin(lo, up, side, t.l, r, DepAfter(t.r, r, t.dep), EnabledAfter(t.r, r, t.dep, t.enabled)),
                   lo, up, side, m', orig)
    ensures WithinBoth(m, m', lo, up)
  {
    MiddleWithin(lo, up);
    SortFrame(t.l, lo, Middle(lo, up) + 1, !side, m, m', orig);
  }

  lemma LowerSorted(t: Task, lo: nat, up: nat, side: bool, m: Mem, orig: seq<int>, l: Task, m': Mem)
    requires SortOk(t, lo, up, side, m, orig) && t.SortJoin? && !t.l.Finished?
    requires SortOk(l, lo, Middle(lo, up) + 1, !side, m', orig) && WithinBoth(m, m', lo, Middle(lo, up) + 1)
    ensures SortOk(SortJoin(lo, up, side, l, t.r, DepAfter(t.l, l, t.dep), EnabledAfter(t.l, l, t.dep, t.enabled)),
                   lo, up, side, m', orig)
    ensures WithinBoth(m, m', lo, up)
  {
    MiddleWithin(lo, up);
    SortFrame(t.r, Middle(lo, up) + 1, up, !side, m, m', orig);
  }

  lemma MergingSorted(cut: Cutoffs, lo: nat, up: nat, side: bool, merge: Task, m: Mem, orig: seq<int>, path: seq<bool>)
    requires SortOk(SortMerging(lo, up, side, merge), lo, up, side, m, orig) && Fireable(merge, path)
    ensures var u := MergeStep(cut, merge, m, side, path);
      && WithinBoth(m, u.1, lo, up)
      && SortOk(if u.0.Finished? then Finished else SortMerging(lo, up, side, u.0), lo, up, side, u.1, orig)
  {
    var u, mid := MergeStep(cut, merge, m, side, path), Middle(lo, up) + 1;
    MiddleWithin(lo, up);
    MergeStepKeeps(cut, merge, BackMerge(lo, up), m, side, path);
    PermutedFrame(Arr(m, !side), Arr(u.1, !side), orig, lo, mid);
    PermutedFrame(Arr(m, !side), Arr(u.1, !side), orig, mid, up);
    if u.0.Finished? {
      PermutedJoin(Arr(u.1, !side), orig, lo, mid, up, Arr(u.1, side));
    }
  }

  /** Every move of every node keeps the tree's invariant, and touches its own range of the two arrays only. */
  lemma {:induction false} SortStepKeeps(cut: Cutoffs, t: Task, lo: nat, up: nat, side: bool, m: Mem, orig: seq<int>, path: seq<bool>)
    requires SortOk(t, lo, up, side, m, orig) && Fireable(t, path)
    ensures var u := SortStep(cut, t, m, path);
      SortOk(u.0, lo, up, side, u.1, orig) && WithinBoth(m, u.1, lo, up)
    decreases t, 1
  {
    match t
    case SortReady(_, _, _) => FireSortKeeps(cut, lo, up, side, m, orig);
    case SortJoin(_, _, _, l, r, dep, _) =>
      if path == [] {
        FireSyncKeeps(lo, up, side, l, r, dep, m, orig);
      } else {
        ChildStepKeeps(cut, t, lo, up, side, m, orig, path);
      }
    case SortMerging(_, _, _, merge) => MergingSorted(cut, lo, up, side, merge, m, orig, path[1..]);
    case _ =>
  }

  lemma ChildStepKeeps(cut: Cutoffs, t: Task, lo: nat, up: nat, side: bool, m: Mem, orig: seq<int>, path: seq<bool>)
    requires SortOk(t, lo, up, side, m, orig) && Fireable(t, path) && t.SortJoin? && path != []
    ensures var u := SortStep(cut, t, m, path);
      SortOk(u.0, lo, up, side, u.1, orig) && WithinBoth(m, u.1, lo, up)
    decreases t, 0
  {
    if path[0] {
      SortStepKeeps(cut, t.r, Middle(lo, up) + 1, up, !side, m, orig, path[1..]);
      var u := SortStep(cut, t.r, m, path[1..]);
      UpperSorted(t, lo, up, side, m, orig, u.0, u.1);
    } else {
      SortStepKeeps(cut, t.l, lo, Middle(lo, up) + 1, !side, m, orig, path[1..]);
      var u := SortStep(cut, t.l, m, path[1..]);
      LowerSorted(t, lo, up, side, m, orig, u.0, u.1);
    }
  }

  // Runs

  ghost predicate SortStateOk(st: State, lo: nat, up: nat, side: bool, m0: Mem, orig: seq<int>) {
    SortOk(st.t, lo, up, side, st.m, orig) && WithinBoth(m0, st.m, lo, up) && st.signals == 1 - Unfinished(st.t)
  }

  lemma SortStateKeeps(cut: Cutoffs, st: State, lo: nat, up: nat, side: bool, m0: Mem, orig: seq<int>, path: seq<bool>)
    requires SortStateOk(st, lo, up, side, m0, orig) && Fireable(st.t, path)
    ensures SortStateOk(After(st, SortStep(cut, st.t, st.m, path)), lo, up, side, m0, orig)
  {
    SortStepKeeps(cut, st.t, lo, up, side, st.m, orig, path);
  }

  lemma {:induction false} SortRunKeeps(cut: Cutoffs, from: State, moves: seq<seq<bool>>, to: State, lo: nat, up: nat, side: bool,
                                        m0: Mem, orig: seq<int>)
    requires SortStateOk(from, lo, up, side, m0, orig) && SortRun(cut, from, moves, to)
    ensures SortStateOk(to, lo, up, side, m0, orig)
    decreases |moves|
  {
    if moves != [] {
      SortStateKeeps(cut, from, lo, up, side, m0, orig, moves[0]);
      SortRunKeeps(cut, After(from, SortStep(cut, from.t, from.m, moves[0])), moves[1..], to, lo, up, side, m0, orig);
    }
  }

  /** Every schedule of a merge sort whose two arrays agree on the range at entry: the root's final codelet is signalled
      at most once, and when it has been, the range of src is the sorted permutation of what it held.
      Nothing outside the range is ever touched in either array. */
  lemma EveryScheduleSorts(cut: Cutoffs, lo: nat, up: nat, side: bool, m0: Mem, moves: seq<seq<bool>>, to: State)
    requires lo <= up <= |m0.a| && up <= |m0.b| && Agree(m0.a, m0.b, lo, up)
    requires SortRun(cut, State(SortReady(lo, up, side), m0, 0), moves, to)
    ensures to.signals <= 1 && WithinBoth(m0, to.m, lo, up)
    ensures to.signals == 1 ==>
      && Sorted(Arr(to.m, side), lo, up)
      && multiset(Arr(to.m, side)[lo..up]) == multiset(Arr(m0, side)[lo..up])
  {
    var orig := Arr(m0, side);
    SortRunKeeps(cut, State(SortReady(lo, up, side), m0, 0), moves, to, lo, up, side, m0, orig);
    if to.signals == 1 {
      var s := Arr(to.m, side);
      forall x: int
        ensures multiset(s[lo..up])[x] == multiset(orig[lo..up])[x]
      {
        assert OccKept(s, orig, lo, up, x);
        OccIsMultiset(s, lo, up, x);
        OccIsMultiset(orig, lo, up, x);
      }
    }
  }
}
