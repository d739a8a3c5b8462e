/** The parallel merge: under every schedule the destination ends sorted, holds the elements of both
    sources, and every place is written exactly once. */
module ForkJoinMerge {
  import opened SyncSlots
  import opened Ranges
  import opened MergeLoops
  import opened ForkJoin

  ghost predicate JobOk(j: Job, m: Mem, side: bool) {
    && JobFits(j, Arr(m, !side), Arr(m, side))
    && Sorted(Arr(m, !side), j.lo1, j.up1) && Sorted(Arr(m, !side), j.lo2, j.up2)
  }

  /** The result of a merge. */
  ghost predicate Merged(j: Job, m: Mem, side: bool)
    requires JobOk(j, m, side)
  {
    && Sorted(Arr(m, side), j.lo3, End(j))
    && Joined(Arr(m, !side), j.lo1, j.up1, j.lo2, j.up2, Arr(m, side), j.lo3, End(j))
  }

  /** Both stretches are divided around the pivot, which is in its place. */
  ghost predicate Divided(j: Job, mid1: nat, mid2: nat, m: Mem, side: bool) {
    var src := Arr(m, !side);
    && j.lo1 <= mid1 < j.up1 && j.lo2 <= mid2 <= j.up2
    && AllBelow(src, j.lo2, mid2, Elem(src, mid1)) && AllAbove(src, mid2, j.up2, Elem(src, mid1))
    && Elem(Arr(m, side), Pivot(j, mid1, mid2)) == Elem(src, mid1)
  }

  function Unfinished(t: Task): nat {
    if t.Finished? then 0 else 1
  }

  /** The counter of a sync codelet tells how many children have not finished, and it is enabled when that is none. */
  ghost predicate SyncOk(l: Task, r: Task, dep: nat, enabled: bool) {
    dep == Unfinished(l) + Unfinished(r) && (enabled <==> dep == 0)
  }

  ghost predicate MergeOk(t: Task, j: Job, m: Mem, side: bool)
    decreases t
  {
    && JobOk(j, m, side)
    && match t
       case Finished => Merged(j, m, side)
       case MergeReady(j') => j' == j
       case Merging(j', i1, i2, i3) =>
         j' == Ordered(j) && MergedTo(j', Arr(m, !side), Arr(m, side), i1, i2, i3)
       case MergeJoin(j', mid1, mid2, l, r, dep, enabled) =>
         && j' == Ordered(j) && Divided(j', mid1, mid2, m, side) && SyncOk(l, r, dep, enabled)
         && MergeOk(l, Lower(j', mid1, mid2), m, side) && MergeOk(r, Upper(j', mid1, mid2), m, side)
       case _ => false
  }

  // Frames

  /** What a merge reads and what it has written are unchanged. */
  ghost predicate SameJob(j: Job, m: Mem, m': Mem, side: bool) {
    && Same(Arr(m, !side), Arr(m', !side), j.lo1, j.up1) && Same(Arr(m, !side), Arr(m', !side), j.lo2, j.up2)
    && End(j) >= 0 && Same(Arr(m, side), Arr(m', side), j.lo3, End(j))
  }

  /** Only the destination of j may differ. */
  ghost predicate Within(j: Job, m: Mem, m': Mem, side: bool) {
    Arr(m', !side) == Arr(m, !side) && End(j) >= 0 && SameOutside(Arr(m, side), Arr(m', side), j.lo3, End(j))
  }

  lemma OrderedOk(j: Job, m: Mem, side: bool)
    requires JobOk(j, m, side)
    ensures JobOk(Ordered(j), m, side) && End(Ordered(j)) == End(j)
    ensures Merged(Ordered(j), m, side) ==> Merged(j, m, side)
  {
    var src, dst, k := Arr(m, !side), Arr(m, side), Ordered(j);
    if Merged(k, m, side) {
      forall x: int
        ensures OccAdds(src, j.lo1, j.up1, j.lo2, j.up2, dst, j.lo3, End(j), x)
      {
        assert OccAdds(src, k.lo1, k.up1, k.lo2, k.up2, dst, k.lo3, End(k), x);
      }
    }
  }

  lemma SameJobOk(j: Job, m: Mem, m': Mem, side: bool)
    requires JobOk(j, m, side) && SameJob(j, m, m', side)
    ensures JobOk(j, m', side)
    ensures Merged(j, m, side) ==> Merged(j, m', side)
  {
    if Merged(j, m, side) {
      JoinedSame(Arr(m, !side), Arr(m', !side), j.lo1, j.up1, j.lo2, j.up2, Arr(m, side), Arr(m', side), j.lo3, End(j));
    }
  }

  lemma MergingFrame(j: Job, m: Mem, m': Mem, side: bool, i1: nat, i2: nat, i3: nat)
    requires JobOk(j, m, side) && SameJob(j, m, m', side) && MergedTo(j, Arr(m, !side), Arr(m, side), i1, i2, i3)
    ensures MergedTo(j, Arr(m', !side), Arr(m', side), i1, i2, i3)
  {
    JoinedSame(Arr(m, !side), Arr(m', !side), j.lo1, i1, j.lo2, i2, Arr(m, side), Arr(m', side), j.lo3, i3);
  }

  /** The destinations of the two halves lie on both sides of the pivot's place. */
  lemma Halves(j: Job, mid1: nat, mid2: nat)
    requires j.lo1 <= mid1 < j.up1 && j.lo2 <= mid2 <= j.up2
    ensures var a, b := Lower(j, mid1, mid2), Upper(j, mid1, mid2);
      && a.lo3 == j.lo3 && End(a) == Pivot(j, mid1, mid2) < b.lo3 == Pivot(j, mid1, mid2) + 1 && End(b) == End(j)
      && Length(a) >= 0 && Length(b) >= 0 && Length(a) + Length(b) + 1 == Length(j)
  {
  }

  lemma SubJobs(j: Job, mid1: nat, mid2: nat, m: Mem, m': Mem, side: bool)
    requires j.lo1 <= mid1 < j.up1 && j.lo2 <= mid2 <= j.up2 && SameJob(j, m, m', side)
    ensures SameJob(Lower(j, mid1, mid2), m, m', side) && SameJob(Upper(j, mid1, mid2), m, m', side)
  {
    Halves(j, mid1, mid2);
  }

  lemma DividedFrame(j: Job, mid1: nat, mid2: nat, m: Mem, m': Mem, side: bool)
    requires Divided(j, mid1, mid2, m, side) && SameJob(j, m, m', side)
    ensures Divided(j, mid1, mid2, m', side)
  {
    Halves(j, mid1, mid2);
  }

  lemma OrderedSame(j: Job, m: Mem, m': Mem, side: bool)
    requires SameJob(j, m, m', side)
    ensures SameJob(Ordered(j), m, m', side)
  {
  }

  lemma {:induction false} MergeFrame(t: Task, j: Job, m: Mem, m': Mem, side: bool)
    requires MergeOk(t, j, m, side) && SameJob(j, m, m', side)
    ensures MergeOk(t, j, m', side)
    decreases t
  {
    SameJobOk(j, m, m', side);
    OrderedSame(j, m, m', side);
    match t
    case Merging(j', i1, i2, i3) =>
      OrderedOk(j, m, side);
      MergingFrame(j', m, m', side, i1, i2, i3);
    case MergeJoin(j', mid1, mid2, l, r, dep, enabled) =>
      DividedFrame(j', mid1, mid2, m, m', side);
      SubJobs(j', mid1, mid2, m, m', side);
      MergeFrame(l, Lower(j', mid1, mid2), m, m', side);
      MergeFrame(r, Upper(j', mid1, mid2), m, m', side);
    case _ =>
  }

  // Steps

  lemma PutWithin(j: Job, m: Mem, side: bool, i: nat, v: int)
    requires JobFits(j, Arr(m, !side), Arr(m, side)) && j.lo3 <= i < End(j)
    ensures Within(j, m, Put(m, side, i, v), side) && Arr(Put(m, side, i, v), side) == Arr(m, side)[i := v]
  {
  }

  /** Writing within the destination leaves the job's sources sorted. */
  lemma WithinOk(j: Job, m: Mem, m': Mem, side: bool)
    requires JobOk(j, m, side) && Within(j, m, m', side)
    ensures JobOk(j, m', side)
  {
  }

  lemma FireLeaf(cut: Cutoffs, j: Job, m: Mem, side: bool)
    requires JobOk(j, m, side) && Length(Ordered(j)) <= cut.merge
    ensures var u := FireMerge(cut, j, m, side); MergeOk(u.0, j, u.1, side) && u.1 == m
  {
    var k := Ordered(j);
    OrderedOk(j, m, side);
    assert MergedTo(k, Arr(m, !side), Arr(m, side), k.lo1, k.lo2, k.lo3);
  }

  lemma FireFork(cut: Cutoffs, j: Job, m: Mem, side: bool)
    requires JobOk(j, m, side) && Length(Ordered(j)) > cut.merge
    ensures var u := FireMerge(cut, j, m, side); MergeOk(u.0, j, u.1, side) && Within(j, m, u.1, side)
  {
    var k, src := Ordered(j), Arr(m, !side);
    OrderedOk(j, m, side);
    SplitKeeps(k, m, side);
    var mid1 := Middle(k.lo1, k.up1);
    var mid2 := Search(src, k.lo2, k.up2, Elem(src, mid1));
    WithinOk(j, m, Put(m, side, Pivot(k, mid1, mid2), Elem(src, mid1)), side);
  }

  /** Splitting around the middle of the longer stretch. */
  lemma SplitKeeps(k: Job, m: Mem, side: bool)
    requires JobOk(k, m, side) && k.lo1 < k.up1
    ensures var src := Arr(m, !side);
      var mid1 := Middle(k.lo1, k.up1);
      var mid2 := Search(src, k.lo2, k.up2, Elem(src, mid1));
      var m' := Put(m, side, Pivot(k, mid1, mid2), Elem(src, mid1));
      && Divided(k, mid1, mid2, m', side) && Within(k, m, m', side)
      && JobOk(Lower(k, mid1, mid2), m', side) && JobOk(Upper(k, mid1, mid2), m', side)
  {
    var src := Arr(m, !side);
    var mid1 := Middle(k.lo1, k.up1);
    var mid2 := Search(src, k.lo2, k.up2, Elem(src, mid1));
    SearchDivides(src, k.lo2, k.up2, Elem(src, mid1));
    Halves(k, mid1, mid2);
    PutWithin(k, m, side, Pivot(k, mid1, mid2), Elem(src, mid1));
  }

  lemma CopyKeeps(j: Job, i1: nat, i2: nat, i3: nat, m: Mem, side: bool)
    requires JobOk(j, m, side) && MergedTo(j, Arr(m, !side), Arr(m, side), i1, i2, i3)
    ensures var u := CopyOne(j, i1, i2, i3, m, side);
      && Within(j, m, u.1, side)
      && (u.0.Finished? ==> Merged(j, m, side) && u.1 == m)
      && (!u.0.Finished? ==>
            && u.0.Merging? && u.0.j == j
            && MergedTo(j, Arr(u.1, !side), Arr(u.1, side), u.0.i1, u.0.i2, u.0.i3))
  {
    if i1 >= j.up1 && i2 >= j.up2 {
      AllMerged(j, Arr(m, !side), Arr(m, side), i3);
    } else {
      MergeOne(j, Arr(m, !side), Arr(m, side), i1, i2, i3);
    }
  }

  /** Joining: the merged halves around the pivot are the merge. */
  lemma JoinKeeps(j: Job, mid1: nat, mid2: nat, m: Mem, side: bool)
    requires JobOk(j, m, side) && Divided(j, mid1, mid2, m, side)
    requires JobOk(Lower(j, mid1, mid2), m, side) && Merged(Lower(j, mid1, mid2), m, side)
    requires JobOk(Upper(j, mid1, mid2), m, side) && Merged(Upper(j, mid1, mid2), m, side)
    ensures Merged(j, m, side)
  {
    var src, dst, mid3 := Arr(m, !side), Arr(m, side), Pivot(j, mid1, mid2);
    var v := Elem(src, mid1);
    Halves(j, mid1, mid2);
    BelowFromParts(src, j.lo1, mid1, j.lo2, mid2, dst, j.lo3, mid3, v);
    AboveFromParts(src, mid1 + 1, j.up1, mid2, j.up2, dst, mid3 + 1, End(j), v);
    SortedJoin(dst, j.lo3, mid3, End(j));
    JoinAroundPivot(src, j.lo1, mid1, j.up1, j.lo2, mid2, j.up2, dst, j.lo3, mid3, End(j));
  }

  /** A child's writes do not reach its sibling, nor the pivot. */
  lemma LowerWithin(j: Job, mid1: nat, mid2: nat, m: Mem, m': Mem, side: bool)
    requires Divided(j, mid1, mid2, m, side) && Within(Lower(j, mid1, mid2), m, m', side)
    ensures SameJob(Upper(j, mid1, mid2), m, m', side) && Divided(j, mid1, mid2, m', side) && Within(j, m, m', side)
  {
    Halves(j, mid1, mid2);
  }

  lemma UpperWithin(j: Job, mid1: nat, mid2: nat, m: Mem, m': Mem, side: bool)
    requires Divided(j, mid1, mid2, m, side) && Within(Upper(j, mid1, mid2), m, m', side)
    ensures SameJob(Lower(j, mid1, mid2), m, m', side) && Divided(j, mid1, mid2, m', side) && Within(j, m, m', side)
  {
    Halves(j, mid1, mid2);
  }

  lemma UpperStepped(t: Task, j: Job, m: Mem, side: bool, r: Task, m': Mem)
    requires MergeOk(t, j, m, side) && t.MergeJoin? && !t.r.Finished?
    requires MergeOk(r, Upper(t.j, t.mid1, t.mid2), m', side) && Within(Upper(t.j, t.mid1, t.mid2), m, m', side)
    ensures Within(j, m, m', side)
    ensures MergeOk(MergeJoin(t.j, t.mid1, t.mid2, t.l, r, DepAfter(t.r, r, t.dep), EnabledAfter(t.r, r, t.dep, t.enabled)),
                    j, m', side)
  {
    OrderedOk(j, m, side);
    UpperWithin(t.j, t.mid1, t.mid2, m, m', side);
    MergeFrame(t.l, Lower(t.j, t.mid1, t.mid2), m, m', side);
    WithinOk(j, m, m', side);
  }

  lemma LowerStepped(t: Task, j: Job, m: Mem, side: bool, l: Task, m': Mem)
    requires MergeOk(t, j, m, side) && t.MergeJoin? && !t.l.Finished?
    requires MergeOk(l, Lower(t.j, t.mid1, t.mid2), m', side) && Within(Lower(t.j, t.mid1, t.mid2), m, m', side)
    ensures Within(j, m, m', side)
    ensures MergeOk(MergeJoin(t.j, t.mid1, t.mid2, l, t.r, DepAfter(t.l, l, t.dep), EnabledAfter(t.l, l, t.dep, t.enabled)),
                    j, m', side)
  {
    OrderedOk(j, m, side);
    LowerWithin(t.j, t.mid1, t.mid2, m, m', side);
    MergeFrame(t.r, Upper(t.j, t.mid1, t.mid2), m, m', side);
    WithinOk(j, m, m', side);
  }

  /** Every move of every node keeps the tree's invariant and writes into the destination only. */
  lemma {:induction false} MergeStepKeeps(cut: Cutoffs, t: Task, j: Job, m: Mem, side: bool, path: seq<bool>)
    requires MergeOk(t, j, m, side) && Fireable(t, path)
    ensures var u := MergeStep(cut, t, m, side, path); MergeOk(u.0, j, u.1, side) && Within(j, m, u.1, side)
    decreases t
  {
    match t
    case MergeReady(_) =>
      if Length(Ordered(j)) <= cut.merge { FireLeaf(cut, j, m, side); } else { FireFork(cut, j, m, side); }
    case Merging(j', i1, i2, i3) =>
      OrderedOk(j, m, side);
      CopyKeeps(j', i1, i2, i3, m, side);
      WithinOk(j, m, CopyOne(j', i1, i2, i3, m, side).1, side);
    case MergeJoin(j', mid1, mid2, l, r, _, _) =>
      if path == [] {
        OrderedOk(j, m, side);
        JoinKeeps(j', mid1, mid2, m, side);
      } else if path[0] {
        MergeStepKeeps(cut, r, Upper(j', mid1, mid2), m, side, path[1..]);
        var u := MergeStep(cut, r, m, side, path[1..]);
        UpperStepped(t, j, m, side, u.0, u.1);
      } else {
        MergeStepKeeps(cut, l, Lower(j', mid1, mid2), m, side, path[1..]);
        var u := MergeStep(cut, l, m, side, path[1..]);
        LowerStepped(t, j, m, side, u.0, u.1);
      }
    case _ =>
  }

  // Every place is written once

  /** How often the merge has written place p so far. */
  ghost function Written(t: Task, j: Job, p: nat): nat
    decreases t
  {
    match t
    case Finished => if j.lo3 <= p < End(j) then 1 else 0
    case Merging(_, _, _, i3) => if j.lo3 <= p < i3 then 1 else 0
    case MergeJoin(j', mid1, mid2, l, r, _, _) =>
      (if p == Pivot(j', mid1, mid2) then 1 else 0) + Written(l, Lower(j', mid1, mid2), p) + Written(r, Upper(j', mid1, mid2), p)
    case _ => 0
  }

  lemma CountAppend(log: seq<nat>, i: nat, p: nat)
    ensures Count(log + [i], p) == Count(log, p) + if i == p then 1 else 0
  {
    assert (log + [i])[..|log|] == log;
  }

  ghost predicate Accounted(before: Task, m: Mem, after: Task, m': Mem, j: Job, p: nat) {
    Count(m'.log, p) + Written(before, j, p) == Count(m.log, p) + Written(after, j, p)
  }

  lemma FireAccounted(cut: Cutoffs, j: Job, m: Mem, side: bool, p: nat)
    requires JobOk(j, m, side)
    ensures var u := FireMerge(cut, j, m, side); Accounted(MergeReady(j), m, u.0, u.1, j, p)
  {
    var k, src := Ordered(j), Arr(m, !side);
    OrderedOk(j, m, side);
    if Length(k) > cut.merge {
      SplitKeeps(k, m, side);
      var mid1 := Middle(k.lo1, k.up1);
      var mid2 := Search(src, k.lo2, k.up2, Elem(src, mid1));
      Halves(k, mid1, mid2);
      CountAppend(m.log, Pivot(k, mid1, mid2), p);
    }
  }

  lemma CopyAccounted(j: Job, j0: Job, i1: nat, i2: nat, i3: nat, m: Mem, side: bool, p: nat)
    requires JobOk(j, m, side) && MergedTo(j, Arr(m, !side), Arr(m, side), i1, i2, i3) && j0.lo3 == j.lo3 && End(j0) == End(j)
    ensures var u := CopyOne(j, i1, i2, i3, m, side); Accounted(Merging(j, i1, i2, i3), m, u.0, u.1, j0, p)
  {
    CountAppend(m.log, i3, p);
    if i1 < j.up1 || i2 < j.up2 {
      MergeOne(j, Arr(m, !side), Arr(m, side), i1, i2, i3);
    }
  }

  lemma JoinAccounted(j: Job, j': Job, mid1: nat, mid2: nat, m: Mem, side: bool, dep: nat, enabled: bool, p: nat)
    requires j'.lo3 == j.lo3 && End(j') == End(j) && Divided(j', mid1, mid2, m, side)
    ensures Accounted(MergeJoin(j', mid1, mid2, Finished, Finished, dep, enabled), m, Finished, m, j, p)
  {
    Halves(j', mid1, mid2);
  }

  lemma {:induction false} WritesAccounted(cut: Cutoffs, t: Task, j: Job, m: Mem, side: bool, path: seq<bool>, p: nat)
    requires MergeOk(t, j, m, side) && Fireable(t, path)
    ensures var u := MergeStep(cut, t, m, side, path); Accounted(t, m, u.0, u.1, j, p)
    decreases t
  {
    match t
    case MergeReady(_) => FireAccounted(cut, j, m, side, p);
    case Merging(j', i1, i2, i3) =>
      OrderedOk(j, m, side);
      CopyAccounted(j', j, i1, i2, i3, m, side, p);
    case MergeJoin(j', mid1, mid2, l, r, _, _) =>
      if path == [] {
        OrderedOk(j, m, side);
        JoinAccounted(j, j', mid1, mid2, m, side, t.dep, t.enabled, p);
      } else if path[0] {
        WritesAccounted(cut, r, Upper(j', mid1, mid2), m, side, path[1..], p);
      } else {
        WritesAccounted(cut, l, Lower(j', mid1, mid2), m, side, path[1..], p);
      }
    case _ =>
  }

  // Runs

  /** The invariant of a whole merge that started with memory m0. */
  ghost predicate MergeStateOk(st: State, j: Job, m0: Mem, side: bool) {
    && MergeOk(st.t, j, st.m, side) && Within(j, m0, st.m, side)
    && st.signals == 1 - Unfinished(st.t)
    && (forall p: nat :: Accounted(MergeReady(j), m0, st.t, st.m, j, p))
  }

  lemma MergeStateKeeps(cut: Cutoffs, st: State, j: Job, m0: Mem, side: bool, path: seq<bool>)
    requires MergeStateOk(st, j, m0, side) && Fireable(st.t, path)
    ensures MergeStateOk(After(st, MergeStep(cut, st.t, st.m, side, path)), j, m0, side)
  {
    var u := MergeStep(cut, st.t, st.m, side, path);
    MergeStepKeeps(cut, st.t, j, st.m, side, path);
    forall p: nat
      ensures Accounted(MergeReady(j), m0, u.0, u.1, j, p)
    {
      WritesAccounted(cut, st.t, j, st.m, side, path, p);
      assert Accounted(MergeReady(j), m0, st.t, st.m, j, p);
    }
  }

  lemma {:induction false} MergeRunKeeps(cut: Cutoffs, side: bool, from: State, moves: seq<seq<bool>>, to: State, j: Job, m0: Mem)
    requires MergeStateOk(from, j, m0, side) && MergeRun(cut, side, from, moves, to)
    ensures MergeStateOk(to, j, m0, side)
    decreases |moves|
  {
    if moves != [] {
      MergeStateKeeps(cut, from, j, m0, side, moves[0]);
      MergeRunKeeps(cut, side, After(from, MergeStep(cut, from.t, from.m, side, moves[0])), moves[1..], to, j, m0);
    }
  }

  /** Every schedule of the tasks of one merge of two sorted stretches: the root's final codelet is signalled at most
      once, and when it has been, the destination is sorted and holds the elements of both stretches, each of its places
      has been written exactly once, and nothing else has been written. */
  lemma EveryScheduleMerges(cut: Cutoffs, side: bool, j: Job, m0: Mem, moves: seq<seq<bool>>, to: State)
    requires JobOk(j, m0, side) && m0.log == []
    requires MergeRun(cut, side, State(MergeReady(j), m0, 0), moves, to)
    ensures to.signals <= 1 && Within(j, m0, to.m, side)
    ensures to.signals == 1 ==> JobOk(j, to.m, side) && Merged(j, to.m, side)
    ensures to.signals == 1 ==> forall p: nat :: Count(to.m.log, p) == if j.lo3 <= p < End(j) then 1 else 0
  {
    MergeRunKeeps(cut, side, State(MergeReady(j), m0, 0), moves, to, j, m0);
    if to.signals == 1 {
      forall p: nat
        ensures Count(to.m.log, p) == if j.lo3 <= p < End(j) then 1 else 0
      {
        assert Accounted(MergeReady(j), m0, to.t, to.m, j, p);
      }
    }
  }
}
