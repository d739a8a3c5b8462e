/** The fork-join merge sort never gets stuck, and every schedule comes to an end. */
module ForkJoinProgress {
  import opened SyncSlots
  import opened Ranges
  import opened MergeLoops
  import opened ForkJoin
  import opened ForkJoinMerge
  import opened ForkJoinSort

  /** An unfinished merge has a node that can move. */
  lemma {:induction false} MergeCanMove(t: Task, j: Job, m: Mem, side: bool) returns (path: seq<bool>)
    requires MergeOk(t, j, m, side) && !t.Finished?
    ensures Fireable(t, path)
    decreases t
  {
    path := [];
    if t.MergeJoin? && !t.enabled {
      if !t.l.Finished? {
        var p := MergeCanMove(t.l, Lower(t.j, t.mid1, t.mid2), m, side);
        path := [false] + p;
        assert path[1..] == p;
      } else {
        var p := MergeCanMove(t.r, Upper(t.j, t.mid1, t.mid2), m, side);
        path := [true] + p;
        assert path[1..] == p;
      }
    }
  }

  /** An unfinished merge sort has a node that can move. */
  lemma {:induction false} SortCanMove(t: Task, lo: nat, up: nat, side: bool, m: Mem, orig: seq<int>) returns (path: seq<bool>)
    requires SortOk(t, lo, up, side, m, orig) && !t.Finished?
    ensures Fireable(t, path)
    decreases t
  {
    path := [];
    if t.SortMerging? {
      var p := MergeCanMove(t.m, BackMerge(lo, up), m, side);
      path := [true] + p;
      assert path[1..] == p;
    } else if t.SortJoin? && !t.enabled {
      if !t.l.Finished? {
        var p := SortCanMove(t.l, lo, Middle(lo, up) + 1, !side, m, orig);
        path := [false] + p;
        assert path[1..] == p;
      } else {
        var p := SortCanMove(t.r, Middle(lo, up) + 1, up, !side, m, orig);
        path := [true] + p;
        assert path[1..] == p;
      }
    }
  }

  /** An upper bound on the moves that a merge still makes. */
  function MergeWork(t: Task): int
    decreases t
  {
    match t
    case MergeReady(j) => 4 * Length(j) + 2
    case Merging(j, i1, i2, _) => (j.up1 - i1) + (j.up2 - i2) + 1
    case MergeJoin(_, _, _, l, r, _, _) => MergeWork(l) + MergeWork(r) + 1
    case _ => 0
  }

  lemma {:induction false} MergeWorkNat(t: Task, j: Job, m: Mem, side: bool)
    requires MergeOk(t, j, m, side)
    ensures MergeWork(t) >= 0 && (!t.Finished? ==> MergeWork(t) > 0)
    decreases t
  {
    if t.MergeJoin? {
      MergeWorkNat(t.l, Lower(t.j, t.mid1, t.mid2), m, side);
      MergeWorkNat(t.r, Upper(t.j, t.mid1, t.mid2), m, side);
    }
  }

  lemma FireWork(cut: Cutoffs, j: Job, m: Mem, side: bool)
    requires JobOk(j, m, side)
    ensures MergeWork(FireMerge(cut, j, m, side).0) < MergeWork(MergeReady(j))
  {
    var k, src := Ordered(j), Arr(m, !side);
    OrderedOk(j, m, side);
    if Length(k) > cut.merge {
      SplitKeeps(k, m, side);
      var mid1 := Middle(k.lo1, k.up1);
      Halves(k, mid1, Search(src, k.lo2, k.up2, Elem(src, mid1)));
    }
  }

  lemma {:induction false} MergeWorkDecreases(cut: Cutoffs, t: Task, j: Job, m: Mem, side: bool, path: seq<bool>)
    requires MergeOk(t, j, m, side) && Fireable(t, path)
    ensures MergeWork(MergeStep(cut, t, m, side, path).0) < MergeWork(t)
    decreases t
  {
    match t
    case MergeReady(_) => FireWork(cut, j, m, side);
    case MergeJoin(j', mid1, mid2, l, r, _, _) =>
      if path != [] {
        if path[0] {
          MergeWorkDecreases(cut, r, Upper(j', mid1, mid2), m, side, path[1..]);
        } else {
          MergeWorkDecreases(cut, l, Lower(j', mid1, mid2), m, side, path[1..]);
        }
      }
    case _ =>
  }

  lemma {:induction false} MergeRunLength(cut: Cutoffs, side: bool, from: State, moves: seq<seq<bool>>, to: State, j: Job, m0: Mem)
    requires MergeStateOk(from, j, m0, side) && MergeRun(cut, side, from, moves, to)
    ensures |moves| <= MergeWork(from.t)
    decreases |moves|
  {
    if moves == [] {
      MergeWorkNat(from.t, j, from.m, side);
    } else {
      MergeWorkDecreases(cut, from.t, j, from.m, side, moves[0]);
      MergeStateKeeps(cut, from, j, m0, side, moves[0]);
      MergeRunLength(cut, side, After(from, MergeStep(cut, from.t, from.m, side, moves[0])), moves[1..], to, j, m0);
    }
  }

  /** Nothing is left to move. */
  ghost predicate Ended(t: Task) {
    forall path: seq<bool> :: !Fireable(t, path)
  }

  /** Every schedule of a merge comes to an end, whatever the cutoff, and it cannot be continued if and only if the final
      codelet has been signalled: once, and by its last move. */
  lemma EveryMergeEnds(cut: Cutoffs, side: bool, j: Job, m0: Mem, moves: seq<seq<bool>>, to: State)
    requires JobOk(j, m0, side) && MergeRun(cut, side, State(MergeReady(j), m0, 0), moves, to)
    ensures |moves| <= 4 * Length(j) + 2 && to.signals <= 1
    ensures to.signals == 1 <==> Ended(to.t)
  {
    MergeRunLength(cut, side, State(MergeReady(j), m0, 0), moves, to, j, m0);
    MergeRunKeeps(cut, side, State(MergeReady(j), m0, 0), moves, to, j, m0);
    if to.signals == 0 {
      var next := MergeCanMove(to.t, j, to.m, side);
    }
  }

  /** The same bound for a merge sort of up - lo elements; with CUTOFF_SORT = 0 there is none. */
  function SortBudget(cut: Cutoffs, lo: nat, up: nat): int
    decreases up - lo
  {
    if up - lo <= cut.sort || up - lo <= 1 then 1
    else SortBudget(cut, lo, Middle(lo, up) + 1) + SortBudget(cut, Middle(lo, up) + 1, up) + 4 * (up - lo) + 5
  }

  function SortWork(cut: Cutoffs, t: Task): int
    decreases t
  {
    match t
    case SortReady(lo, up, _) => SortBudget(cut, lo, up)
    case SortJoin(lo, up, _, l, r, _, _) => SortWork(cut, l) + SortWork(cut, r) + 4 * (up - lo) + 4
    case SortMerging(_, _, _, m) => MergeWork(m) + 1
    case _ => 0
  }

  lemma {:induction false} SortWorkDecreases(cut: Cutoffs, t: Task, lo: nat, up: nat, side: bool, m: Mem, orig: seq<int>, path: seq<bool>)
    requires SortOk(t, lo, up, side, m, orig) && Fireable(t, path) && cut.sort >= 1
    ensures SortWork(cut, SortStep(cut, t, m, path).0) < SortWork(cut, t)
    decreases t
  {
    match t
    case SortJoin(_, _, _, l, r, _, _) =>
      if path != [] {
        if path[0] {
          SortWorkDecreases(cut, r, Middle(lo, up) + 1, up, !side, m, orig, path[1..]);
        } else {
          SortWorkDecreases(cut, l, lo, Middle(lo, up) + 1, !side, m, orig, path[1..]);
        }
      } else {
        MiddleWithin(lo, up);
        assert l.Finished? && r.Finished?;
      }
    case SortMerging(_, _, _, merge) =>
      MergeWorkDecreases(cut, merge, BackMerge(lo, up), m, side, path[1..]);
      MergeStepKeeps(cut, merge, BackMerge(lo, up), m, side, path[1..]);
      MergeWorkNat(merge, BackMerge(lo, up), m, side);
    case _ =>
  }

  lemma {:induction false} SortWorkNat(cut: Cutoffs, t: Task, lo: nat, up: nat, side: bool, m: Mem, orig: seq<int>)
    requires SortOk(t, lo, up, side, m, orig)
    ensures SortWork(cut, t) >= 0
    decreases t
  {
    match t
    case SortReady(_, _, _) => BudgetNat(cut, lo, up);
    case SortJoin(_, _, _, l, r, _, _) =>
      SortWorkNat(cut, l, lo, Middle(lo, up) + 1, !side, m, orig);
      SortWorkNat(cut, r, Middle(lo, up) + 1, up, !side, m, orig);
    case SortMerging(_, _, _, merge) => MergeWorkNat(merge, BackMerge(lo, up), m, side);
    case _ =>
  }

  lemma {:induction false} BudgetNat(cut: Cutoffs, lo: nat, up: nat)
    ensures SortBudget(cut, lo, up) >= 1
    decreases up - lo
  {
    if up - lo > cut.sort && up - lo > 1 {
      BudgetNat(cut, lo, Middle(lo, up) + 1);
      BudgetNat(cut, Middle(lo, up) + 1, up);
    }
  }

  lemma {:induction false} RunLength(cut: Cutoffs, from: State, moves: seq<seq<bool>>, to: State, lo: nat, up: nat, side: bool, m0: Mem,
                                     orig: seq<int>)
    requires SortStateOk(from, lo, up, side, m0, orig) && SortRun(cut, from, moves, to) && cut.sort >= 1
    ensures |moves| <= SortWork(cut, from.t)
    decreases |moves|
  {
    if moves == [] {
      SortWorkNat(cut, from.t, lo, up, side, from.m, orig);
    } else {
      SortWorkDecreases(cut, from.t, lo, up, side, from.m, orig, moves[0]);
      SortStateKeeps(cut, from, lo, up, side, m0, orig, moves[0]);
      RunLength(cut, After(from, SortStep(cut, from.t, from.m, moves[0])), moves[1..], to, lo, up, side, m0, orig);
    }
  }

  /** With CUTOFF_SORT >= 1 no schedule is longer than the budget, and it cannot be continued if and only if the final
      codelet has been signalled: every maximal schedule ends with the range sorted. */
  lemma EveryScheduleEnds(cut: Cutoffs, lo: nat, up: nat, side: bool, m0: Mem, moves: seq<seq<bool>>, to: State)
    requires lo <= up <= |m0.a| && up <= |m0.b| && Agree(m0.a, m0.b, lo, up) && cut.sort >= 1
    requires SortRun(cut, State(SortReady(lo, up, side), m0, 0), moves, to)
    ensures |moves| <= SortBudget(cut, lo, up) && to.signals <= 1
    ensures to.signals == 1 <==> Ended(to.t)
  {
    var orig := Arr(m0, side);
    RunLength(cut, State(SortReady(lo, up, side), m0, 0), moves, to, lo, up, side, m0, orig);
    SortRunKeeps(cut, State(SortReady(lo, up, side), m0, 0), moves, to, lo, up, side, m0, orig);
    if to.signals == 0 {
      var next := SortCanMove(to.t, lo, up, side, to.m, orig);
    }
  }
}
