/** The fork-join merge sort as a tree of threaded procedures over two shared arrays.
    A move names a node of the tree by its path; it fires that node's codelet, or copies one element
    if the node is in the middle of a sequential merge. */
module ForkJoin {
  import opened SyncSlots
  import opened Ranges
  import opened MergeLoops

  /** The two arrays, and the places written by merges in the order of the writes (history that no step reads). */
  datatype Mem = Mem(a: seq<int>, b: seq<int>, log: seq<nat>)

  /** side: the array that receives the result is b. The joining nodes hold their sync codelet: its counter, and
      whether it has been enabled. */
  datatype Task =
    | Finished
    | MergeReady(j: Job)
    | Merging(j: Job, i1: nat, i2: nat, i3: nat)
    | MergeJoin(j: Job, mid1: nat, mid2: nat, l: Task, r: Task, dep: nat, enabled: bool)
    | SortReady(lo: nat, up: nat, side: bool)
    | SortJoin(lo: nat, up: nat, side: bool, l: Task, r: Task, dep: nat, enabled: bool)
    | SortMerging(lo: nat, up: nat, side: bool, m: Task)

  /** CUTOFF_MERGE and CUTOFF_SORT */
  datatype Cutoffs = Cutoffs(merge: nat, sort: nat)

  function Arr(m: Mem, side: bool): seq<int> {
    if side then m.b else m.a
  }

  function WithArr(m: Mem, side: bool, s: seq<int>): Mem {
    if side then m.(b := s) else m.(a := s)
  }

  /** A merge writes v to place i. */
  function Put(m: Mem, side: bool, i: nat, v: int): Mem {
    var s := Arr(m, side);
    if i < |s| then WithArr(m.(log := m.log + [i]), side, s[i := v]) else m
  }

  function Ordered(j: Job): Job {
    if j.up1 - j.lo1 < j.up2 - j.lo2 then Job(j.lo2, j.up2, j.lo1, j.up1, j.lo3) else j
  }

  /** (lo + hi) / 2 for the inclusive range lo..hi that ends before up */
  function Middle(lo: nat, up: nat): nat {
    if up > 0 then (lo + up - 1) / 2 else 0
  }

  function Pivot(j: Job, mid1: nat, mid2: nat): nat {
    if j.lo1 <= mid1 && j.lo2 <= mid2 then j.lo3 + (mid1 - j.lo1) + (mid2 - j.lo2) else 0
  }

  function Lower(j: Job, mid1: nat, mid2: nat): Job {
    Job(j.lo1, mid1, j.lo2, mid2, j.lo3)
  }

  function Upper(j: Job, mid1: nat, mid2: nat): Job {
    Job(mid1 + 1, j.up1, mid2, j.up2, Pivot(j, mid1, mid2) + 1)
  }

  /** `MergeSplit::fire` */
  function FireMerge(cut: Cutoffs, j0: Job, m: Mem, side: bool): (Task, Mem) {
    var j := Ordered(j0);
    if Length(j) <= cut.merge then
      (if j.up1 - j.lo1 != 0 then Merging(j, j.lo1, j.lo2, j.lo3) else Finished, m)
    else
      var src := Arr(m, !side);
      var mid1 := Middle(j.lo1, j.up1);
      var mid2 := Search(src, j.lo2, j.up2, Elem(src, mid1));
      (MergeJoin(j, mid1, mid2, MergeReady(Lower(j, mid1, mid2)), MergeReady(Upper(j, mid1, mid2)), 2, false),
       Put(m, side, Pivot(j, mid1, mid2), Elem(src, mid1)))
  }

  /** One iteration of one of the loops of `merge`. */
  function CopyOne(j: Job, i1: nat, i2: nat, i3: nat, m: Mem, side: bool): (Task, Mem) {
    var src := Arr(m, !side);
    if i1 >= j.up1 && i2 >= j.up2 then (Finished, m)
    else if TakesFirst(j, src, i1, i2) then (Merging(j, i1 + 1, i2, i3 + 1), Put(m, side, i3, Elem(src, i1)))
    else (Merging(j, i1, i2 + 1, i3 + 1), Put(m, side, i3, Elem(src, i2)))
  }

  /** `MergeSortSplit::fire`; the children work with the roles of the arrays exchanged. */
  function FireSort(cut: Cutoffs, lo: nat, up: nat, side: bool, m: Mem): (Task, Mem) {
    var s := Arr(m, side);
    if up - lo <= cut.sort then (Finished, if lo <= up <= |s| then WithArr(m, side, Qsorted(s, lo, up)) else m)
    else
      var mid := Middle(lo, up);
      (SortJoin(lo, up, side, SortReady(lo, mid + 1, !side), SortReady(mid + 1, up, !side), 2, false), m)
  }

  /** decDep on the sync codelet when a child finishes */
  function DepAfter(before: Task, after: Task, dep: nat): nat {
    if !before.Finished? && after.Finished? then Dec(dep) else dep
  }

  function EnabledAfter(before: Task, after: Task, dep: nat, enabled: bool): bool {
    enabled || (!before.Finished? && after.Finished? && Fires(dep))
  }

  /** A codelet at this path may be fired. */
  predicate Fireable(t: Task, path: seq<bool>)
    decreases t
  {
    match t
    case Finished => false
    case MergeReady(_) => path == []
    case Merging(_, _, _, _) => path == []
    case MergeJoin(_, _, _, l, r, _, enabled) =>
      if path == [] then enabled else if path[0] then Fireable(r, path[1..]) else Fireable(l, path[1..])
    case SortReady(_, _, _) => path == []
    case SortJoin(_, _, _, l, r, _, enabled) =>
      if path == [] then enabled else if path[0] then Fireable(r, path[1..]) else Fireable(l, path[1..])
    case SortMerging(_, _, _, m) => path != [] && Fireable(m, path[1..])
  }

  /** One move of a merge whose result goes to `side`. */
  function MergeStep(cut: Cutoffs, t: Task, m: Mem, side: bool, path: seq<bool>): (Task, Mem)
    requires Fireable(t, path)
    decreases t
  {
    match t
    case MergeReady(j) => FireMerge(cut, j, m, side)
    case Merging(j, i1, i2, i3) => CopyOne(j, i1, i2, i3, m, side)
    case MergeJoin(j, mid1, mid2, l, r, dep, enabled) =>
      if path == [] then (Finished, m)
      else if path[0] then
        var u := MergeStep(cut, r, m, side, path[1..]);
        (MergeJoin(j, mid1, mid2, l, u.0, DepAfter(r, u.0, dep), EnabledAfter(r, u.0, dep, enabled)), u.1)
      else
        var u := MergeStep(cut, l, m, side, path[1..]);
        (MergeJoin(j, mid1, mid2, u.0, r, DepAfter(l, u.0, dep), EnabledAfter(l, u.0, dep, enabled)), u.1)
    case _ => (t, m)
  }

  /** One move of a merge sort. When both halves are sorted, `MergeSortSync::fire` merges them back. */
  function SortStep(cut: Cutoffs, t: Task, m: Mem, path: seq<bool>): (Task, Mem)
    requires Fireable(t, path)
    decreases t
  {
    match t
    case SortReady(lo, up, side) => FireSort(cut, lo, up, side, m)
    case SortJoin(lo, up, side, l, r, dep, enabled) =>
      if path == [] then
        var mid := Middle(lo, up);
        (SortMerging(lo, up, side, MergeReady(Job(lo, mid + 1, mid + 1, up, lo))), m)
      else if path[0] then
        var u := SortStep(cut, r, m, path[1..]);
        (SortJoin(lo, up, side, l, u.0, DepAfter(r, u.0, dep), EnabledAfter(r, u.0, dep, enabled)), u.1)
      else
        var u := SortStep(cut, l, m, path[1..]);
        (SortJoin(lo, up, side, u.0, r, DepAfter(l, u.0, dep), EnabledAfter(l, u.0, dep, enabled)), u.1)
    case SortMerging(lo, up, side, merge) =>
      var u := MergeStep(cut, merge, m, side, path[1..]);
      (if u.0.Finished? then Finished else SortMerging(lo, up, side, u.0), u.1)
    case _ => (t, m)
  }

  /** A whole computation; signals counts the decDeps on the root's final codelet. */
  datatype State = State(t: Task, m: Mem, signals: nat)

  function After(st: State, u: (Task, Mem)): State {
    State(u.0, u.1, st.signals + if !st.t.Finished? && u.0.Finished? then 1 else 0)
  }

  ghost predicate MergeRun(cut: Cutoffs, side: bool, from: State, moves: seq<seq<bool>>, to: State)
    decreases |moves|
  {
    if moves == [] then from == to
    else Fireable(from.t, moves[0])
         && MergeRun(cut, side, After(from, MergeStep(cut, from.t, from.m, side, moves[0])), moves[1..], to)
  }

  ghost predicate SortRun(cut: Cutoffs, from: State, moves: seq<seq<bool>>, to: State)
    decreases |moves|
  {
    if moves == [] then from == to
    else Fireable(from.t, moves[0])
         && SortRun(cut, After(from, SortStep(cut, from.t, from.m, moves[0])), moves[1..], to)
  }
}
