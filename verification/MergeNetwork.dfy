/** The sort/merge network of mergeBase: eight quicksorts and seven merges over two shared arrays. Every schedule
    leaves in OUT what the network computes as a function of IN. */
module MergeNetwork {
  import opened SyncSlots
  import opened Ranges

  // The network as a function

  /** What a quicksort codelet makes of its stretch, and what a merge codelet writes for its input. */
  datatype Kernel = Kernel(sort: seq<int> -> seq<int>, merge: seq<int> -> seq<int>)

  ghost predicate KeepsLength(f: Kernel, s: seq<int>) {
    |f.sort(s)| == |s| && |f.merge(s)| == |s|
  }

  ghost predicate LengthKeeping(f: Kernel) {
    forall s :: KeepsLength(f, s)
  }

  ghost function Sort(f: Kernel, s: seq<int>): (r: seq<int>)
    requires LengthKeeping(f)
    ensures |r| == |s|
  {
    assert KeepsLength(f, s);
    f.sort(s)
  }

  ghost function MergeOf(f: Kernel, s: seq<int>): (r: seq<int>)
    requires LengthKeeping(f)
    ensures |r| == |s|
  {
    assert KeepsLength(f, s);
    f.merge(s)
  }

  /** The elements that 2^depth quicksorts of div elements each sort. */
  function Width(depth: nat, div: nat): nat
    decreases depth, div
  {
    if depth == 0 then div else 2 * Width(depth - 1, div)
  }

  /** What a network of the given depth makes of x; the last quicksort takes the remainder. */
  ghost function Network(f: Kernel, depth: nat, div: nat, x: seq<int>): (r: seq<int>)
    requires Width(depth, div) <= |x| && LengthKeeping(f)
    ensures |r| == |x|
    decreases depth, x
  {
    if depth == 0 then Sort(f, x)
    else
      var w := Width(depth - 1, div);
      var s := Network(f, depth - 1, div, x[..w]) + Network(f, depth - 1, div, x[w..]);
      MergeOf(f, s)
  }

  // The codelets

  /** Join holds a merge codelet: its counter, and whether it is enabled and has fired. */
  datatype Net = Quick(fired: bool) | Join(l: Net, r: Net, dep: nat, enabled: bool, fired: bool)

  datatype Mem = Mem(inp: seq<int>, out: seq<int>)

  function NewNet(depth: nat): Net {
    if depth == 0 then Quick(false) else Join(NewNet(depth - 1), NewNet(depth - 1), 2, false, false)
  }

  /** The codelets write IN, OUT, IN, OUT from the quicksorts up. */
  function WritesOut(depth: nat): bool {
    depth > 0 && !WritesOut(depth - 1)
  }

  function Arr(m: Mem, out: bool): seq<int> {
    if out then m.out else m.inp
  }

  function WithArr(m: Mem, out: bool, s: seq<int>): Mem {
    if out then m.(out := s) else m.(inp := s)
  }

  function Fired(t: Net): bool {
    t.fired
  }

  predicate Fireable(t: Net, path: seq<bool>)
    decreases t
  {
    match t
    case Quick(fired) => path == [] && !fired
    case Join(l, r, _, enabled, fired) =>
      if path == [] then enabled && !fired else if path[0] then Fireable(r, path[1..]) else Fireable(l, path[1..])
  }

  /** decDep on the merge codelet when one of its two inputs has fired */
  function DepAfter(before: Net, after: Net, dep: nat): nat {
    if !before.fired && after.fired then Dec(dep) else dep
  }

  function EnabledAfter(before: Net, after: Net, dep: nat, enabled: bool): bool {
    enabled || (!before.fired && after.fired && Fires(dep))
  }

  /** What a merge codelet leaves in the n places from lo on. */
  ghost function Merged(f: Kernel, m: Mem, out: bool, lo: nat, n: nat): Mem
    requires LengthKeeping(f)
    requires lo + n <= |m.inp| && lo + n <= |m.out|
  {
    WithArr(m, out, Patch(Arr(m, out), lo, MergeOf(f, Arr(m, !out)[lo..lo + n])))
  }

  /** The codelet at the path fires. The subtree t has this depth and works on n places from lo on. */
  ghost function Step(f: Kernel, t: Net, depth: nat, div: nat, lo: nat, n: nat, m: Mem, path: seq<bool>): (Net, Mem)
    requires LengthKeeping(f)
    requires Fireable(t, path)
    decreases t
  {
    match t
    case Quick(_) =>
      (Quick(true),
       if lo + n <= |m.inp| then m.(inp := Patch(m.inp, lo, Sort(f, m.inp[lo..lo + n]))) else m)
    case Join(l, r, dep, enabled, _) =>
      if path == [] then
        (Join(l, r, dep, enabled, true),
         if lo + n <= |m.inp| && lo + n <= |m.out| then Merged(f, m, WritesOut(depth), lo, n) else m)
      else if depth == 0 then (t, m)
      else
        var w := Width(depth - 1, div);
        if path[0] then
          var u := Step(f, r, depth - 1, div, lo + w, if n > w then n - w else 0, m, path[1..]);
          (Join(l, u.0, DepAfter(r, u.0, dep), EnabledAfter(r, u.0, dep, enabled), false), u.1)
        else
          var u := Step(f, l, depth - 1, div, lo, w, m, path[1..]);
          (Join(u.0, r, DepAfter(l, u.0, dep), EnabledAfter(l, u.0, dep, enabled), false), u.1)
  }

  /** signals: how often toSig has been signalled. */
  datatype State = State(t: Net, m: Mem, signals: nat)

  function After(st: State, u: (Net, Mem)): State {
    State(u.0, u.1, st.signals + if !st.t.fired && u.0.fired then 1 else 0)
  }

  ghost predicate Run(f: Kernel, depth: nat, div: nat, size: nat, from: State, moves: seq<seq<bool>>, to: State)
    requires LengthKeeping(f)
    decreases |moves|
  {
    if moves == [] then from == to
    else Fireable(from.t, moves[0])
         && Run(f, depth, div, size, After(from, Step(f, from.t, depth, div, 0, size, from.m, moves[0])), moves[1..], to)
  }

  // The invariant

  function Unfired(t: Net): nat {
    if t.fired then 0 else 1
  }

  /** The places from lo on hold t. */
  ghost predicate At(s: seq<int>, lo: nat, t: seq<int>) {
    lo + |t| <= |s| && forall k: nat :: lo <= k < lo + |t| ==> Elem(s, k) == Elem(t, k - lo)
  }

  /** Every codelet of the subtree has fired. */
  predicate Exhausted(t: Net)
    decreases t
  {
    t.fired && (t.Join? ==> Exhausted(t.l) && Exhausted(t.r))
  }

  ghost predicate NetOk(f: Kernel, t: Net, depth: nat, div: nat, lo: nat, x: seq<int>, m: Mem)
    requires LengthKeeping(f)
    decreases depth
  {
    && Width(depth, div) <= |x| && lo + |x| <= |m.inp| && lo + |x| <= |m.out|
    && if depth == 0 then t.Quick? && At(m.inp, lo, if t.fired then Sort(f, x) else x)
       else
         var w := Width(depth - 1, div);
         && t.Join?
         && if t.fired then At(Arr(m, WritesOut(depth)), lo, Network(f, depth, div, x)) && Exhausted(t)
            else
              && t.dep == Unfired(t.l) + Unfired(t.r) && (t.enabled <==> t.dep == 0)
              && NetOk(f, t.l, depth - 1, div, lo, x[..w], m) && NetOk(f, t.r, depth - 1, div, lo + w, x[w..], m)
  }

  /** Neither array changes in the places lo, ..., up - 1. */
  ghost predicate SameBoth(m: Mem, m': Mem, lo: nat, up: nat) {
    Same(m.inp, m'.inp, lo, up) && Same(m.out, m'.out, lo, up)
  }

  /** Nothing but the places lo, ..., up - 1 changes, in either array. */
  ghost predicate WithinBoth(m: Mem, m': Mem, lo: nat, up: nat) {
    SameOutside(m.inp, m'.inp, lo, up) && SameOutside(m.out, m'.out, lo, up)
  }

  lemma AtFrame(s: seq<int>, s': seq<int>, lo: nat, t: seq<int>)
    requires At(s, lo, t) && Same(s, s', lo, lo + |t|)
    ensures At(s', lo, t)
  {
  }

  lemma {:induction false} NetFrame(f: Kernel, t: Net, depth: nat, div: nat, lo: nat, x: seq<int>, m: Mem, m': Mem)
    requires LengthKeeping(f)
    requires NetOk(f, t, depth, div, lo, x, m) && SameBoth(m, m', lo, lo + |x|)
    ensures NetOk(f, t, depth, div, lo, x, m')
    decreases depth
  {
    if depth == 0 {
      AtFrame(m.inp, m'.inp, lo, if t.fired then Sort(f, x) else x);
    } else if t.fired {
      AtFrame(Arr(m, WritesOut(depth)), Arr(m', WritesOut(depth)), lo, Network(f, depth, div, x));
    } else {
      var w := Width(depth - 1, div);
      NetFrame(f, t.l, depth - 1, div, lo, x[..w], m, m');
      NetFrame(f, t.r, depth - 1, div, lo + w, x[w..], m, m');
    }
  }

  // Steps

  lemma AtSlice(s: seq<int>, lo: nat, t: seq<int>)
    requires At(s, lo, t)
    ensures s[lo..lo + |t|] == t
  {
    forall k | 0 <= k < |t|
      ensures s[lo..lo + |t|][k] == t[k]
    {
      assert Elem(s, lo + k) == Elem(t, k);
    }
  }

  lemma PatchAt(s: seq<int>, lo: nat, t: seq<int>)
    requires lo + |t| <= |s|
    ensures At(Patch(s, lo, t), lo, t) && SameOutside(s, Patch(s, lo, t), lo, lo + |t|)
  {
  }

  lemma AtJoin(s: seq<int>, lo: nat, a: seq<int>, b: seq<int>)
    requires At(s, lo, a) && At(s, lo + |a|, b)
    ensures At(s, lo, a + b)
  {
  }

  lemma MergeFires(f: Kernel, src: seq<int>, dst: seq<int>, lo: nat, n: nat, a: seq<int>, b: seq<int>)
    requires LengthKeeping(f)
    requires At(src, lo, a) && At(src, lo + |a|, b) && n == |a| + |b| && lo + n <= |dst|
    ensures lo + n <= |src|
    ensures var r := Patch(dst, lo, MergeOf(f, src[lo..lo + n]));
      At(r, lo, MergeOf(f, a + b)) && SameOutside(dst, r, lo, lo + n)
  {
    AtJoin(src, lo, a, b);
    AtSlice(src, lo, a + b);
    PatchAt(dst, lo, MergeOf(f, a + b));
  }

  lemma MergeWrites(f: Kernel, depth: nat, div: nat, lo: nat, x: seq<int>, m: Mem)
    requires LengthKeeping(f)
    requires depth > 0 && Width(depth, div) <= |x| && lo + |x| <= |m.inp| && lo + |x| <= |m.out|
    requires var w := Width(depth - 1, div);
      && At(Arr(m, WritesOut(depth - 1)), lo, Network(f, depth - 1, div, x[..w]))
      && At(Arr(m, WritesOut(depth - 1)), lo + w, Network(f, depth - 1, div, x[w..]))
    ensures var m' := Merged(f, m, WritesOut(depth), lo, |x|);
      At(Arr(m', WritesOut(depth)), lo, Network(f, depth, div, x)) && WithinBoth(m, m', lo, lo + |x|)
  {
    var w, out := Width(depth - 1, div), WritesOut(depth);
    MergeFires(f, Arr(m, !out), Arr(m, out), lo, |x|, Network(f, depth - 1, div, x[..w]), Network(f, depth - 1, div, x[w..]));
  }

  /** A merge codelet finds the outputs of its two inputs side by side. */
  lemma JoinFires(f: Kernel, t: Net, depth: nat, div: nat, lo: nat, x: seq<int>, m: Mem)
    requires LengthKeeping(f)
    requires NetOk(f, t, depth, div, lo, x, m) && depth > 0 && Fireable(t, [])
    ensures var m' := Merged(f, m, WritesOut(depth), lo, |x|);
      NetOk(f, Join(t.l, t.r, t.dep, t.enabled, true), depth, div, lo, x, m') && WithinBoth(m, m', lo, lo + |x|)
  {
    var w := Width(depth - 1, div);
    ChildOutput(f, t.l, depth - 1, div, lo, x[..w], m);
    ChildOutput(f, t.r, depth - 1, div, lo + w, x[w..], m);
    MergeWrites(f, depth, div, lo, x, m);
  }

  lemma ChildOutput(f: Kernel, t: Net, depth: nat, div: nat, lo: nat, x: seq<int>, m: Mem)
    requires LengthKeeping(f)
    requires NetOk(f, t, depth, div, lo, x, m) && t.fired
    ensures At(Arr(m, WritesOut(depth)), lo, Network(f, depth, div, x)) && Exhausted(t)
  {
  }

  lemma UpperStepped(f: Kernel, t: Net, depth: nat, div: nat, lo: nat, x: seq<int>, m: Mem, r: Net, m': Mem)
    requires LengthKeeping(f)
    requires NetOk(f, t, depth, div, lo, x, m) && depth > 0 && !t.fired && !t.r.fired
    requires var w := Width(depth - 1, div);
      NetOk(f, r, depth - 1, div, lo + w, x[w..], m') && WithinBoth(m, m', lo + w, lo + |x|)
    ensures NetOk(f, Join(t.l, r, DepAfter(t.r, r, t.dep), EnabledAfter(t.r, r, t.dep, t.enabled), false), depth, div, lo, x, m')
    ensures WithinBoth(m, m', lo, lo + |x|)
  {
    var w := Width(depth - 1, div);
    NetFrame(f, t.l, depth - 1, div, lo, x[..w], m, m');
  }

  lemma LowerStepped(f: Kernel, t: Net, depth: nat, div: nat, lo: nat, x: seq<int>, m: Mem, l: Net, m': Mem)
    requires LengthKeeping(f)
    requires NetOk(f, t, depth, div, lo, x, m) && depth > 0 && !t.fired && !t.l.fired
    requires var w := Width(depth - 1, div);
      NetOk(f, l, depth - 1, div, lo, x[..w], m') && WithinBoth(m, m', lo, lo + w)
    ensures NetOk(f, Join(l, t.r, DepAfter(t.l, l, t.dep), EnabledAfter(t.l, l, t.dep, t.enabled), false), depth, div, lo, x, m')
    ensures WithinBoth(m, m', lo, lo + |x|)
  {
    var w := Width(depth - 1, div);
    NetFrame(f, t.r, depth - 1, div, lo + w, x[w..], m, m');
  }

  /** Nothing is left to fire in an exhausted subtree. */
  lemma {:induction false} ExhaustedIsDone(t: Net, path: seq<bool>)
    requires Exhausted(t)
    ensures !Fireable(t, path)
    decreases t
  {
    if t.Join? && path != [] {
      ExhaustedIsDone(t.l, path[1..]);
      ExhaustedIsDone(t.r, path[1..]);
    }
  }

  ghost predicate Kept(f: Kernel, u: (Net, Mem), depth: nat, div: nat, lo: nat, x: seq<int>, m: Mem)
    requires LengthKeeping(f)
  {
    NetOk(f, u.0, depth, div, lo, x, u.1) && WithinBoth(m, u.1, lo, lo + |x|)
  }

  /** Every firing keeps the invariant, and touches the subtree's own places only. */
  lemma {:induction false} StepKeeps(f: Kernel, t: Net, depth: nat, div: nat, lo: nat, x: seq<int>, m: Mem, path: seq<bool>)
    requires LengthKeeping(f)
    requires NetOk(f, t, depth, div, lo, x, m) && Fireable(t, path)
    ensures !t.fired && Kept(f, Step(f, t, depth, div, lo, |x|, m, path), depth, div, lo, x, m)
    decreases depth, 1
  {
    if depth == 0 {
      QuickFires(f, t, div, lo, x, m);
    } else {
      if t.fired {
        ExhaustedIsDone(t, path);
      }
      if path == [] {
        JoinFires(f, t, depth, div, lo, x, m);
      } else if path[0] {
        UpperKeeps(f, t, depth, div, lo, x, m, path);
      } else {
        LowerKeeps(f, t, depth, div, lo, x, m, path);
      }
    }
  }

  lemma StepUpper(f: Kernel, t: Net, depth: nat, div: nat, lo: nat, n: nat, m: Mem, path: seq<bool>)
    requires LengthKeeping(f) && t.Join? && depth > 0 && path != [] && path[0] && Fireable(t, path) && Width(depth - 1, div) <= n
    ensures var w := Width(depth - 1, div);
      var u := Step(f, t.r, depth - 1, div, lo + w, n - w, m, path[1..]);
      Step(f, t, depth, div, lo, n, m, path)
      == (Join(t.l, u.0, DepAfter(t.r, u.0, t.dep), EnabledAfter(t.r, u.0, t.dep, t.enabled), false), u.1)
  {
  }

  lemma StepLower(f: Kernel, t: Net, depth: nat, div: nat, lo: nat, n: nat, m: Mem, path: seq<bool>)
    requires LengthKeeping(f) && t.Join? && depth > 0 && path != [] && !path[0] && Fireable(t, path)
    ensures var u := Step(f, t.l, depth - 1, div, lo, Width(depth - 1, div), m, path[1..]);
      Step(f, t, depth, div, lo, n, m, path)
      == (Join(u.0, t.r, DepAfter(t.l, u.0, t.dep), EnabledAfter(t.l, u.0, t.dep, t.enabled), false), u.1)
  {
  }

  lemma UpperKeeps(f: Kernel, t: Net, depth: nat, div: nat, lo: nat, x: seq<int>, m: Mem, path: seq<bool>)
    requires LengthKeeping(f) && path != [] && path[0]
    requires NetOk(f, t, depth, div, lo, x, m) && depth > 0 && !t.fired && Fireable(t, path)
    ensures Kept(f, Step(f, t, depth, div, lo, |x|, m, path), depth, div, lo, x, m)
    decreases depth, 0
  {
    var w := Width(depth - 1, div);
    var b := x[w..];
    assert |b| == |x| - w;
    StepKeeps(f, t.r, depth - 1, div, lo + w, b, m, path[1..]);
    var u := Step(f, t.r, depth - 1, div, lo + w, |b|, m, path[1..]);
    UpperStepped(f, t, depth, div, lo, x, m, u.0, u.1);
    StepUpper(f, t, depth, div, lo, |x|, m, path);
  }

  lemma LowerKeeps(f: Kernel, t: Net, depth: nat, div: nat, lo: nat, x: seq<int>, m: Mem, path: seq<bool>)
    requires LengthKeeping(f) && path != [] && !path[0]
    requires NetOk(f, t, depth, div, lo, x, m) && depth > 0 && !t.fired && Fireable(t, path)
    ensures Kept(f, Step(f, t, depth, div, lo, |x|, m, path), depth, div, lo, x, m)
    decreases depth, 0
  {
    var a := x[..Width(depth - 1, div)];
    assert |a| == Width(depth - 1, div);
    StepKeeps(f, t.l, depth - 1, div, lo, a, m, path[1..]);
    var u := Step(f, t.l, depth - 1, div, lo, |a|, m, path[1..]);
    LowerStepped(f, t, depth, div, lo, x, m, u.0, u.1);
    StepLower(f, t, depth, div, lo, |x|, m, path);
  }

  lemma QuickFires(f: Kernel, t: Net, div: nat, lo: nat, x: seq<int>, m: Mem)
    requires LengthKeeping(f)
    requires NetOk(f, t, 0, div, lo, x, m) && Fireable(t, [])
    ensures var u := Step(f, t, 0, div, lo, |x|, m, []);
      NetOk(f, u.0, 0, div, lo, x, u.1) && WithinBoth(m, u.1, lo, lo + |x|)
  {
    AtSlice(m.inp, lo, x);
    PatchAt(m.inp, lo, Sort(f, x));
  }

  // Runs

  ghost predicate StateOk(f: Kernel, st: State, depth: nat, div: nat, x: seq<int>)
    requires LengthKeeping(f)
  {
    NetOk(f, st.t, depth, div, 0, x, st.m) && st.signals == 1 - Unfired(st.t)
  }

  lemma {:induction false} RunKeeps(f: Kernel, depth: nat, div: nat, from: State, moves: seq<seq<bool>>, to: State, x: seq<int>)
    requires LengthKeeping(f)
    requires StateOk(f, from, depth, div, x) && Run(f, depth, div, |x|, from, moves, to)
    ensures StateOk(f, to, depth, div, x)
    decreases |moves|
  {
    if moves != [] {
      StepKeeps(f, from.t, depth, div, 0, x, from.m, moves[0]);
      RunKeeps(f, depth, div, After(from, Step(f, from.t, depth, div, 0, |x|, from.m, moves[0])), moves[1..], to, x);
    }
  }

  lemma {:induction false} NewNetOk(f: Kernel, depth: nat, div: nat, lo: nat, x: seq<int>, m: Mem)
    requires LengthKeeping(f)
    requires Width(depth, div) <= |x| && lo + |x| <= |m.out| && At(m.inp, lo, x)
    ensures NetOk(f, NewNet(depth), depth, div, lo, x, m)
    decreases depth
  {
    if depth > 0 {
      var w := Width(depth - 1, div);
      NewNetOk(f, depth - 1, div, lo, x[..w], m);
      NewNetOk(f, depth - 1, div, lo + w, x[w..], m);
    }
  }

  /** Every order in which the codelets may fire leaves the same result in the array that the last merge writes: that of
      the network as a function of IN. It is signalled at most once, and when it has been it is complete. */
  lemma EveryScheduleAgrees(f: Kernel, depth: nat, div: nat, m0: Mem, moves: seq<seq<bool>>, to: State)
    requires LengthKeeping(f)
    requires Width(depth, div) <= |m0.inp| <= |m0.out|
    requires Run(f, depth, div, |m0.inp|, State(NewNet(depth), m0, 0), moves, to)
    ensures to.signals <= 1
    ensures var n, result := |m0.inp|, Arr(to.m, WritesOut(depth));
      to.signals == 1 ==> n <= |result| && result[..n] == Network(f, depth, div, m0.inp)
  {
    var x := m0.inp;
    NewNetOk(f, depth, div, 0, x, m0);
    RunKeeps(f, depth, div, State(NewNet(depth), m0, 0), moves, to, x);
    if to.signals == 1 {
      ChildOutput(f, to.t, depth, div, 0, x, to.m);
      AtSlice(Arr(to.m, WritesOut(depth)), 0, Network(f, depth, div, x));
    }
  }
}
