/** The sort/merge network always comes to an end: every codelet fires exactly once, in whatever order. */
module MergeNetworkProgress {
  import opened MergeNetwork

  /** Nothing is left to fire. */
  ghost predicate Ended(t: Net) {
    forall path: seq<bool> :: !Fireable(t, path)
  }

  /** The number of codelets in a network. */
  function Codelets(depth: nat): nat {
    if depth == 0 then 1 else 2 * Codelets(depth - 1) + 1
  }

  /** The codelets that have not fired. */
  function Pending(t: Net): nat
    decreases t
  {
    Unfired(t) + if t.Join? then Pending(t.l) + Pending(t.r) else 0
  }

  lemma {:induction false} NewPending(depth: nat)
    ensures Pending(NewNet(depth)) == Codelets(depth)
  {
    if depth > 0 {
      NewPending(depth - 1);
    }
  }

  lemma {:induction false} ExhaustedPending(t: Net)
    requires Exhausted(t)
    ensures Pending(t) == 0
    decreases t
  {
    if t.Join? {
      ExhaustedPending(t.l);
      ExhaustedPending(t.r);
    }
  }

  /** A network that has not produced its result has a codelet that can fire. */
  lemma {:induction false} NetCanMove(f: Kernel, t: Net, depth: nat, div: nat, lo: nat, x: seq<int>, m: Mem) returns (path: seq<bool>)
    requires LengthKeeping(f) && NetOk(f, t, depth, div, lo, x, m) && !t.fired
    ensures Fireable(t, path)
    decreases depth
  {
    path := [];
    if depth > 0 && !t.enabled {
      var w := Width(depth - 1, div);
      if !t.l.fired {
        var p := NetCanMove(f, t.l, depth - 1, div, lo, x[..w], m);
        path := [false] + p;
        assert path[1..] == p;
      } else {
        var p := NetCanMove(f, t.r, depth - 1, div, lo + w, x[w..], m);
        path := [true] + p;
        assert path[1..] == p;
      }
    }
  }

  /** A move fires exactly one codelet, which had not fired before. */
  lemma {:induction false} StepPending(f: Kernel, t: Net, depth: nat, div: nat, lo: nat, x: seq<int>, m: Mem, path: seq<bool>)
    requires LengthKeeping(f) && NetOk(f, t, depth, div, lo, x, m) && Fireable(t, path)
    ensures Pending(Step(f, t, depth, div, lo, |x|, m, path).0) + 1 == Pending(t)
    decreases depth
  {
    StepKeeps(f, t, depth, div, lo, x, m, path);
    if depth > 0 && path != [] {
      var w := Width(depth - 1, div);
      if path[0] {
        StepPending(f, t.r, depth - 1, div, lo + w, x[w..], m, path[1..]);
        StepUpper(f, t, depth, div, lo, |x|, m, path);
      } else {
        StepPending(f, t.l, depth - 1, div, lo, x[..w], m, path[1..]);
        StepLower(f, t, depth, div, lo, |x|, m, path);
      }
    }
  }

  lemma StatePending(f: Kernel, st: State, depth: nat, div: nat, x: seq<int>, path: seq<bool>)
    requires LengthKeeping(f) && StateOk(f, st, depth, div, x) && Fireable(st.t, path)
    ensures var st' := After(st, Step(f, st.t, depth, div, 0, |x|, st.m, path));
      StateOk(f, st', depth, div, x) && Pending(st'.t) + 1 == Pending(st.t)
  {
    StepKeeps(f, st.t, depth, div, 0, x, st.m, path);
    StepPending(f, st.t, depth, div, 0, x, st.m, path);
  }

  lemma {:induction false} RunPending(f: Kernel, depth: nat, div: nat, from: State, moves: seq<seq<bool>>, to: State, x: seq<int>)
    requires LengthKeeping(f) && StateOk(f, from, depth, div, x) && Run(f, depth, div, |x|, from, moves, to)
    ensures |moves| + Pending(to.t) == Pending(from.t)
    decreases |moves|
  {
    if moves != [] {
      StatePending(f, from, depth, div, x, moves[0]);
      RunPending(f, depth, div, After(from, Step(f, from.t, depth, div, 0, |x|, from.m, moves[0])), moves[1..], to, x);
    }
  }

  /** Every schedule ends when each codelet has fired once, and toSig is signalled by the last of these firings and by no
      other: a schedule has signalled it if and only if it cannot be continued. */
  lemma EveryScheduleEnds(f: Kernel, depth: nat, div: nat, m0: Mem, moves: seq<seq<bool>>, to: State)
    requires LengthKeeping(f) && Width(depth, div) <= |m0.inp| <= |m0.out|
    requires Run(f, depth, div, |m0.inp|, State(NewNet(depth), m0, 0), moves, to)
    ensures |moves| <= Codelets(depth) && to.signals <= 1
    ensures to.signals == 1 <==> |moves| == Codelets(depth)
    ensures to.signals == 1 <==> Ended(to.t)
  {
    var x, start := m0.inp, State(NewNet(depth), m0, 0);
    NewNetOk(f, depth, div, 0, x, m0);
    NewPending(depth);
    RunKeeps(f, depth, div, start, moves, to, x);
    RunPending(f, depth, div, start, moves, to, x);
    if to.t.fired {
      ChildOutput(f, to.t, depth, div, 0, x, to.m);
      ExhaustedPending(to.t);
      forall path: seq<bool>
        ensures !Fireable(to.t, path)
      {
        ExhaustedIsDone(to.t, path);
      }
    } else {
      var path := NetCanMove(f, to.t, depth, div, 0, x, to.m);
    }
  }

  /** Any schedule can be completed. */
  lemma {:induction false} CanFinish(f: Kernel, depth: nat, div: nat, from: State, x: seq<int>) returns (moves: seq<seq<bool>>, to: State)
    requires LengthKeeping(f) && StateOk(f, from, depth, div, x)
    ensures Run(f, depth, div, |x|, from, moves, to) && to.signals == 1
    decreases Pending(from.t)
  {
    if from.t.fired {
      moves, to := [], from;
    } else {
      var path := NetCanMove(f, from.t, depth, div, 0, x, from.m);
      StatePending(f, from, depth, div, x, path);
      var rest;
      rest, to := CanFinish(f, depth, div, After(from, Step(f, from.t, depth, div, 0, |x|, from.m, path)), x);
      moves := [path] + rest;
      assert moves[1..] == rest;
    }
  }
}
