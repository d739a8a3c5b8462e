/** The pipelined Cannon program cannot get stuck: whatever has happened so far,
    the codelets can still run to the end, and only failing peeks make no progress. */
module PipelineProgress {
  import opened Grid
  import opened SyncSlots
  import opened CannonJob
  import opened Pipeline
  import opened PipelineProofs

  function CopyRank(pc: CopyPc): nat {
    match pc
    case Ready => 2
    case Copied => 1
    case Signalled => 0
  }

  function SkewRank(pc: SkewPc): nat {
    match pc
    case SkewWaiting => 4
    case SkewEnabled => 3
    case PushedA => 2
    case PushedB => 1
    case SkewDone => 0
  }

  function BarrierRank(n: nat, pc: BarrierPc): nat {
    match pc
    case BarrierWaiting => n + 1
    case BarrierFiring(next) => if next < n then n - next else 0
  }

  /** Micro-steps left in the compute codelet, not counting repeated peeks. */
  function ComputeRank(s: nat, pc: ComputePc, it: nat): nat {
    var left := if it < s then 8 * (s - it) else 0;
    match pc
    case Waiting => left + 9
    case Enabled => left + 8
    case PeekA => left + 7
    case PeekB(_) => left + 7
    case Multiply => left + 6
    case PushA => left + 5
    case PushB => left + 4
    case PopA => left + 3
    case PopB => left + 2
    case Last => 1
    case Finished => 0
  }

  function CopyCRank(pc: CopyCPc): nat {
    match pc
    case CWaiting => 3
    case CEnabled => 2
    case CCopied => 1
    case CDone => 0
  }

  function EndRank(pc: EndPc): nat {
    match pc
    case EndWaiting => 2
    case EndEnabled => 1
    case EndFired => 0
  }

  ghost function TileRank<T>(j: Job<T>, st: State<T>, i: nat): nat
    requires Sized(j.g.n, st) && i < j.g.n
  {
    CopyRank(st.setup.copyA[i]) + CopyRank(st.setup.copyB[i]) + SkewRank(st.setup.pc[i])
    + ComputeRank(j.g.s, st.engine.pc[i], st.engine.iter[i]) + CopyCRank(st.drain.pc[i])
  }

  ghost function TilesRank<T>(j: Job<T>, st: State<T>, m: nat): nat
    requires Sized(j.g.n, st) && m <= j.g.n
  {
    if m == 0 then 0 else TilesRank(j, st, m - 1) + TileRank(j, st, m - 1)
  }

  /** The work left: a bound on the number of micro-steps still to come, failing peeks apart. */
  ghost function Rank<T>(j: Job<T>, st: State<T>): nat
    requires Sized(j.g.n, st)
  {
    TilesRank(j, st, j.g.n) + GlobalRank(j, st)
  }

  /** A move that only looks at the heads of the queues without finding both. */
  ghost predicate Peeks<T>(j: Job<T>, st: State<T>, m: Move)
    requires Sized(j.g.n, st)
  {
    m.Compute? && m.i < j.g.n
    && (st.engine.pc[m.i].PeekA? || (st.engine.pc[m.i].PeekB? && !StepsToMultiply(st.engine, m.i)))
  }

  ghost predicate StepsToMultiply<T>(e: Engine<T>, i: nat)
    requires SizedEngine(|e.pc|, e) && i < |e.pc|
  {
    e.pc[i].PeekB? && e.pc[i].gotA && e.queueB[i] != []
  }

  lemma {:induction false} TilesRankMono<T>(j: Job<T>, st: State<T>, st': State<T>, m: nat)
    requires Sized(j.g.n, st) && Sized(j.g.n, st') && m <= j.g.n
    requires forall i :: 0 <= i < j.g.n ==> TileRank(j, st', i) <= TileRank(j, st, i)
    ensures TilesRank(j, st', m) <= TilesRank(j, st, m)
    ensures forall i :: 0 <= i < m && TileRank(j, st', i) < TileRank(j, st, i) ==> TilesRank(j, st', m) < TilesRank(j, st, m)
  {
    if m > 0 {
      TilesRankMono(j, st, st', m - 1);
    }
  }

  lemma SetupRank<T>(j: Job<T>, st: State<T>, m: Move)
    requires Inv(j, st) && Runnable(j, st, m) && (m.CopyA? || m.CopyB? || m.Skew?)
    ensures forall k :: 0 <= k < j.g.n ==> TileRank(j, Step(j, st, m), k) <= TileRank(j, st, k)
    ensures TileRank(j, Step(j, st, m), m.i) < TileRank(j, st, m.i)
    ensures BarrierRank(j.g.n, Step(j, st, m).barrier.pc) <= BarrierRank(j.g.n, st.barrier.pc)
  {
    assert CopiesOk(j, st.setup, m.i);
    if m.Skew? {
      SkewPushesFirst(j, st, m.i);
    }
  }

  /** The compute codelet's own share of the rank. */
  lemma EngineRanks<T>(j: Job<T>, st: State<T>, i: nat)
    requires Inv(j, st) && Runnable(j, st, Compute(i))
    ensures var e, e' := st.engine, StepCompute(j, st.engine, i);
      && (forall k :: 0 <= k < j.g.n && k != i ==> e'.pc[k] == e.pc[k] && e'.iter[k] == e.iter[k])
      && ComputeRank(j.g.s, e'.pc[i], e'.iter[i]) <= ComputeRank(j.g.s, e.pc[i], e.iter[i])
      && (!Peeks(j, st, Compute(i)) ==> ComputeRank(j.g.s, e'.pc[i], e'.iter[i]) < ComputeRank(j.g.s, e.pc[i], e.iter[i]))
  {
    assert ComputeOk(j, st.barrier.pc, st.engine, i) && QueueAOk(j, st.setup.pc, st.engine, i);
  }

  lemma ComputeRanks<T>(j: Job<T>, st: State<T>, i: nat)
    requires Inv(j, st) && Runnable(j, st, Compute(i))
    ensures forall k :: 0 <= k < j.g.n ==> TileRank(j, Step(j, st, Compute(i)), k) <= TileRank(j, st, k)
    ensures !Peeks(j, st, Compute(i)) ==> TileRank(j, Step(j, st, Compute(i)), i) < TileRank(j, st, i)
  {
    EngineRanks(j, st, i);
    assert DrainOk(j, st.engine.pc, st.engine.tileC, st.drain, i);
  }

  ghost function GlobalRank<T>(j: Job<T>, st: State<T>): nat {
    BarrierRank(j.g.n, st.barrier.pc) + EndRank(st.drain.end)
  }

  lemma OtherRanks<T>(j: Job<T>, st: State<T>, m: Move)
    requires Inv(j, st) && Runnable(j, st, m) && (m.Release? || m.CopyC? || m.End?)
    ensures forall k :: 0 <= k < j.g.n ==> TileRank(j, Step(j, st, m), k) <= TileRank(j, st, k)
    ensures GlobalRank(j, Step(j, st, m)) <= GlobalRank(j, st)
    ensures !m.CopyC? ==> GlobalRank(j, Step(j, st, m)) < GlobalRank(j, st)
    ensures m.CopyC? ==> TileRank(j, Step(j, st, m), m.i) < TileRank(j, st, m.i)
  {
    if m.Release? {
      assert ComputeOk(j, st.barrier.pc, st.engine, st.barrier.pc.next);
    }
    if m.CopyC? {
      assert DrainOk(j, st.engine.pc, st.engine.tileC, st.drain, m.i);
      CountUpdate(st.drain.pc, CDone, m.i, CDone);
      CountAll(st.drain.pc, CDone);
    }
  }

  /** No move adds work, and every move except a failing peek removes some. */
  lemma RankDecreases<T>(j: Job<T>, st: State<T>, m: Move)
    requires Inv(j, st) && Runnable(j, st, m)
    ensures Rank(j, Step(j, st, m)) <= Rank(j, st)
    ensures !Peeks(j, st, m) ==> Rank(j, Step(j, st, m)) < Rank(j, st)
  {
    match m {
      case Compute(i) => ComputeRanks(j, st, i);
      case CopyA(i) => SetupRank(j, st, m);
      case CopyB(i) => SetupRank(j, st, m);
      case Skew(i) => SetupRank(j, st, m);
      case _ => OtherRanks(j, st, m);
    }
    TilesRankMono(j, st, Step(j, st, m), j.g.n);
  }

  /** A least-advanced tile, once all are released, has work in both queues. */
  lemma LeastAdvancedHasWork<T>(j: Job<T>, st: State<T>, i: nat)
    requires Inv(j, st) && i < j.g.n && (st.engine.pc[i].PeekA? || st.engine.pc[i].PeekB?)
    requires forall k :: 0 <= k < j.g.n ==> st.engine.iter[i] <= st.engine.iter[k]
    ensures st.engine.queueA[i] != [] && st.engine.queueB[i] != []
  {
    AllSkewed(j, st, i);
    assert QueueAOk(j, st.setup.pc, st.engine, i) && QueueBOk(j, st.setup.pc, st.engine, i);
  }

  lemma {:induction false} LeastAdvanced(iter: seq<nat>) returns (i: nat)
    requires iter != []
    ensures i < |iter| && forall k :: 0 <= k < |iter| ==> iter[i] <= iter[k]
  {
    i := |iter| - 1;
    if i > 0 {
      var k := LeastAdvanced(iter[..i]);
      assert forall x :: 0 <= x < |iter| - 1 ==> iter[..|iter| - 1][x] == iter[x];
      if iter[k] < iter[i] {
        i := k;
      }
    }
  }

  /** A tile whose queues both have a head finds them in at most three peeks. */
  lemma PeekThrough<T>(j: Job<T>, st: State<T>, i: nat) returns (moves: seq<Move>, to: State<T>)
    requires Inv(j, st) && i < j.g.n && (st.engine.pc[i].PeekA? || st.engine.pc[i].PeekB?)
    requires st.engine.queueA[i] != [] && st.engine.queueB[i] != []
    ensures Run(j, st, moves, to) && Inv(j, to) && Rank(j, to) < Rank(j, st)
  {
    var m := Compute(i);
    if StepsToMultiply(st.engine, i) {
      moves, to := [m], Step(j, st, m);
      RankDecreases(j, st, m);
      StepInv(j, st, m);
      assert Run(j, to, [], to);
    } else {
      var next := Step(j, st, m);
      RankDecreases(j, st, m);
      StepInv(j, st, m);
      var rest;
      rest, to := PeekAgain(j, next, i);
      moves := [m] + rest;
      assert moves[1..] == rest;
    }
  }

  lemma PeekAgain<T>(j: Job<T>, st: State<T>, i: nat) returns (moves: seq<Move>, to: State<T>)
    requires Inv(j, st) && i < j.g.n && st.engine.queueA[i] != [] && st.engine.queueB[i] != []
    requires st.engine.pc[i].PeekA? || (st.engine.pc[i].PeekB? && st.engine.pc[i].gotA)
    ensures Run(j, st, moves, to) && Inv(j, to) && Rank(j, to) < Rank(j, st)
  {
    var m := Compute(i);
    var next := Step(j, st, m);
    RankDecreases(j, st, m);
    StepInv(j, st, m);
    if st.engine.pc[i].PeekA? {
      to := Step(j, next, m);
      RankDecreases(j, next, m);
      StepInv(j, next, m);
      moves := [m, m];
      assert Run(j, to, [], to);
      assert Run(j, next, [m], to);
    } else {
      moves, to := [m], next;
      assert Run(j, to, [], to);
    }
  }

  /** A single move that is not a failing peek is progress. */
  lemma OneMove<T>(j: Job<T>, st: State<T>, m: Move) returns (moves: seq<Move>, to: State<T>)
    requires Inv(j, st) && Runnable(j, st, m) && !Peeks(j, st, m)
    ensures Run(j, st, moves, to) && Inv(j, to) && Rank(j, to) < Rank(j, st)
  {
    moves, to := [m], Step(j, st, m);
    RankDecreases(j, st, m);
    StepInv(j, st, m);
    assert Run(j, to, [], to);
  }

  /** Until the skew codelets are done, one of the set-up codelets can run. */
  lemma SetupProgress<T>(j: Job<T>, st: State<T>) returns (moves: seq<Move>, to: State<T>)
    requires Inv(j, st) && exists i :: 0 <= i < j.g.n && !st.setup.pc[i].SkewDone?
    ensures Run(j, st, moves, to) && Inv(j, to) && Rank(j, to) < Rank(j, st)
  {
    var i :| 0 <= i < j.g.n && !st.setup.pc[i].SkewDone?;
    assert CopiesOk(j, st.setup, i);
    if !st.setup.copyA[i].Signalled? {
      moves, to := OneMove(j, st, CopyA(i));
    } else if !st.setup.copyB[i].Signalled? {
      moves, to := OneMove(j, st, CopyB(i));
    } else {
      moves, to := OneMove(j, st, Skew(i));
    }
  }

  lemma ComputeProgress<T>(j: Job<T>, st: State<T>) returns (moves: seq<Move>, to: State<T>)
    requires Inv(j, st) && (forall i :: 0 <= i < j.g.n ==> !st.engine.pc[i].Waiting?)
    requires exists i :: 0 <= i < j.g.n && !st.engine.pc[i].Finished?
    ensures Run(j, st, moves, to) && Inv(j, to) && Rank(j, to) < Rank(j, st)
  {
    if i :| 0 <= i < j.g.n && !st.engine.pc[i].Finished? && !Peeks(j, st, Compute(i)) {
      moves, to := OneMove(j, st, Compute(i));
    } else {
      var i := LeastAdvanced(st.engine.iter);
      var k :| 0 <= k < j.g.n && !st.engine.pc[k].Finished?;
      assert ComputeOk(j, st.barrier.pc, st.engine, k) && ComputeOk(j, st.barrier.pc, st.engine, i);
      assert Peeks(j, st, Compute(k)) && (st.engine.pc[i].Finished? || Peeks(j, st, Compute(i)));
      LeastAdvancedHasWork(j, st, i);
      moves, to := PeekThrough(j, st, i);
    }
  }

  /** In every reachable state short of the end, some codelets can do work. */
  lemma NeverStuck<T>(j: Job<T>, st: State<T>) returns (moves: seq<Move>, to: State<T>)
    requires Inv(j, st) && !st.drain.end.EndFired?
    ensures Run(j, st, moves, to) && Inv(j, to) && Rank(j, to) < Rank(j, st)
  {
    CountAll(st.setup.pc, SkewDone);
    CountAll(st.drain.pc, CDone);
    if exists i :: 0 <= i < j.g.n && !st.setup.pc[i].SkewDone? {
      moves, to := SetupProgress(j, st);
    } else if st.barrier.pc.next < j.g.n {
      moves, to := OneMove(j, st, Release);
    } else if exists i :: 0 <= i < j.g.n && !st.engine.pc[i].Finished? {
      forall i | 0 <= i < j.g.n ensures !st.engine.pc[i].Waiting? { assert ComputeOk(j, st.barrier.pc, st.engine, i); }
      moves, to := ComputeProgress(j, st);
    } else if i :| 0 <= i < j.g.n && !st.drain.pc[i].CDone? {
      assert DrainOk(j, st.engine.pc, st.engine.tileC, st.drain, i);
      moves, to := OneMove(j, st, CopyC(i));
    } else {
      moves, to := OneMove(j, st, End);
    }
  }

  lemma {:induction false} RunAppend<T>(j: Job<T>, a: State<T>, xs: seq<Move>, b: State<T>, ys: seq<Move>, c: State<T>)
    requires Inv(j, a) && Run(j, a, xs, b) && Sized(j.g.n, b) && Run(j, b, ys, c)
    ensures Run(j, a, xs + ys, c)
    decreases |xs|
  {
    if xs == [] {
      assert xs + ys == ys;
    } else {
      StepInv(j, a, xs[0]);
      RunAppend(j, Step(j, a, xs[0]), xs[1..], b, ys, c);
      assert (xs + ys)[1..] == xs[1..] + ys;
    }
  }

  /** Whatever the schedule has done so far, the run can be completed: no deadlock and no lost signal. */
  lemma {:induction false} CanFinish<T>(j: Job<T>, st: State<T>)
    requires Inv(j, st)
    ensures exists moves, to :: Run(j, st, moves, to) && to.drain.end.EndFired? && to.drain.continuation == 1
    decreases Rank(j, st)
  {
    if st.drain.end.EndFired? {
      assert Run(j, st, [], st);
    } else {
      var moves, mid := NeverStuck(j, st);
      CanFinish(j, mid);
      var rest, to :| Run(j, mid, rest, to) && to.drain.end.EndFired? && to.drain.continuation == 1;
      RunAppend(j, st, moves, mid, rest, to);
    }
  }
}
