/** The loop codelet of the bulk-synchronous Cannon program, and what the program guarantees for every schedule. */
module BulkRounds {
  import opened Grid
  import opened SyncSlots
  import opened CannonJob
  import opened BulkCannon
  import opened BulkProofs
  import P = Pipeline
  import PP = PipelineProofs

  /** While the loop codelet fires and before it signals anyone, no other codelet is running. */
  ghost predicate Quiet<T>(u: Setup, e: Engine<T>) {
    |u.pc| == |e.pc| && forall i: nat :: i < |u.pc| ==> QuietAt(u, e, i)
  }

  predicate QuietAt<T>(u: Setup, e: Engine<T>, i: nat)
    requires i < |u.pc| && i < |e.pc|
  {
    u.pc[i].KDone? && e.pc[i].BWaiting?
  }

  lemma FiringIsQuiet<T>(j: Job<T>, st: State<T>)
    requires Inv(j, st) && (st.loop.pc.LEnabled? || st.loop.pc.LSwapping? || st.loop.pc.LCopying?)
    ensures Quiet(st.setup, st.engine) && AllSent(st.engine.sent, st.loop.cur + 1)
  {
    forall i: nat | i < j.g.n
      ensures QuietAt(st.setup, st.engine, i)
    {
      assert SetupOk(j.g, st.setup, st.mem.side, st.loop, i);
      assert ComputeOk(j, st.setup.pc, st.mem.side, st.engine, st.loop, i);
    }
  }

  /** The loop codelet's control changes while nobody runs. */
  lemma QuietFrame<T>(j: Job<T>, u: Setup, side: seq<bool>, e: Engine<T>, l: Loop, side': seq<bool>, l': Loop)
    requires ValidJob(j) && SizedSetup(j.g.n, u) && |side| == |side'| == j.g.n && SizedEngine(j.g.n, e)
    requires l.cur == l'.cur <= j.g.s && Quiet(u, e) && AllSent(e.sent, l.cur + 1) && !l'.pc.LSignalling?
    requires Setups(j.g, u, side, l) && Computes(j, u.pc, side, e, l)
    ensures Setups(j.g, u, side', l') && Computes(j, u.pc, side', e, l')
  {
    forall k | 0 <= k < j.g.n
      ensures SetupOk(j.g, u, side', l', k) && ComputeOk(j, u.pc, side', e, l', k)
    {
      assert SetupOk(j.g, u, side, l, k) && ComputeOk(j, u.pc, side, e, l, k) && QuietAt(u, e, k);
    }
  }

  /** The side that is read in this round, and so what every buffer holds, is unchanged. */
  lemma SidesFrame<T>(j: Job<T>, u: Setup, m: Mem<T>, e: Engine<T>, l: Loop, m': Mem<T>, l': Loop)
    requires ValidJob(j) && SizedSetup(j.g.n, u) && SizedMem(j.g.n, m) && SizedEngine(j.g.n, e) && SizedMem(j.g.n, m')
    requires l.cur == l'.cur <= j.g.s && m'.a == m.a && m'.b == m.b
    requires forall i: nat :: i < j.g.n ==> Side(m'.side, l', i) == Side(m.side, l, i)
    requires BuffersA(j, u, m, e, l) && BuffersB(j, u, m, e, l)
    ensures BuffersA(j, u, m', e, l') && BuffersB(j, u, m', e, l')
  {
    forall k | 0 <= k < j.g.n
      ensures InA(j, u, m', e, l', k) && InB(j, u, m', e, l', k)
    {
      assert InA(j, u, m, e, l, k) && InB(j, u, m, e, l, k);
    }
  }

  lemma FireInv<T>(j: Job<T>, st: State<T>)
    requires Inv(j, st) && st.loop.pc.LEnabled?
    ensures Inv(j, StepLoop(j, st))
  {
    var l' := StepLoop(j, st).loop;
    FiringIsQuiet(j, st);
    QuietFrame(j, st.setup, st.mem.side, st.engine, st.loop, st.mem.side, l');
    SidesFrame(j, st.setup, st.mem, st.engine, st.loop, st.mem, l');
    DrainsFrame(j, st.engine.tileC, st.loop, st.engine.tileC, l', st.drain);
  }

  lemma SwapInv<T>(j: Job<T>, st: State<T>)
    requires Inv(j, st) && st.loop.pc.LSwapping? && st.loop.pc.next < j.g.n
    ensures Inv(j, StepLoop(j, st))
  {
    var st' := StepLoop(j, st);
    FiringIsQuiet(j, st);
    QuietFrame(j, st.setup, st.mem.side, st.engine, st.loop, st'.mem.side, st'.loop);
    SidesFrame(j, st.setup, st.mem, st.engine, st.loop, st'.mem, st'.loop);
    DrainsFrame(j, st.engine.tileC, st.loop, st.engine.tileC, st'.loop, st.drain);
  }

  /** After all buffers have been exchanged, the tiles sent in the last round are the ones read in the next. */
  lemma NextRoundBuffers<T>(j: Job<T>, u: Setup, m: Mem<T>, e: Engine<T>, l: Loop, l': Loop)
    requires ValidJob(j) && SizedSetup(j.g.n, u) && SizedMem(j.g.n, m) && SizedEngine(j.g.n, e) && l.cur < j.g.s
    requires l.pc == LSwapping(j.g.n) && l'.pc == LSignalling(0) && l'.cur == l.cur + 1
    requires Quiet(u, e) && AllSent(e.sent, l.cur + 1) && BuffersA(j, u, m, e, l) && BuffersB(j, u, m, e, l)
    ensures BuffersA(j, u, m, e, l') && BuffersB(j, u, m, e, l')
  {
    forall k | 0 <= k < j.g.n
      ensures InA(j, u, m, e, l', k) && InB(j, u, m, e, l', k)
    {
      assert InA(j, u, m, e, l, k) && InB(j, u, m, e, l, k);
      assert QuietAt(u, e, SourceA(j, l', k)) && QuietAt(u, e, SourceB(j, l', k));
    }
  }

  lemma NextRoundControl<T>(j: Job<T>, u: Setup, side: seq<bool>, e: Engine<T>, l: Loop, l': Loop)
    requires ValidJob(j) && SizedSetup(j.g.n, u) && |side| == j.g.n && SizedEngine(j.g.n, e)
    requires l.cur < j.g.s && l'.pc == LSignalling(0) && l'.cur == l.cur + 1 && Quiet(u, e) && AllSent(e.sent, l.cur + 1)
    requires Setups(j.g, u, side, l) && Computes(j, u.pc, side, e, l)
    ensures Setups(j.g, u, side, l') && Computes(j, u.pc, side, e, l')
  {
    forall k | 0 <= k < j.g.n
      ensures SetupOk(j.g, u, side, l', k) && ComputeOk(j, u.pc, side, e, l', k)
    {
      assert SetupOk(j.g, u, side, l, k) && ComputeOk(j, u.pc, side, e, l, k) && QuietAt(u, e, k);
    }
  }

  lemma NextRoundInv<T>(j: Job<T>, st: State<T>)
    requires Inv(j, st) && st.loop.pc == LSwapping(j.g.n)
    ensures Inv(j, StepLoop(j, st))
  {
    var l' := StepLoop(j, st).loop;
    FiringIsQuiet(j, st);
    CountAll(st.engine.sent, l'.cur);
    NextRoundBuffers(j, st.setup, st.mem, st.engine, st.loop, l');
    NextRoundControl(j, st.setup, st.mem.side, st.engine, st.loop, l');
    DrainsFrame(j, st.engine.tileC, st.loop, st.engine.tileC, l', st.drain);
  }

  // Signalling the compute codelets

  lemma ReleaseControl<T>(j: Job<T>, u: Setup, side: seq<bool>, e: Engine<T>, l: Loop, l': Loop)
    requires ValidJob(j) && SizedSetup(j.g.n, u) && |side| == j.g.n && SizedEngine(j.g.n, e) && 0 < l.cur <= j.g.s
    requires l.pc.LSignalling? && l.pc.next < j.g.n
    requires l' == l.(pc := if l.pc.next + 1 < j.g.n then LSignalling(l.pc.next + 1) else LWaiting)
    requires Setups(j.g, u, side, l) && Computes(j, u.pc, side, e, l)
    ensures Setups(j.g, u, side, l') && Computes(j, u.pc, side, SignalCompute(e, l.pc.next), l')
  {
    assert ComputeOk(j, u.pc, side, e, l, l.pc.next);
    forall k | 0 <= k < j.g.n
      ensures SetupOk(j.g, u, side, l', k) && ComputeOk(j, u.pc, side, SignalCompute(e, l.pc.next), l', k)
    {
      assert SetupOk(j.g, u, side, l, k) && ComputeOk(j, u.pc, side, e, l, k);
    }
  }

  lemma ReleaseInv<T>(j: Job<T>, st: State<T>)
    requires Inv(j, st) && st.loop.pc.LSignalling?
    ensures Inv(j, StepLoop(j, st))
  {
    var st' := StepLoop(j, st);
    var u, m, e, e', l, l' := st.setup, st.mem, st.engine, st'.engine, st.loop, st'.loop;
    assert ComputeOk(j, u.pc, m.side, e, l, l.pc.next);
    CountOne(e.sent, l.cur, l.pc.next);
    ReleaseControl(j, u, m.side, e, l, l');
    KeepA(j, u, m, e, l, u, m, e', l');
    KeepB(j, u, m, e, l, u, m, e', l');
    DrainsFrame(j, e.tileC, l, e'.tileC, l', st.drain);
  }

  // Copying C back

  lemma CopyBackInv<T>(j: Job<T>, st: State<T>)
    requires Inv(j, st) && st.loop.pc.LCopying? && st.loop.pc.next < j.g.n
    ensures Inv(j, StepLoop(j, st))
  {
    var st' := StepLoop(j, st);
    var l, l', d, k := st.loop, st'.loop, st.drain, st.loop.pc.next;
    FiringIsQuiet(j, st);
    QuietFrame(j, st.setup, st.mem.side, st.engine, l, st.mem.side, l');
    SidesFrame(j, st.setup, st.mem, st.engine, l, st.mem, l');
    CopyBackDrains(j, st.engine.tileC, l, l', d);
  }

  lemma CopyBackDrains<T>(j: Job<T>, tileC: seq<T>, l: Loop, l': Loop, d: P.Drain<T>)
    requires ValidJob(j) && |tileC| == j.g.n && P.SizedDrain(j.g.n, d) && Drains(j, tileC, l, d)
    requires l.pc.LCopying? && l.pc.next < j.g.n && l'.pc == LCopying(l.pc.next + 1)
    ensures Drains(j, tileC, l', P.SignalCopyC(d, l.pc.next))
  {
    var k, d' := l.pc.next, P.SignalCopyC(d, l.pc.next);
    assert PP.DrainOk(j, Released(j.g.n, l), tileC, d, k);
    CountUpdate(d.pc, P.CDone, k, P.CEnabled);
    forall i | 0 <= i < j.g.n
      ensures PP.DrainOk(j, Released(j.g.n, l'), tileC, d', i)
    {
      assert PP.DrainOk(j, Released(j.g.n, l), tileC, d, i);
    }
  }

  lemma CopyCInv<T>(j: Job<T>, st: State<T>, i: nat)
    requires Inv(j, st) && Runnable(j, st, CopyC(i))
    ensures Inv(j, Step(j, st, CopyC(i)))
  {
    PP.CopyCDrain(j, Released(j.g.n, st.loop), st.engine.tileC, st.drain, i);
    CountUpdate(st.drain.pc, P.CDone, i, P.CCopied);
    CountUpdate(st.drain.pc, P.CDone, i, P.CDone);
  }

  lemma EndInv<T>(j: Job<T>, st: State<T>)
    requires Inv(j, st) && Runnable(j, st, End)
    ensures Inv(j, Step(j, st, End))
  {
    var d, d', pcs := st.drain, Step(j, st, End).drain, Released(j.g.n, st.loop);
    forall k | 0 <= k < j.g.n
      ensures PP.DrainOk(j, pcs, st.engine.tileC, d', k)
    {
      assert PP.DrainOk(j, pcs, st.engine.tileC, d, k);
    }
  }

  /** Every micro-step of every codelet keeps the invariant. */
  lemma StepInv<T>(j: Job<T>, st: State<T>, m: Move)
    requires Inv(j, st) && Runnable(j, st, m)
    ensures Inv(j, Step(j, st, m))
  {
    match m
    case CopyA(i) => CopyAInv(j, st, i);
    case CopyB(i) => CopyBInv(j, st, i);
    case Skew(i) => if st.setup.pc[i].KSignal? { SkewSignals(j, st, i); } else { SkewMoves(j, st, i); }
    case Iterate =>
      if st.loop.pc.LEnabled? { FireInv(j, st); }
      else if st.loop.pc.LSignalling? { ReleaseInv(j, st); }
      else if st.loop.pc.LCopying? { CopyBackInv(j, st); }
      else if st.loop.pc.next < j.g.n { SwapInv(j, st); }
      else { NextRoundInv(j, st); }
    case Compute(i) => if st.engine.pc[i].BSignal? { ComputeSignals(j, st, i); } else { ComputeMoves(j, st, i); }
    case CopyC(i) => CopyCInv(j, st, i);
    case End => EndInv(j, st);
  }

  lemma {:induction false} RunInv<T>(j: Job<T>, from: State<T>, moves: seq<Move>, to: State<T>)
    requires Inv(j, from) && Run(j, from, moves, to)
    ensures Inv(j, to)
    decreases |moves|
  {
    if moves != [] {
      StepInv(j, from, moves[0]);
      RunInv(j, Step(j, from, moves[0]), moves[1..], to);
    }
  }

  // Results

  /** Under every interleaving the continuation is signalled at most once, after the loop codelet has fired exactly
      s + 1 times, and then every block of C is the accumulated product of its tile. */
  lemma EveryBulkRunComputes<T>(j: Job<T>, c: seq<seq<T>>, moves: seq<Move>, to: State<T>)
    requires ValidJob(j) && IsGrid(c, j.g.s) && Run(j, Init(j, c), moves, to)
    ensures to.drain.continuation <= 1 && to.loop.fires <= j.g.s + 1
    ensures IsGrid(to.drain.c, j.g.s)
    ensures to.drain.continuation == 1 ==>
      && to.loop.fires == j.g.s + 1
      && forall r, c :: 0 <= r < j.g.s && 0 <= c < j.g.s ==> to.drain.c[r][c] == Accumulated(j, j.g.at[r][c], j.g.s)
  {
    InitInv(j, c);
    RunInv(j, Init(j, c), moves, to);
    if to.drain.continuation == 1 {
      CountAll(to.drain.pc, P.CDone);
      forall r, c | 0 <= r < j.g.s && 0 <= c < j.g.s
        ensures to.drain.c[r][c] == Accumulated(j, j.g.at[r][c], j.g.s) && to.loop.fires == j.g.s + 1
      {
        BlockResult(j, to, r, c);
      }
      BlockResult(j, to, 0, 0);
    }
  }

  lemma BlockResult<T>(j: Job<T>, st: State<T>, r: nat, c: nat)
    requires Inv(j, st) && r < j.g.s && c < j.g.s && forall i :: 0 <= i < j.g.n ==> st.drain.pc[i].CDone?
    ensures st.drain.c[r][c] == Accumulated(j, j.g.at[r][c], j.g.s) && st.loop.fires == j.g.s + 1
  {
    var i := j.g.at[r][c];
    assert TileAt(j.g, r, c);
    assert PP.DrainOk(j, Released(j.g.n, st.loop), st.engine.tileC, st.drain, i);
    assert ComputeOk(j, st.setup.pc, st.mem.side, st.engine, st.loop, i);
  }

  // The operands each tile multiplies

  ghost function MoveProduct<T>(st: State<T>, m: Move, i: nat): seq<(T, T)>
    requires Sized(|st.engine.pc|, st) && i < |st.engine.pc|
  {
    if m == Compute(i) && st.engine.pc[i].BMultiply?
    then [(Get(st.mem.a, st.engine.pc[i].rd, i), Get(st.mem.b, st.engine.pc[i].rd, i))] else []
  }

  /** The operand pairs that tile i multiplies in the course of a run, in order. */
  ghost function Multiplied<T>(j: Job<T>, from: State<T>, moves: seq<Move>, i: nat): seq<(T, T)>
    requires ValidJob(j) && Sized(j.g.n, from) && i < j.g.n
    decreases |moves|
  {
    if moves == [] || !Runnable(j, from, moves[0]) then []
    else MoveProduct(from, moves[0], i) + Multiplied(j, Step(j, from, moves[0]), moves[1..], i)
  }

  ghost function Made<T>(st: State<T>, i: nat): nat
    requires Sized(|st.engine.pc|, st) && i < |st.engine.pc|
  {
    Products(st.engine, st.loop, i)
  }

  lemma ProductMade<T>(j: Job<T>, st: State<T>, i: nat)
    requires Inv(j, st) && Runnable(j, st, Compute(i)) && st.engine.pc[i].BMultiply?
    ensures 0 < st.loop.cur <= j.g.s && Made(st, i) == st.loop.cur - 1 && Made(StepCompute(j, st, i), i) == st.loop.cur
    ensures MoveProduct(st, Compute(i), i) == [(OperandA(j, i, st.loop.cur - 1), OperandB(j, i, st.loop.cur - 1))]
  {
    Running(j, st, i);
    assert ComputeOk(j, st.setup.pc, st.mem.side, st.engine, st.loop, i);
  }

  lemma NothingMade<T>(j: Job<T>, st: State<T>, m: Move, i: nat)
    requires Inv(j, st) && Runnable(j, st, m) && i < j.g.n && !(m == Compute(i) && st.engine.pc[i].BMultiply?)
    ensures Made(Step(j, st, m), i) == Made(st, i) <= j.g.s
  {
    assert ComputeOk(j, st.setup.pc, st.mem.side, st.engine, st.loop, i);
    if m.Iterate? && (st.loop.pc.LSwapping? || st.loop.pc.LSignalling?) {
      LoopMakesNothing(j, st, i);
    } else if m.Skew? {
      assert SetupOk(j.g, st.setup, st.mem.side, st.loop, m.i);
    }
  }

  lemma LoopMakesNothing<T>(j: Job<T>, st: State<T>, i: nat)
    requires Inv(j, st) && (st.loop.pc.LSwapping? || st.loop.pc.LSignalling?) && i < j.g.n
    ensures Made(StepLoop(j, st), i) == Made(st, i)
  {
    assert ComputeOk(j, st.setup.pc, st.mem.side, st.engine, st.loop, i);
    if st.loop.pc.LSignalling? {
      assert ComputeOk(j, st.setup.pc, st.mem.side, st.engine, st.loop, st.loop.pc.next);
    }
  }

  lemma {:induction false} MultipliesInOrder<T>(j: Job<T>, from: State<T>, moves: seq<Move>, to: State<T>, i: nat)
    requires Inv(j, from) && Run(j, from, moves, to) && i < j.g.n
    ensures Sized(j.g.n, to) && Made(from, i) <= Made(to, i) <= j.g.s
    ensures Multiplied(j, from, moves, i) == Pairs(j, i, Made(from, i), Made(to, i))
    decreases |moves|
  {
    if moves == [] {
      assert ComputeOk(j, from.setup.pc, from.mem.side, from.engine, from.loop, i);
    } else {
      var next := Step(j, from, moves[0]);
      StepInv(j, from, moves[0]);
      MultipliesInOrder(j, next, moves[1..], to, i);
      if moves[0] == Compute(i) && from.engine.pc[i].BMultiply? {
        ProductMade(j, from, i);
      } else {
        NothingMade(j, from, moves[0], i);
      }
      PairsJoin(j, i, Made(from, i), Made(next, i), Made(to, i));
    }
  }

  /** At any time tile i has multiplied the first of its s operand pairs, each once and in the order of the rounds; when the
      continuation has been signalled, all of them. */
  lemma EveryBulkRunMultiplies<T>(j: Job<T>, c: seq<seq<T>>, moves: seq<Move>, to: State<T>, i: nat)
    requires ValidJob(j) && IsGrid(c, j.g.s) && Run(j, Init(j, c), moves, to) && i < j.g.n
    ensures Sized(j.g.n, to)
    ensures Multiplied(j, Init(j, c), moves, i) <= Pairs(j, i, 0, j.g.s)
    ensures to.drain.continuation == 1 ==> Multiplied(j, Init(j, c), moves, i) == Pairs(j, i, 0, j.g.s)
  {
    InitInv(j, c);
    RunInv(j, Init(j, c), moves, to);
    MultipliesInOrder(j, Init(j, c), moves, to, i);
    PairsJoin(j, i, 0, Made(to, i), j.g.s);
    if to.drain.continuation == 1 {
      CountAll(to.drain.pc, P.CDone);
      BlockResult(j, to, 0, 0);
      assert ComputeOk(j, to.setup.pc, to.mem.side, to.engine, to.loop, i);
      assert PP.DrainOk(j, Released(j.g.n, to.loop), to.engine.tileC, to.drain, i);
    }
  }
}
