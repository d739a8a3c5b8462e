/** What every interleaving of the pipelined Cannon codelets keeps. */
module PipelineProofs {
  import opened Sums
  import opened Grid
  import opened SyncSlots
  import opened CannonJob
  import opened Pipeline

  // How often tile i has pushed to its neighbours, popped its own queues and multiplied.

  ghost predicate AfterPushA(pc: ComputePc) { pc.PushB? || pc.PopA? || pc.PopB? }

  ghost predicate AfterPushB(pc: ComputePc) { pc.PopA? || pc.PopB? }

  ghost predicate AfterProduct(pc: ComputePc) { pc.PushA? || AfterPushA(pc) }

  ghost function PushesA<T>(e: Engine<T>, i: nat): nat
    requires i < |e.pc| == |e.iter|
  {
    e.iter[i] + if AfterPushA(e.pc[i]) then 1 else 0
  }

  ghost function PushesB<T>(e: Engine<T>, i: nat): nat
    requires i < |e.pc| == |e.iter|
  {
    e.iter[i] + if AfterPushB(e.pc[i]) then 1 else 0
  }

  ghost function PopsA<T>(e: Engine<T>, i: nat): nat
    requires i < |e.pc| == |e.iter|
  {
    e.iter[i] + if e.pc[i].PopB? then 1 else 0
  }

  ghost function PopsB<T>(e: Engine<T>, i: nat): nat
    requires i < |e.pc| == |e.iter|
  {
    e.iter[i]
  }

  ghost function Products<T>(e: Engine<T>, i: nat): nat
    requires i < |e.pc| == |e.iter|
  {
    e.iter[i] + if AfterProduct(e.pc[i]) then 1 else 0
  }

  ghost predicate SentA(pc: SkewPc) { pc.PushedA? || pc.PushedB? || pc.SkewDone? }

  ghost predicate SentB(pc: SkewPc) { pc.PushedB? || pc.SkewDone? }

  /** How many tiles have been pushed into the A queue of tile i. */
  ghost function ArrivedA<T>(j: Job<T>, skew: seq<SkewPc>, e: Engine<T>, i: nat): nat
    requires ValidJob(j) && SizedEngine(j.g.n, e) && |skew| == j.g.n && i < j.g.n
  {
    PushesA(e, j.g.left[i]) + if SentA(skew[j.g.fromRow[i]]) then 1 else 0
  }

  ghost function ArrivedB<T>(j: Job<T>, skew: seq<SkewPc>, e: Engine<T>, i: nat): nat
    requires ValidJob(j) && SizedEngine(j.g.n, e) && |skew| == j.g.n && i < j.g.n
  {
    PushesB(e, j.g.up[i]) + if SentB(skew[j.g.fromCol[i]]) then 1 else 0
  }

  /** OperandA(i, lo), ..., OperandA(i, hi - 1). */
  ghost function StreamA<T>(j: Job<T>, i: nat, lo: nat, hi: nat): (q: seq<T>)
    requires ValidJob(j) && i < j.g.n && lo <= hi <= j.g.s + 1
    ensures |q| == hi - lo
    decreases hi
  {
    if lo == hi then [] else StreamA(j, i, lo, hi - 1) + [OperandA(j, i, hi - 1)]
  }

  ghost function StreamB<T>(j: Job<T>, i: nat, lo: nat, hi: nat): (q: seq<T>)
    requires ValidJob(j) && i < j.g.n && lo <= hi <= j.g.s + 1
    ensures |q| == hi - lo
    decreases hi
  {
    if lo == hi then [] else StreamB(j, i, lo, hi - 1) + [OperandB(j, i, hi - 1)]
  }

  lemma {:induction false} StreamHead<T>(j: Job<T>, i: nat, lo: nat, hi: nat)
    requires ValidJob(j) && i < j.g.n && lo < hi <= j.g.s + 1
    ensures StreamA(j, i, lo, hi) == [OperandA(j, i, lo)] + StreamA(j, i, lo + 1, hi)
    ensures StreamB(j, i, lo, hi) == [OperandB(j, i, lo)] + StreamB(j, i, lo + 1, hi)
    decreases hi
  {
    if lo + 1 < hi {
      StreamHead(j, i, lo, hi - 1);
    }
  }

  /** The queues of tile i hold its operand streams from its own pops up to what has arrived. */
  ghost predicate QueueAOk<T>(j: Job<T>, skew: seq<SkewPc>, e: Engine<T>, i: nat)
    requires ValidJob(j) && SizedEngine(j.g.n, e) && |skew| == j.g.n && i < j.g.n
  {
    && PopsA(e, i) <= ArrivedA(j, skew, e, i) <= j.g.s + 1
    && e.queueA[i] == StreamA(j, i, PopsA(e, i), ArrivedA(j, skew, e, i))
  }

  ghost predicate QueueBOk<T>(j: Job<T>, skew: seq<SkewPc>, e: Engine<T>, i: nat)
    requires ValidJob(j) && SizedEngine(j.g.n, e) && |skew| == j.g.n && i < j.g.n
  {
    && PopsB(e, i) <= ArrivedB(j, skew, e, i) <= j.g.s + 1
    && e.queueB[i] == StreamB(j, i, PopsB(e, i), ArrivedB(j, skew, e, i))
  }

  ghost predicate QueuesA<T>(j: Job<T>, skew: seq<SkewPc>, e: Engine<T>)
    requires ValidJob(j) && SizedEngine(j.g.n, e) && |skew| == j.g.n
  {
    forall i :: 0 <= i < j.g.n ==> QueueAOk(j, skew, e, i)
  }

  ghost predicate QueuesB<T>(j: Job<T>, skew: seq<SkewPc>, e: Engine<T>)
    requires ValidJob(j) && SizedEngine(j.g.n, e) && |skew| == j.g.n
  {
    forall i :: 0 <= i < j.g.n ==> QueueBOk(j, skew, e, i)
  }

  ghost predicate CopiesOk<T>(j: Job<T>, u: Setup<T>, i: nat)
    requires ValidJob(j) && SizedSetup(j.g.n, u) && i < j.g.n
  {
    && (!u.copyA[i].Ready? ==> u.scratchA[i] == j.a[j.g.row[i]][j.g.col[i]])
    && (!u.copyB[i].Ready? ==> u.scratchB[i] == j.b[j.g.row[i]][j.g.col[i]])
    && u.dep[i] == (if u.copyA[i].Signalled? then 0 else 1) + (if u.copyB[i].Signalled? then 0 else 1)
    && (u.pc[i].SkewWaiting? <==> u.dep[i] > 0)
  }

  ghost predicate ComputeOk<T>(j: Job<T>, b: BarrierPc, e: Engine<T>, i: nat)
    requires ValidJob(j) && SizedEngine(j.g.n, e) && i < j.g.n
  {
    var pc := e.pc[i];
    && (pc.Waiting? <==> b.BarrierWaiting? || i >= b.next)
    && (pc.Waiting? ==> e.dep[i] == 1)
    && (pc.Waiting? || pc.Enabled? ==> e.iter[i] == 0)
    && (if pc.Last? || pc.Finished? then e.iter[i] == j.g.s else e.iter[i] < j.g.s)
    && ((pc.PeekB? && pc.gotA) || pc.Multiply? || pc.PushA? || pc.PushB? || pc.PopA? ==> e.queueA[i] != [])
    && (pc.Multiply? || AfterProduct(pc) ==> e.queueB[i] != [])
    && e.tileC[i] == Accumulated(j, i, Products(e, i))
  }

  ghost predicate DrainOk<T>(j: Job<T>, compute: seq<ComputePc>, tileC: seq<T>, d: Drain<T>, i: nat)
    requires ValidJob(j) && |compute| == |tileC| == j.g.n && SizedDrain(j.g.n, d) && IsGrid(d.c, j.g.s) && i < j.g.n
  {
    && d.dep[i] == (if compute[i].Finished? then 0 else 1)
    && (d.pc[i].CWaiting? <==> !compute[i].Finished?)
    && (d.pc[i].CCopied? || d.pc[i].CDone? ==> d.c[j.g.row[i]][j.g.col[i]] == tileC[i])
  }

  ghost predicate EngineOk<T>(j: Job<T>, skew: seq<SkewPc>, b: BarrierPc, e: Engine<T>)
    requires ValidJob(j) && SizedEngine(j.g.n, e) && |skew| == j.g.n
  {
    && !e.fault
    && QueuesA(j, skew, e)
    && QueuesB(j, skew, e)
    && (forall i :: 0 <= i < j.g.n ==> ComputeOk(j, b, e, i))
  }

  ghost predicate BarrierOk(n: nat, skew: seq<SkewPc>, b: Barrier) {
    && b.dep == n - Count(skew, SkewDone)
    && (b.pc.BarrierWaiting? <==> b.dep > 0)
    && (b.pc.BarrierFiring? ==> b.pc.next <= n)
  }

  ghost predicate EndOk<T>(n: nat, d: Drain<T>) {
    && d.endDep == n - Count(d.pc, CDone)
    && (d.end.EndWaiting? <==> d.endDep > 0)
    && d.continuation == (if d.end.EndFired? then 1 else 0)
  }

  /** The invariant of every run. */
  ghost predicate Inv<T>(j: Job<T>, st: State<T>) {
    && ValidJob(j) && Sized(j.g.n, st) && IsGrid(st.drain.c, j.g.s)
    && BarrierOk(j.g.n, st.setup.pc, st.barrier)
    && EndOk(j.g.n, st.drain)
    && EngineOk(j, st.setup.pc, st.barrier.pc, st.engine)
    && (forall i :: 0 <= i < j.g.n ==> CopiesOk(j, st.setup, i))
    && (forall i :: 0 <= i < j.g.n ==> DrainOk(j, st.engine.pc, st.engine.tileC, st.drain, i))
  }

  lemma InitInv<T>(j: Job<T>, c: seq<seq<T>>)
    requires ValidJob(j) && IsGrid(c, j.g.s)
    ensures Inv(j, Init(j, c))
  {
    var st := Init(j, c);
    CountNone(st.setup.pc, SkewDone);
    CountNone(st.drain.pc, CDone);
  }

  /** A move that pushes and pops no A tile keeps the A queues right. */
  lemma IdleA<T>(j: Job<T>, skew: seq<SkewPc>, e: Engine<T>, skew': seq<SkewPc>, e': Engine<T>)
    requires ValidJob(j) && SizedEngine(j.g.n, e) && SizedEngine(j.g.n, e') && |skew| == |skew'| == j.g.n
    requires QueuesA(j, skew, e) && e'.queueA == e.queueA
    requires forall k :: 0 <= k < j.g.n ==>
      PopsA(e', k) == PopsA(e, k) && PushesA(e', k) == PushesA(e, k) && SentA(skew'[k]) == SentA(skew[k])
    ensures QueuesA(j, skew', e')
  {
    forall k | 0 <= k < j.g.n ensures QueueAOk(j, skew', e', k) { assert QueueAOk(j, skew, e, k); }
  }

  lemma IdleB<T>(j: Job<T>, skew: seq<SkewPc>, e: Engine<T>, skew': seq<SkewPc>, e': Engine<T>)
    requires ValidJob(j) && SizedEngine(j.g.n, e) && SizedEngine(j.g.n, e') && |skew| == |skew'| == j.g.n
    requires QueuesB(j, skew, e) && e'.queueB == e.queueB
    requires forall k :: 0 <= k < j.g.n ==>
      PopsB(e', k) == PopsB(e, k) && PushesB(e', k) == PushesB(e, k) && SentB(skew'[k]) == SentB(skew[k])
    ensures QueuesB(j, skew', e')
  {
    forall k | 0 <= k < j.g.n ensures QueueBOk(j, skew', e', k) { assert QueueBOk(j, skew, e, k); }
  }

  /** Pushing the next tile of d's A stream into its queue keeps the A queues right. */
  lemma DeliverA<T>(j: Job<T>, skew: seq<SkewPc>, e: Engine<T>, skew': seq<SkewPc>, e': Engine<T>, d: nat, t: T)
    requires ValidJob(j) && SizedEngine(j.g.n, e) && SizedEngine(j.g.n, e') && |skew| == |skew'| == j.g.n && d < j.g.n
    requires QueuesA(j, skew, e) && e'.queueA == Pushed(e.queueA, d, t)
    requires forall k :: 0 <= k < j.g.n ==>
      && PopsA(e', k) == PopsA(e, k)
      && ArrivedA(j, skew', e', k) == ArrivedA(j, skew, e, k) + (if k == d then 1 else 0)
    requires ArrivedA(j, skew, e, d) <= j.g.s && t == OperandA(j, d, ArrivedA(j, skew, e, d))
    ensures QueuesA(j, skew', e')
  {
    forall k | 0 <= k < j.g.n ensures QueueAOk(j, skew', e', k) { assert QueueAOk(j, skew, e, k); }
  }

  lemma DeliverB<T>(j: Job<T>, skew: seq<SkewPc>, e: Engine<T>, skew': seq<SkewPc>, e': Engine<T>, d: nat, t: T)
    requires ValidJob(j) && SizedEngine(j.g.n, e) && SizedEngine(j.g.n, e') && |skew| == |skew'| == j.g.n && d < j.g.n
    requires QueuesB(j, skew, e) && e'.queueB == Pushed(e.queueB, d, t)
    requires forall k :: 0 <= k < j.g.n ==>
      && PopsB(e', k) == PopsB(e, k)
      && ArrivedB(j, skew', e', k) == ArrivedB(j, skew, e, k) + (if k == d then 1 else 0)
    requires ArrivedB(j, skew, e, d) <= j.g.s && t == OperandB(j, d, ArrivedB(j, skew, e, d))
    ensures QueuesB(j, skew', e')
  {
    forall k | 0 <= k < j.g.n ensures QueueBOk(j, skew', e', k) { assert QueueBOk(j, skew, e, k); }
  }

  lemma CopyAInv<T>(j: Job<T>, st: State<T>, i: nat)
    requires Inv(j, st) && Runnable(j, st, CopyA(i))
    ensures Inv(j, Step(j, st, CopyA(i)))
  {
    assert CopiesOk(j, st.setup, i);
    var u := Step(j, st, CopyA(i)).setup;
    CountUpdate(st.setup.pc, SkewDone, i, SkewEnabled);
    IdleA(j, st.setup.pc, st.engine, u.pc, st.engine);
    IdleB(j, st.setup.pc, st.engine, u.pc, st.engine);
    forall k | 0 <= k < j.g.n ensures CopiesOk(j, u, k) { assert CopiesOk(j, st.setup, k); }
  }

  lemma CopyBInv<T>(j: Job<T>, st: State<T>, i: nat)
    requires Inv(j, st) && Runnable(j, st, CopyB(i))
    ensures Inv(j, Step(j, st, CopyB(i)))
  {
    assert CopiesOk(j, st.setup, i);
    var u := Step(j, st, CopyB(i)).setup;
    CountUpdate(st.setup.pc, SkewDone, i, SkewEnabled);
    IdleA(j, st.setup.pc, st.engine, u.pc, st.engine);
    IdleB(j, st.setup.pc, st.engine, u.pc, st.engine);
    forall k | 0 <= k < j.g.n ensures CopiesOk(j, u, k) { assert CopiesOk(j, st.setup, k); }
  }

  /** A tile that no neighbour and no skew codelet has pushed to yet has computed nothing. */
  lemma SkewPushesFirst<T>(j: Job<T>, st: State<T>, i: nat)
    requires Inv(j, st) && i < j.g.n && !st.setup.pc[i].SkewDone?
    ensures st.barrier.pc.BarrierWaiting?
    ensures forall k :: 0 <= k < j.g.n ==> st.engine.pc[k].Waiting? && st.engine.iter[k] == 0
  {
    CountAll(st.setup.pc, SkewDone);
    forall k | 0 <= k < j.g.n ensures st.engine.pc[k].Waiting? && st.engine.iter[k] == 0 {
      assert ComputeOk(j, st.barrier.pc, st.engine, k);
    }
  }

  /** Only tile i's own step can take anything from its queues or change its local state. */
  lemma ComputeFrame<T>(j: Job<T>, b: BarrierPc, e: Engine<T>, e': Engine<T>, i: int)
    requires ValidJob(j) && SizedEngine(j.g.n, e) && SizedEngine(j.g.n, e')
    requires forall k :: 0 <= k < j.g.n ==> ComputeOk(j, b, e, k)
    requires forall k :: 0 <= k < j.g.n && k != i ==>
      && e'.pc[k] == e.pc[k] && e'.iter[k] == e.iter[k] && e'.dep[k] == e.dep[k] && e'.tileC[k] == e.tileC[k]
      && |e'.queueA[k]| >= |e.queueA[k]| && |e'.queueB[k]| >= |e.queueB[k]|
    requires 0 <= i < j.g.n ==> ComputeOk(j, b, e', i)
    ensures forall k :: 0 <= k < j.g.n ==> ComputeOk(j, b, e', k)
  {
    forall k | 0 <= k < j.g.n && k != i ensures ComputeOk(j, b, e', k) { assert ComputeOk(j, b, e, k); }
  }

  /** The first tile of d's A stream may be pushed while nothing has started. */
  lemma SkewPushAEngine<T>(j: Job<T>, skew: seq<SkewPc>, b: BarrierPc, e: Engine<T>, i: nat)
    requires ValidJob(j) && SizedEngine(j.g.n, e) && |skew| == j.g.n && i < j.g.n
    requires EngineOk(j, skew, b, e) && skew[i].SkewEnabled?
    requires forall k :: 0 <= k < j.g.n ==> e.pc[k].Waiting? && e.iter[k] == 0
    ensures EngineOk(j, skew[i := PushedA], b,
                     e.(queueA := Pushed(e.queueA, j.g.destRow[i], j.a[j.g.row[i]][j.g.col[i]])))
  {
    var d, skew', t := j.g.destRow[i], skew[i := PushedA], j.a[j.g.row[i]][j.g.col[i]];
    var e' := e.(queueA := Pushed(e.queueA, d, t));
    SkewStarts(j.g, i);
    assert Wired(j.g, i);
    forall k | 0 <= k < j.g.n
      ensures ArrivedA(j, skew', e', k) == ArrivedA(j, skew, e, k) + (if k == d then 1 else 0)
    {
      assert Wired(j.g, k);
    }
    DeliverA(j, skew, e, skew', e', d, t);
    IdleB(j, skew, e, skew', e');
    ComputeFrame(j, b, e, e', -1);
  }

  lemma SkewPushBEngine<T>(j: Job<T>, skew: seq<SkewPc>, b: BarrierPc, e: Engine<T>, i: nat)
    requires ValidJob(j) && SizedEngine(j.g.n, e) && |skew| == j.g.n && i < j.g.n
    requires EngineOk(j, skew, b, e) && skew[i].PushedA?
    requires forall k :: 0 <= k < j.g.n ==> e.pc[k].Waiting? && e.iter[k] == 0
    ensures EngineOk(j, skew[i := PushedB], b,
                     e.(queueB := Pushed(e.queueB, j.g.destCol[i], j.b[j.g.row[i]][j.g.col[i]])))
  {
    var d, skew', t := j.g.destCol[i], skew[i := PushedB], j.b[j.g.row[i]][j.g.col[i]];
    var e' := e.(queueB := Pushed(e.queueB, d, t));
    SkewStarts(j.g, i);
    assert Wired(j.g, i);
    forall k | 0 <= k < j.g.n
      ensures ArrivedB(j, skew', e', k) == ArrivedB(j, skew, e, k) + (if k == d then 1 else 0)
    {
      assert Wired(j.g, k);
    }
    DeliverB(j, skew, e, skew', e', d, t);
    IdleA(j, skew, e, skew', e');
    ComputeFrame(j, b, e, e', -1);
  }

  lemma SkewPushInv<T>(j: Job<T>, st: State<T>, i: nat)
    requires Inv(j, st) && i < j.g.n && (st.setup.pc[i].SkewEnabled? || st.setup.pc[i].PushedA?)
    ensures Inv(j, Step(j, st, Skew(i)))
  {
    var u, st' := st.setup, Step(j, st, Skew(i));
    SkewPushesFirst(j, st, i);
    assert CopiesOk(j, u, i);
    if u.pc[i].SkewEnabled? {
      SkewPushAEngine(j, u.pc, st.barrier.pc, st.engine, i);
    } else {
      SkewPushBEngine(j, u.pc, st.barrier.pc, st.engine, i);
    }
    CountUpdate(u.pc, SkewDone, i, st'.setup.pc[i]);
    forall k | 0 <= k < j.g.n ensures CopiesOk(j, st'.setup, k) { assert CopiesOk(j, u, k); }
  }

  lemma SkewSignalInv<T>(j: Job<T>, st: State<T>, i: nat)
    requires Inv(j, st) && i < j.g.n && st.setup.pc[i].PushedB?
    ensures Inv(j, Step(j, st, Skew(i)))
  {
    var st' := Step(j, st, Skew(i));
    SkewPushesFirst(j, st, i);
    CountUpdate(st.setup.pc, SkewDone, i, SkewDone);
    IdleA(j, st.setup.pc, st.engine, st'.setup.pc, st.engine);
    IdleB(j, st.setup.pc, st.engine, st'.setup.pc, st.engine);
    forall k | 0 <= k < j.g.n ensures CopiesOk(j, st'.setup, k) { assert CopiesOk(j, st.setup, k); }
    forall k | 0 <= k < j.g.n ensures ComputeOk(j, st'.barrier.pc, st.engine, k) { assert ComputeOk(j, st.barrier.pc, st.engine, k); }
  }

  /** Before a tile has finished, its copy-back codelet only waits. */
  lemma DrainFrame<T>(j: Job<T>, e: Engine<T>, e': Engine<T>, d: Drain<T>)
    requires ValidJob(j) && SizedEngine(j.g.n, e) && SizedEngine(j.g.n, e') && SizedDrain(j.g.n, d) && IsGrid(d.c, j.g.s)
    requires forall k :: 0 <= k < j.g.n ==> DrainOk(j, e.pc, e.tileC, d, k)
    requires forall k :: 0 <= k < j.g.n ==>
      (e'.pc[k].Finished? <==> e.pc[k].Finished?) && (e.pc[k].Finished? ==> e'.tileC[k] == e.tileC[k])
    ensures forall k :: 0 <= k < j.g.n ==> DrainOk(j, e'.pc, e'.tileC, d, k)
  {
    forall k | 0 <= k < j.g.n ensures DrainOk(j, e'.pc, e'.tileC, d, k) { assert DrainOk(j, e.pc, e.tileC, d, k); }
  }

  lemma ReleaseInv<T>(j: Job<T>, st: State<T>)
    requires Inv(j, st) && Runnable(j, st, Release)
    ensures Inv(j, Step(j, st, Release))
  {
    var e, e' := st.engine, Step(j, st, Release).engine;
    var b' := BarrierFiring(st.barrier.pc.next + 1);
    assert ComputeOk(j, st.barrier.pc, e, st.barrier.pc.next);
    IdleA(j, st.setup.pc, e, st.setup.pc, e');
    IdleB(j, st.setup.pc, e, st.setup.pc, e');
    forall k | 0 <= k < j.g.n ensures ComputeOk(j, b', e', k) { assert ComputeOk(j, st.barrier.pc, e, k); }
    DrainFrame(j, e, e', st.drain);
  }

  // The compute codelet

  /** The heads of the two queues are the operands of the current iteration. */
  lemma Heads<T>(j: Job<T>, skew: seq<SkewPc>, e: Engine<T>, i: nat)
    requires ValidJob(j) && SizedEngine(j.g.n, e) && |skew| == j.g.n && i < j.g.n
    requires QueueAOk(j, skew, e, i) && QueueBOk(j, skew, e, i) && e.iter[i] < j.g.s
    ensures !e.pc[i].PopB? && e.queueA[i] != [] ==> e.queueA[i][0] == OperandA(j, i, e.iter[i])
    ensures e.queueB[i] != [] ==> e.queueB[i][0] == OperandB(j, i, e.iter[i])
  {
    if !e.pc[i].PopB? && e.queueA[i] != [] {
      StreamHead(j, i, e.iter[i], ArrivedA(j, skew, e, i));
    }
    if e.queueB[i] != [] {
      StreamHead(j, i, e.iter[i], ArrivedB(j, skew, e, i));
    }
  }

  lemma ComputeLocal<T>(j: Job<T>, skew: seq<SkewPc>, b: BarrierPc, e: Engine<T>, i: nat)
    requires ValidJob(j) && SizedEngine(j.g.n, e) && |skew| == j.g.n && i < j.g.n && !e.fault
    requires QueueAOk(j, skew, e, i) && QueueBOk(j, skew, e, i) && ComputeOk(j, b, e, i)
    requires !e.pc[i].Waiting? && !e.pc[i].Finished?
    ensures !StepCompute(j, e, i).fault && ComputeOk(j, b, StepCompute(j, e, i), i)
  {
    if e.pc[i].Multiply? {
      Heads(j, skew, e, i);
    }
  }

  /** Pushing the current A tile right hands the neighbour the operand of its next iteration. */
  lemma PushAStep<T>(j: Job<T>, skew: seq<SkewPc>, e: Engine<T>, e': Engine<T>, i: nat)
    requires ValidJob(j) && SizedEngine(j.g.n, e) && |skew| == j.g.n && i < j.g.n && e.iter[i] < j.g.s
    requires QueuesA(j, skew, e) && e.pc[i].PushA? && e.queueA[i] != []
    requires forall k :: 0 <= k < j.g.n ==> skew[k].SkewDone?
    requires e' == GoTo(e.(queueA := Pushed(e.queueA, j.g.nextRow[i], e.queueA[i][0])), i, PushB)
    ensures QueuesA(j, skew, e')
  {
    var d := j.g.nextRow[i];
    assert QueueAOk(j, skew, e, i) && Wired(j.g, i);
    StreamHead(j, i, e.iter[i], ArrivedA(j, skew, e, i));
    ShiftKeepsInner(j.g, i, e.iter[i]);
    forall k | 0 <= k < j.g.n
      ensures ArrivedA(j, skew, e', k) == ArrivedA(j, skew, e, k) + (if k == d then 1 else 0)
    {
      assert Wired(j.g, k);
    }
    DeliverA(j, skew, e, skew, e', d, e.queueA[i][0]);
  }

  lemma PushBStep<T>(j: Job<T>, skew: seq<SkewPc>, e: Engine<T>, e': Engine<T>, i: nat)
    requires ValidJob(j) && SizedEngine(j.g.n, e) && |skew| == j.g.n && i < j.g.n && e.iter[i] < j.g.s
    requires QueuesB(j, skew, e) && e.pc[i].PushB? && e.queueB[i] != []
    requires forall k :: 0 <= k < j.g.n ==> skew[k].SkewDone?
    requires e' == GoTo(e.(queueB := Pushed(e.queueB, j.g.nextCol[i], e.queueB[i][0])), i, PopA)
    ensures QueuesB(j, skew, e')
  {
    var d := j.g.nextCol[i];
    assert QueueBOk(j, skew, e, i) && Wired(j.g, i);
    StreamHead(j, i, e.iter[i], ArrivedB(j, skew, e, i));
    ShiftKeepsInner(j.g, i, e.iter[i]);
    forall k | 0 <= k < j.g.n
      ensures ArrivedB(j, skew, e', k) == ArrivedB(j, skew, e, k) + (if k == d then 1 else 0)
    {
      assert Wired(j.g, k);
    }
    DeliverB(j, skew, e, skew, e', d, e.queueB[i][0]);
  }

  lemma PopAStep<T>(j: Job<T>, skew: seq<SkewPc>, e: Engine<T>, e': Engine<T>, i: nat)
    requires ValidJob(j) && SizedEngine(j.g.n, e) && |skew| == j.g.n && i < j.g.n
    requires QueuesA(j, skew, e) && e.pc[i].PopA? && e.queueA[i] != []
    requires e' == GoTo(e.(queueA := Popped(e.queueA, i)), i, PopB)
    ensures QueuesA(j, skew, e')
  {
    assert QueueAOk(j, skew, e, i);
    StreamHead(j, i, e.iter[i], ArrivedA(j, skew, e, i));
    forall k | 0 <= k < j.g.n ensures QueueAOk(j, skew, e', k) { assert QueueAOk(j, skew, e, k); }
  }

  lemma PopBStep<T>(j: Job<T>, skew: seq<SkewPc>, e: Engine<T>, e': Engine<T>, i: nat, pc: ComputePc)
    requires ValidJob(j) && SizedEngine(j.g.n, e) && |skew| == j.g.n && i < j.g.n
    requires QueuesB(j, skew, e) && e.pc[i].PopB? && e.queueB[i] != [] && (pc.PeekA? || pc.Last?)
    requires e' == GoTo(e.(queueB := Popped(e.queueB, i), iter := e.iter[i := e.iter[i] + 1]), i, pc)
    ensures QueuesB(j, skew, e')
  {
    assert QueueBOk(j, skew, e, i);
    StreamHead(j, i, e.iter[i], ArrivedB(j, skew, e, i));
    forall k | 0 <= k < j.g.n ensures QueueBOk(j, skew, e', k) { assert QueueBOk(j, skew, e, k); }
  }

  /** Once a compute codelet has been released, every skew codelet has pushed both its tiles. */
  lemma AllSkewed<T>(j: Job<T>, st: State<T>, i: nat)
    requires Inv(j, st) && i < j.g.n && !st.engine.pc[i].Waiting?
    ensures forall k :: 0 <= k < j.g.n ==> st.setup.pc[k].SkewDone?
  {
    assert ComputeOk(j, st.barrier.pc, st.engine, i);
    CountAll(st.setup.pc, SkewDone);
  }

  lemma ComputeQueues<T>(j: Job<T>, skew: seq<SkewPc>, b: BarrierPc, e: Engine<T>, i: nat)
    requires ValidJob(j) && SizedEngine(j.g.n, e) && |skew| == j.g.n && i < j.g.n && !e.fault
    requires QueuesA(j, skew, e) && QueuesB(j, skew, e) && ComputeOk(j, b, e, i)
    requires !e.pc[i].Waiting? && !e.pc[i].Finished? && forall k :: 0 <= k < j.g.n ==> skew[k].SkewDone?
    ensures QueuesA(j, skew, StepCompute(j, e, i)) && QueuesB(j, skew, StepCompute(j, e, i))
  {
    var e' := StepCompute(j, e, i);
    match e.pc[i] {
      case PushA => PushAStep(j, skew, e, e', i); IdleB(j, skew, e, skew, e');
      case PushB => PushBStep(j, skew, e, e', i); IdleA(j, skew, e, skew, e');
      case PopA => PopAStep(j, skew, e, e', i); IdleB(j, skew, e, skew, e');
      case PopB => PopBStep(j, skew, e, e', i, LoopTop(j.g.s, e.iter[i] + 1)); IdleA(j, skew, e, skew, e');
      case _ => IdleA(j, skew, e, skew, e'); IdleB(j, skew, e, skew, e');
    }
  }

  lemma ComputeEngine<T>(j: Job<T>, skew: seq<SkewPc>, b: BarrierPc, e: Engine<T>, i: nat)
    requires ValidJob(j) && SizedEngine(j.g.n, e) && |skew| == j.g.n && i < j.g.n && EngineOk(j, skew, b, e)
    requires !e.pc[i].Waiting? && !e.pc[i].Finished? && forall k :: 0 <= k < j.g.n ==> skew[k].SkewDone?
    ensures EngineOk(j, skew, b, StepCompute(j, e, i))
  {
    assert QueueAOk(j, skew, e, i) && QueueBOk(j, skew, e, i) && ComputeOk(j, b, e, i);
    ComputeLocal(j, skew, b, e, i);
    ComputeFrame(j, b, e, StepCompute(j, e, i), i);
    ComputeQueues(j, skew, b, e, i);
  }

  lemma ComputeInv<T>(j: Job<T>, st: State<T>, i: nat)
    requires Inv(j, st) && Runnable(j, st, Compute(i))
    ensures Inv(j, Step(j, st, Compute(i)))
  {
    AllSkewed(j, st, i);
    ComputeEngine(j, st.setup.pc, st.barrier.pc, st.engine, i);
    var e, e', d, d' := st.engine, StepCompute(j, st.engine, i), st.drain, SignalCopyC(st.drain, i);
    if e.pc[i].Last? {
      assert DrainOk(j, e.pc, e.tileC, d, i);
      CountUpdate(d.pc, CDone, i, CEnabled);
      forall k | 0 <= k < j.g.n ensures DrainOk(j, e'.pc, e'.tileC, d', k) { assert DrainOk(j, e.pc, e.tileC, d, k); }
    } else {
      DrainFrame(j, e, e', d);
    }
  }

  /** Copying one C tile back leaves the blocks of the other tiles alone. */
  lemma CopyCDrain<T>(j: Job<T>, compute: seq<ComputePc>, tileC: seq<T>, d: Drain<T>, i: nat)
    requires ValidJob(j) && |compute| == |tileC| == j.g.n && SizedDrain(j.g.n, d) && IsGrid(d.c, j.g.s) && i < j.g.n
    requires forall k :: 0 <= k < j.g.n ==> DrainOk(j, compute, tileC, d, k)
    requires d.pc[i].CEnabled? || d.pc[i].CCopied?
    ensures IsGrid(StepCopyC(j, d, i, tileC[i]).c, j.g.s)
    ensures forall k :: 0 <= k < j.g.n ==> DrainOk(j, compute, tileC, StepCopyC(j, d, i, tileC[i]), k)
  {
    var d' := StepCopyC(j, d, i, tileC[i]);
    assert Wired(j.g, i);
    forall k | 0 <= k < j.g.n ensures DrainOk(j, compute, tileC, d', k) {
      assert DrainOk(j, compute, tileC, d, k) && Wired(j.g, k);
    }
  }

  lemma CopyCInv<T>(j: Job<T>, st: State<T>, i: nat)
    requires Inv(j, st) && Runnable(j, st, CopyC(i))
    ensures Inv(j, Step(j, st, CopyC(i)))
  {
    CopyCDrain(j, st.engine.pc, st.engine.tileC, st.drain, i);
    CountUpdate(st.drain.pc, CDone, i, CCopied);
    CountUpdate(st.drain.pc, CDone, i, CDone);
  }

  lemma EndInv<T>(j: Job<T>, st: State<T>)
    requires Inv(j, st) && Runnable(j, st, End)
    ensures Inv(j, Step(j, st, End))
  {
    var d, d' := st.drain, Step(j, st, End).drain;
    forall k | 0 <= k < j.g.n ensures DrainOk(j, st.engine.pc, st.engine.tileC, d', k) {
      assert DrainOk(j, st.engine.pc, st.engine.tileC, d, k);
    }
  }

  /** Every micro-step of every codelet keeps the invariant. */
  lemma StepInv<T>(j: Job<T>, st: State<T>, m: Move)
    requires Inv(j, st) && Runnable(j, st, m)
    ensures Inv(j, Step(j, st, m))
  {
    match m {
      case CopyA(i) => CopyAInv(j, st, i);
      case CopyB(i) => CopyBInv(j, st, i);
      case Skew(i) =>
        if st.setup.pc[i].PushedB? { SkewSignalInv(j, st, i); } else { SkewPushInv(j, st, i); }
      case Release => ReleaseInv(j, st);
      case Compute(i) => ComputeInv(j, st, i);
      case CopyC(i) => CopyCInv(j, st, i);
      case End => EndInv(j, st);
    }
  }

  lemma {:induction false} RunInv<T>(j: Job<T>, from: State<T>, moves: seq<Move>, to: State<T>)
    requires Inv(j, from) && Run(j, from, moves, to)
    ensures Inv(j, to)
    decreases |moves|
  {
    if moves != [] {
      StepInv(j, from, moves[0]);
      RunInv(j, Step(j, from, moves[0]), moves[1..], to);
    }
  }
}
