/** Cannon's algorithm with dataflow software pipelining (apps/Cannon-dfswp): the
    codelets of one cannonTP as a transition system. Every tile keeps a FIFO of A
    tiles and one of B tiles; after the skew barrier each compute codelet runs on
    its own. One move is one micro-step of one codelet, so a sequence of moves is
    an interleaving. */
module Pipeline {
  import opened Grid
  import opened SyncSlots
  import opened CannonJob

  // Program counters name what the codelet has done, or for a compute codelet what it does next.
  datatype CopyPc = Ready | Copied | Signalled
  datatype SkewPc = SkewWaiting | SkewEnabled | PushedA | PushedB | SkewDone
  datatype BarrierPc = BarrierWaiting | BarrierFiring(next: nat)
  datatype ComputePc = Waiting | Enabled | PeekA | PeekB(gotA: bool) | Multiply
                     | PushA | PushB | PopA | PopB | Last | Finished
  datatype CopyCPc = CWaiting | CEnabled | CCopied | CDone
  datatype EndPc = EndWaiting | EndEnabled | EndFired

  /** The copy codelets of A and B, the scratch tiles they fill, and the skew codelets. */
  datatype Setup<T> = Setup(copyA: seq<CopyPc>, copyB: seq<CopyPc>, scratchA: seq<T>, scratchB: seq<T>,
                            dep: seq<nat>, pc: seq<SkewPc>)

  datatype Barrier = Barrier(dep: nat, pc: BarrierPc)

  /** The compute codelets with the queues and the C tile of their tiles.
      fault: a null or dangling head was dereferenced. */
  datatype Engine<T> = Engine(dep: seq<nat>, pc: seq<ComputePc>, iter: seq<nat>,
                              queueA: seq<seq<T>>, queueB: seq<seq<T>>, tileC: seq<T>, fault: bool)

  /** The codelets that copy C back, the final codelet, and C itself.
      continuation: how often the continuation codelet was signalled. */
  datatype Drain<T> = Drain(dep: seq<nat>, pc: seq<CopyCPc>, c: seq<seq<T>>,
                            endDep: nat, end: EndPc, continuation: nat)

  datatype State<T> = State(setup: Setup<T>, barrier: Barrier, engine: Engine<T>, drain: Drain<T>)

  datatype Move = CopyA(i: nat) | CopyB(i: nat) | Skew(i: nat) | Release | Compute(i: nat) | CopyC(i: nat) | End

  ghost predicate SizedSetup<T>(n: nat, u: Setup<T>) {
    |u.copyA| == |u.copyB| == |u.scratchA| == |u.scratchB| == |u.dep| == |u.pc| == n
  }

  ghost predicate SizedEngine<T>(n: nat, e: Engine<T>) {
    |e.dep| == |e.pc| == |e.iter| == |e.queueA| == |e.queueB| == |e.tileC| == n
  }

  ghost predicate SizedDrain<T>(n: nat, d: Drain<T>) {
    |d.dep| == |d.pc| == n
  }

  ghost predicate Sized<T>(n: nat, st: State<T>) {
    SizedSetup(n, st.setup) && SizedEngine(n, st.engine) && SizedDrain(n, st.drain)
  }

  /** The state the constructor leaves, with `c` the memory that C had. */
  ghost function Init<T>(j: Job<T>, c: seq<seq<T>>): (st: State<T>)
    ensures Sized(j.g.n, st)
  {
    var n := j.g.n;
    State(Setup(seq(n, i => Ready), seq(n, i => Ready), seq(n, i => j.zero), seq(n, i => j.zero),
                seq(n, i => 2), seq(n, i => SkewWaiting)),
          Barrier(n, BarrierWaiting),
          Engine(seq(n, i => 1), seq(n, i => Waiting), seq(n, i => 0),
                 seq(n, i => []), seq(n, i => []), seq(n, i => j.zero), false),
          Drain(seq(n, i => 1), seq(n, i => CWaiting), c, n, EndWaiting, 0))
  }

  /** The scheduler may pick this codelet: it is enabled and has not finished. */
  ghost predicate Runnable<T>(j: Job<T>, st: State<T>, m: Move)
    requires Sized(j.g.n, st)
  {
    match m
    case CopyA(i) => i < j.g.n && !st.setup.copyA[i].Signalled?
    case CopyB(i) => i < j.g.n && !st.setup.copyB[i].Signalled?
    case Skew(i) => i < j.g.n && !st.setup.pc[i].SkewWaiting? && !st.setup.pc[i].SkewDone?
    case Release => st.barrier.pc.BarrierFiring? && st.barrier.pc.next < j.g.n
    case Compute(i) => i < j.g.n && !st.engine.pc[i].Waiting? && !st.engine.pc[i].Finished?
    case CopyC(i) => i < j.g.n && !st.drain.pc[i].CWaiting? && !st.drain.pc[i].CDone?
    case End => st.drain.end.EndEnabled?
  }

  // decDep on the codelets that others signal

  function SignalSkew<T>(u: Setup<T>, i: nat): Setup<T>
    requires i < |u.dep| && i < |u.pc|
  {
    u.(dep := u.dep[i := Dec(u.dep[i])], pc := if Fires(u.dep[i]) then u.pc[i := SkewEnabled] else u.pc)
  }

  function SignalBarrier(b: Barrier): Barrier {
    b.(dep := Dec(b.dep), pc := if Fires(b.dep) then BarrierFiring(0) else b.pc)
  }

  function SignalCompute<T>(e: Engine<T>, i: nat): Engine<T>
    requires i < |e.dep| && i < |e.pc|
  {
    e.(dep := e.dep[i := Dec(e.dep[i])], pc := if Fires(e.dep[i]) then e.pc[i := Enabled] else e.pc)
  }

  function SignalCopyC<T>(d: Drain<T>, i: nat): Drain<T>
    requires i < |d.dep| && i < |d.pc|
  {
    d.(dep := d.dep[i := Dec(d.dep[i])], pc := if Fires(d.dep[i]) then d.pc[i := CEnabled] else d.pc)
  }

  function SignalEnd<T>(d: Drain<T>): Drain<T> {
    d.(endDep := Dec(d.endDep), end := if Fires(d.endDep) then EndEnabled else d.end)
  }

  // The fire methods, one micro-step at a time

  function StepCopyA<T>(u: Setup<T>, i: nat, tile: T): Setup<T>
    requires SizedSetup(|u.dep|, u) && i < |u.dep|
  {
    if u.copyA[i].Ready?
    then u.(copyA := u.copyA[i := Copied], scratchA := u.scratchA[i := tile])
    else SignalSkew(u.(copyA := u.copyA[i := Signalled]), i)
  }

  function StepCopyB<T>(u: Setup<T>, i: nat, tile: T): Setup<T>
    requires SizedSetup(|u.dep|, u) && i < |u.dep|
  {
    if u.copyB[i].Ready?
    then u.(copyB := u.copyB[i := Copied], scratchB := u.scratchB[i := tile])
    else SignalSkew(u.(copyB := u.copyB[i := Signalled]), i)
  }

  function Pushed<T>(q: seq<seq<T>>, i: nat, t: T): seq<seq<T>>
    requires i < |q|
  {
    q[i := q[i] + [t]]
  }

  /** pop() on an empty queue returns false and changes nothing. */
  function Popped<T>(q: seq<seq<T>>, i: nat): seq<seq<T>>
    requires i < |q|
  {
    if |q[i]| == 0 then q else q[i := q[i][1..]]
  }

  ghost function StepSkew<T>(j: Job<T>, st: State<T>, i: nat): State<T>
    requires ValidJob(j) && Sized(j.g.n, st) && i < j.g.n
  {
    var u, e := st.setup, st.engine;
    if u.pc[i].SkewEnabled?
    then st.(setup := u.(pc := u.pc[i := PushedA]),
             engine := e.(queueA := Pushed(e.queueA, j.g.destRow[i], u.scratchA[i])))
    else if u.pc[i].PushedA?
    then st.(setup := u.(pc := u.pc[i := PushedB]),
             engine := e.(queueB := Pushed(e.queueB, j.g.destCol[i], u.scratchB[i])))
    else st.(setup := u.(pc := u.pc[i := SkewDone]), barrier := SignalBarrier(st.barrier))
  }

  /** One turn of the loop in which the barrier signals the compute codelets. */
  function StepRelease<T>(st: State<T>): State<T>
    requires SizedEngine(|st.engine.dep|, st.engine)
    requires st.barrier.pc.BarrierFiring? && st.barrier.pc.next < |st.engine.dep|
  {
    var i := st.barrier.pc.next;
    st.(barrier := st.barrier.(pc := BarrierFiring(i + 1)), engine := SignalCompute(st.engine, i))
  }

  function GoTo<T>(e: Engine<T>, i: nat, pc: ComputePc): Engine<T>
    requires i < |e.pc|
  {
    e.(pc := e.pc[i := pc])
  }

  /** The test of the while loop of `cannonCodCompute::fire`. */
  function LoopTop(s: nat, it: nat): ComputePc {
    if it < s then PeekA else Last
  }

  ghost function StepCompute<T>(j: Job<T>, e: Engine<T>, i: nat): Engine<T>
    requires ValidJob(j) && SizedEngine(j.g.n, e) && i < j.g.n
  {
    match e.pc[i]
    case Enabled => GoTo(e.(dep := e.dep[i := 1]), i, LoopTop(j.g.s, e.iter[i]))
    case PeekA => GoTo(e, i, PeekB(e.queueA[i] != []))
    case PeekB(gotA) => GoTo(e, i, if gotA && e.queueB[i] != [] then Multiply else PeekA)
    case Multiply =>
      if e.queueA[i] == [] || e.queueB[i] == [] then e.(fault := true)
      else GoTo(e.(tileC := e.tileC[i := j.gemm(e.tileC[i], e.queueA[i][0], e.queueB[i][0])]), i, PushA)
    case PushA =>
      if e.queueA[i] == [] then e.(fault := true)
      else GoTo(e.(queueA := Pushed(e.queueA, j.g.nextRow[i], e.queueA[i][0])), i, PushB)
    case PushB =>
      if e.queueB[i] == [] then e.(fault := true)
      else GoTo(e.(queueB := Pushed(e.queueB, j.g.nextCol[i], e.queueB[i][0])), i, PopA)
    case PopA => GoTo(e.(queueA := Popped(e.queueA, i)), i, PopB)
    case PopB =>
      GoTo(e.(queueB := Popped(e.queueB, i), iter := e.iter[i := e.iter[i] + 1]), i, LoopTop(j.g.s, e.iter[i] + 1))
    case Last => GoTo(e, i, Finished)
    case _ => e
  }

  ghost function StepCopyC<T>(j: Job<T>, d: Drain<T>, i: nat, tile: T): Drain<T>
    requires ValidJob(j) && SizedDrain(j.g.n, d) && i < j.g.n
  {
    if d.pc[i].CEnabled?
    then d.(pc := d.pc[i := CCopied], c := Put(d.c, j.g.row[i], j.g.col[i], tile))
    else SignalEnd(d.(pc := d.pc[i := CDone]))
  }

  ghost function Step<T>(j: Job<T>, st: State<T>, m: Move): (st': State<T>)
    requires ValidJob(j) && Sized(j.g.n, st) && Runnable(j, st, m)
    ensures Sized(j.g.n, st')
  {
    match m
    case CopyA(i) => st.(setup := StepCopyA(st.setup, i, j.a[j.g.row[i]][j.g.col[i]]))
    case CopyB(i) => st.(setup := StepCopyB(st.setup, i, j.b[j.g.row[i]][j.g.col[i]]))
    case Skew(i) => StepSkew(j, st, i)
    case Release => StepRelease(st)
    case Compute(i) =>
      st.(engine := StepCompute(j, st.engine, i),
          drain := if st.engine.pc[i].Last? then SignalCopyC(st.drain, i) else st.drain)
    case CopyC(i) => st.(drain := StepCopyC(j, st.drain, i, st.engine.tileC[i]))
    case End => st.(drain := st.drain.(end := EndFired, continuation := st.drain.continuation + 1))
  }

  /** The scheduler makes these moves, in this order: one interleaving of the codelets. */
  ghost predicate Run<T>(j: Job<T>, from: State<T>, moves: seq<Move>, to: State<T>)
    requires ValidJob(j) && Sized(j.g.n, from)
    decreases |moves|
  {
    if moves == [] then from == to
    else Runnable(j, from, moves[0]) && Run(j, Step(j, from, moves[0]), moves[1..], to)
  }
}
