/** The bulk-synchronous Cannon program (apps/Cannon) as a transition system. Every tile has two buffers for
    A and two for B, one of each being read and one written; a self-resetting loop codelet exchanges them
    between rounds. */
module BulkCannon {
  import opened Grid
  import opened SyncSlots
  import opened CannonJob
  import P = Pipeline

  // Codelets hold the buffers they have taken pointers to: rd is the side they read, wa and wb the sides they write.
  datatype SkewPc = KWaiting | KEnabled | KCopyA(rd: bool, wa: bool, wb: bool) | KCopyB(rd: bool, wa: bool, wb: bool)
                  | KSignal | KDone
  datatype ComputePc = BWaiting | BEnabled | BMultiply(rd: bool) | BCopyA(rd: bool, wa: bool, wb: bool)
                     | BCopyB(rd: bool, wa: bool, wb: bool) | BSignal
  datatype LoopPc = LWaiting | LEnabled | LSwapping(next: nat) | LSignalling(next: nat) | LCopying(next: nat)

  datatype Buffers<T> = Buffers(off: seq<T>, on: seq<T>)

  /** side[i] says which buffers of tile i are the ones being read. */
  datatype Mem<T> = Mem(a: Buffers<T>, b: Buffers<T>, side: seq<bool>)

  datatype Setup = Setup(copyA: seq<P.CopyPc>, copyB: seq<P.CopyPc>, dep: seq<nat>, pc: seq<SkewPc>)

  /** sent: how often tile i has signalled the loop codelet (history that no step reads). */
  datatype Engine<T> = Engine(dep: seq<nat>, pc: seq<ComputePc>, tileC: seq<T>, sent: seq<nat>)

  /** cur is curIterations; fires counts the firings of the loop codelet (history). */
  datatype Loop = Loop(dep: nat, pc: LoopPc, cur: nat, fires: nat)

  datatype State<T> = State(setup: Setup, mem: Mem<T>, engine: Engine<T>, loop: Loop, drain: P.Drain<T>)

  datatype Move = CopyA(i: nat) | CopyB(i: nat) | Skew(i: nat) | Iterate | Compute(i: nat) | CopyC(i: nat) | End

  ghost predicate SizedBuffers<T>(n: nat, b: Buffers<T>) { |b.off| == |b.on| == n }

  ghost predicate SizedMem<T>(n: nat, m: Mem<T>) {
    SizedBuffers(n, m.a) && SizedBuffers(n, m.b) && |m.side| == n
  }

  ghost predicate SizedSetup(n: nat, u: Setup) { |u.copyA| == |u.copyB| == |u.dep| == |u.pc| == n }

  ghost predicate SizedEngine<T>(n: nat, e: Engine<T>) { |e.dep| == |e.pc| == |e.tileC| == |e.sent| == n }

  ghost predicate Sized<T>(n: nat, st: State<T>) {
    SizedSetup(n, st.setup) && SizedMem(n, st.mem) && SizedEngine(n, st.engine) && P.SizedDrain(n, st.drain)
  }

  function Get<T>(b: Buffers<T>, side: bool, i: nat): T
    requires i < |b.off| == |b.on|
  {
    if side then b.on[i] else b.off[i]
  }

  function Set<T>(b: Buffers<T>, side: bool, i: nat, t: T): Buffers<T>
    requires i < |b.off| == |b.on|
  {
    if side then b.(on := b.on[i := t]) else b.(off := b.off[i := t])
  }

  /** The state that the constructor leaves, with c the memory of C. */
  ghost function Init<T>(j: Job<T>, c: seq<seq<T>>): (st: State<T>)
    ensures Sized(j.g.n, st)
  {
    var n := j.g.n;
    var blank := Buffers(seq(n, i => j.zero), seq(n, i => j.zero));
    State(Setup(seq(n, i => P.Ready), seq(n, i => P.Ready), seq(n, i => 2), seq(n, i => KWaiting)),
          Mem(blank, blank, seq(n, i => false)),
          Engine(seq(n, i => 1), seq(n, i => BWaiting), seq(n, i => j.zero), seq(n, i => 0)),
          Loop(n, LWaiting, 0, 0),
          P.Drain(seq(n, i => 1), seq(n, i => P.CWaiting), c, n, P.EndWaiting, 0))
  }

  ghost predicate Runnable<T>(j: Job<T>, st: State<T>, m: Move)
    requires Sized(j.g.n, st)
  {
    match m
    case CopyA(i) => i < j.g.n && !st.setup.copyA[i].Signalled?
    case CopyB(i) => i < j.g.n && !st.setup.copyB[i].Signalled?
    case Skew(i) => i < j.g.n && !st.setup.pc[i].KWaiting? && !st.setup.pc[i].KDone?
    case Iterate =>
      !st.loop.pc.LWaiting? && (st.loop.pc.LCopying? ==> st.loop.pc.next < j.g.n)
    case Compute(i) => i < j.g.n && !st.engine.pc[i].BWaiting?
    case CopyC(i) => i < j.g.n && !st.drain.pc[i].CWaiting? && !st.drain.pc[i].CDone?
    case End => st.drain.end.EndEnabled?
  }

  function SignalSkew(u: Setup, i: nat): Setup
    requires i < |u.dep| && i < |u.pc|
  {
    u.(dep := u.dep[i := Dec(u.dep[i])], pc := if Fires(u.dep[i]) then u.pc[i := KEnabled] else u.pc)
  }

  function SignalLoop(l: Loop): Loop {
    l.(dep := Dec(l.dep), pc := if Fires(l.dep) then LEnabled else l.pc)
  }

  function SignalCompute<T>(e: Engine<T>, i: nat): Engine<T>
    requires i < |e.dep| && i < |e.pc|
  {
    e.(dep := e.dep[i := Dec(e.dep[i])], pc := if Fires(e.dep[i]) then e.pc[i := BEnabled] else e.pc)
  }

  ghost function StepCopyA<T>(j: Job<T>, st: State<T>, i: nat): State<T>
    requires ValidJob(j) && Sized(j.g.n, st) && i < j.g.n
  {
    var u, m := st.setup, st.mem;
    if u.copyA[i].Ready?
    then st.(setup := u.(copyA := u.copyA[i := P.Copied]),
             mem := m.(a := Set(m.a, m.side[i], i, j.a[j.g.row[i]][j.g.col[i]])))
    else st.(setup := SignalSkew(u.(copyA := u.copyA[i := P.Signalled]), i))
  }

  ghost function StepCopyB<T>(j: Job<T>, st: State<T>, i: nat): State<T>
    requires ValidJob(j) && Sized(j.g.n, st) && i < j.g.n
  {
    var u, m := st.setup, st.mem;
    if u.copyB[i].Ready?
    then st.(setup := u.(copyB := u.copyB[i := P.Copied]),
             mem := m.(b := Set(m.b, m.side[i], i, j.b[j.g.row[i]][j.g.col[i]])))
    else st.(setup := SignalSkew(u.(copyB := u.copyB[i := P.Signalled]), i))
  }

  function Sent<T>(e: Engine<T>, i: nat): Engine<T>
    requires i < |e.sent|
  {
    e.(sent := e.sent[i := e.sent[i] + 1])
  }

  /** `cannonSkewCodelet::fire` */
  ghost function StepSkew<T>(j: Job<T>, st: State<T>, i: nat): State<T>
    requires ValidJob(j) && Sized(j.g.n, st) && i < j.g.n
  {
    var u, m := st.setup, st.mem;
    var ra, rb := j.g.destRow[i], j.g.destCol[i];
    match u.pc[i]
    case KEnabled => st.(setup := u.(pc := u.pc[i := KCopyA(m.side[i], !m.side[ra], !m.side[rb])]))
    case KCopyA(rd, wa, wb) =>
      st.(setup := u.(pc := u.pc[i := KCopyB(rd, wa, wb)]), mem := m.(a := Set(m.a, wa, ra, Get(m.a, rd, i))))
    case KCopyB(rd, wa, wb) =>
      st.(setup := u.(pc := u.pc[i := KSignal]), mem := m.(b := Set(m.b, wb, rb, Get(m.b, rd, i))))
    case KSignal =>
      st.(setup := u.(pc := u.pc[i := KDone]), loop := SignalLoop(st.loop), engine := Sent(st.engine, i))
    case _ => st
  }

  /** `cannonCodCompute::fire` */
  ghost function StepCompute<T>(j: Job<T>, st: State<T>, i: nat): State<T>
    requires ValidJob(j) && Sized(j.g.n, st) && i < j.g.n
  {
    var e, m := st.engine, st.mem;
    var ra, rb := j.g.nextRow[i], j.g.nextCol[i];
    match e.pc[i]
    case BEnabled => st.(engine := e.(dep := e.dep[i := 1], pc := e.pc[i := BMultiply(m.side[i])]))
    case BMultiply(rd) =>
      st.(engine := e.(tileC := e.tileC[i := j.gemm(e.tileC[i], Get(m.a, rd, i), Get(m.b, rd, i))],
                       pc := e.pc[i := BCopyA(rd, !m.side[ra], !m.side[rb])]))
    case BCopyA(rd, wa, wb) =>
      st.(engine := e.(pc := e.pc[i := BCopyB(rd, wa, wb)]), mem := m.(a := Set(m.a, wa, ra, Get(m.a, rd, i))))
    case BCopyB(rd, wa, wb) =>
      st.(engine := e.(pc := e.pc[i := BSignal]), mem := m.(b := Set(m.b, wb, rb, Get(m.b, rd, i))))
    case BSignal => st.(engine := Sent(e.(pc := e.pc[i := BWaiting]), i), loop := SignalLoop(st.loop))
    case _ => st
  }

  /** `cannonLoopCodelet::fire`, one turn of one of its loops at a time */
  ghost function StepLoop<T>(j: Job<T>, st: State<T>): State<T>
    requires ValidJob(j) && Sized(j.g.n, st)
  {
    var l := st.loop;
    match l.pc
    case LEnabled =>
      st.(loop := l.(dep := j.g.n, fires := l.fires + 1, pc := if l.cur < j.g.s then LSwapping(0) else LCopying(0)))
    case LSwapping(k) =>
      if k < j.g.n
      then st.(mem := st.mem.(side := st.mem.side[k := !st.mem.side[k]]), loop := l.(pc := LSwapping(k + 1)))
      else st.(loop := l.(cur := l.cur + 1, pc := LSignalling(0)))
    case LSignalling(k) =>
      if k < j.g.n
      then st.(engine := SignalCompute(st.engine, k), loop := l.(pc := if k + 1 < j.g.n then LSignalling(k + 1) else LWaiting))
      else st
    case LCopying(k) =>
      if k < j.g.n
      then st.(drain := P.SignalCopyC(st.drain, k), loop := l.(pc := LCopying(k + 1)))
      else st
    case LWaiting => st
  }

  ghost function Step<T>(j: Job<T>, st: State<T>, m: Move): (st': State<T>)
    requires ValidJob(j) && Sized(j.g.n, st) && Runnable(j, st, m)
    ensures Sized(j.g.n, st')
  {
    match m
    case CopyA(i) => StepCopyA(j, st, i)
    case CopyB(i) => StepCopyB(j, st, i)
    case Skew(i) => StepSkew(j, st, i)
    case Iterate => StepLoop(j, st)
    case Compute(i) => StepCompute(j, st, i)
    case CopyC(i) => st.(drain := P.StepCopyC(j, st.drain, i, st.engine.tileC[i]))
    case End => st.(drain := st.drain.(end := P.EndFired, continuation := st.drain.continuation + 1))
  }

  ghost predicate Run<T>(j: Job<T>, from: State<T>, moves: seq<Move>, to: State<T>)
    requires ValidJob(j) && Sized(j.g.n, from)
    decreases |moves|
  {
    if moves == [] then from == to
    else Runnable(j, from, moves[0]) && Run(j, Step(j, from, moves[0]), moves[1..], to)
  }
}
