/** Which buffers the codelets of the bulk-synchronous Cannon program read and write in a round: no buffer is both read
    and written, and every one that is sent to is written exactly once. */
module BulkRaces {
  import opened Grid
  import opened CannonJob
  import opened BulkCannon
  import opened BulkProofs
  import opened BulkRounds
  import P = Pipeline

  /** One of the four buffers of a tile: of A or of B, on one of its two sides. */
  datatype Place = Place(ofB: bool, tile: nat, side: bool)

  /** The next step of the codelet reads this buffer. */
  ghost predicate Reads<T>(j: Job<T>, st: State<T>, m: Move, x: Place)
    requires ValidJob(j) && Sized(j.g.n, st) && Runnable(j, st, m)
  {
    match m
    case Skew(i) =>
      var pc := st.setup.pc[i];
      (pc.KCopyA? && x == Place(false, i, pc.rd)) || (pc.KCopyB? && x == Place(true, i, pc.rd))
    case Compute(i) =>
      var pc := st.engine.pc[i];
      || (pc.BMultiply? && x.tile == i && x.side == pc.rd)
      || (pc.BCopyA? && x == Place(false, i, pc.rd)) || (pc.BCopyB? && x == Place(true, i, pc.rd))
    case _ => false
  }

  /** The next step of the codelet writes this buffer. */
  ghost predicate Writes<T>(j: Job<T>, st: State<T>, m: Move, x: Place)
    requires ValidJob(j) && Sized(j.g.n, st) && Runnable(j, st, m)
  {
    match m
    case CopyA(i) => st.setup.copyA[i].Ready? && x == Place(false, i, st.mem.side[i])
    case CopyB(i) => st.setup.copyB[i].Ready? && x == Place(true, i, st.mem.side[i])
    case Skew(i) =>
      var pc := st.setup.pc[i];
      (pc.KCopyA? && x == Place(false, j.g.destRow[i], pc.wa)) || (pc.KCopyB? && x == Place(true, j.g.destCol[i], pc.wb))
    case Compute(i) =>
      var pc := st.engine.pc[i];
      (pc.BCopyA? && x == Place(false, j.g.nextRow[i], pc.wa)) || (pc.BCopyB? && x == Place(true, j.g.nextCol[i], pc.wb))
    case _ => false
  }

  ghost function At<T>(m: Mem<T>, n: nat, x: Place): T
    requires SizedMem(n, m) && x.tile < n
  {
    Get(if x.ofB then m.b else m.a, x.side, x.tile)
  }

  /** No step changes a buffer that it is not said to write. */
  lemma OnlyWritesChange<T>(j: Job<T>, st: State<T>, m: Move, x: Place)
    requires ValidJob(j) && Sized(j.g.n, st) && Runnable(j, st, m) && x.tile < j.g.n && !Writes(j, st, m, x)
    ensures At(Step(j, st, m).mem, j.g.n, x) == At(st.mem, j.g.n, x)
  {
  }

  /** The two memories hold the same in the buffers that the step reads. */
  ghost predicate SameRead<T>(j: Job<T>, st: State<T>, mem: Mem<T>, m: Move)
    requires ValidJob(j) && Sized(j.g.n, st) && SizedMem(j.g.n, mem) && Runnable(j, st, m)
  {
    forall y: Place :: y.tile < j.g.n && Reads(j, st, m, y) ==> At(mem, j.g.n, y) == At(st.mem, j.g.n, y)
  }

  /** The step does the same on both memories. */
  ghost predicate SameEffect<T>(j: Job<T>, st: State<T>, mem: Mem<T>, m: Move, x: Place)
    requires ValidJob(j) && Sized(j.g.n, st) && SizedMem(j.g.n, mem) && Runnable(j, st, m) && x.tile < j.g.n
  {
    var r, r' := Step(j, st, m), Step(j, st.(mem := mem), m);
    && r'.setup == r.setup && r'.engine == r.engine && r'.loop == r.loop && r'.drain == r.drain && r'.mem.side == r.mem.side
    && (Writes(j, st, m, x) ==> At(r'.mem, j.g.n, x) == At(r.mem, j.g.n, x))
  }

  lemma SkewReadsSuffice<T>(j: Job<T>, st: State<T>, mem: Mem<T>, i: nat, x: Place)
    requires ValidJob(j) && Sized(j.g.n, st) && SizedMem(j.g.n, mem) && mem.side == st.mem.side && Runnable(j, st, Skew(i))
    requires SameRead(j, st, mem, Skew(i)) && x.tile < j.g.n
    ensures SameEffect(j, st, mem, Skew(i), x)
  {
    var pc := st.setup.pc[i];
    assert pc.KCopyA? ==> Reads(j, st, Skew(i), Place(false, i, pc.rd));
    assert pc.KCopyB? ==> Reads(j, st, Skew(i), Place(true, i, pc.rd));
  }

  lemma ComputeReadsSuffice<T>(j: Job<T>, st: State<T>, mem: Mem<T>, i: nat, x: Place)
    requires ValidJob(j) && Sized(j.g.n, st) && SizedMem(j.g.n, mem) && mem.side == st.mem.side && Runnable(j, st, Compute(i))
    requires SameRead(j, st, mem, Compute(i)) && x.tile < j.g.n
    ensures SameEffect(j, st, mem, Compute(i), x)
  {
    var pc := st.engine.pc[i];
    assert pc.BMultiply? || pc.BCopyA? ==> Reads(j, st, Compute(i), Place(false, i, pc.rd));
    assert pc.BMultiply? || pc.BCopyB? ==> Reads(j, st, Compute(i), Place(true, i, pc.rd));
  }

  /** What a step does depends on no buffer that it is not said to read. */
  lemma ReadsSuffice<T>(j: Job<T>, st: State<T>, mem: Mem<T>, m: Move, x: Place)
    requires ValidJob(j) && Sized(j.g.n, st) && SizedMem(j.g.n, mem) && mem.side == st.mem.side && Runnable(j, st, m)
    requires SameRead(j, st, mem, m) && x.tile < j.g.n
    ensures SameEffect(j, st, mem, m, x)
  {
    match m
    case Skew(i) => SkewReadsSuffice(j, st, mem, i, x);
    case Compute(i) => ComputeReadsSuffice(j, st, mem, i, x);
    case _ =>
  }

  // Sides and codelets of a round

  ghost function RoundSide<T>(j: Job<T>, st: State<T>, i: nat): bool
    requires Sized(j.g.n, st) && i < j.g.n
  {
    Side(st.mem.side, st.loop, i)
  }

  /** The codelet that sends to this buffer in the current round. */
  ghost function Sender<T>(j: Job<T>, l: Loop, x: Place): Move
    requires ValidJob(j) && x.tile < j.g.n
  {
    var i := if x.ofB then SourceB(j, l, x.tile) else SourceA(j, l, x.tile);
    if l.cur == 0 then Skew(i) else Compute(i)
  }

  /** The copy codelet that fills this buffer at the start. */
  function Filler(x: Place): Move {
    if x.ofB then CopyB(x.tile) else CopyA(x.tile)
  }

  /** What is read is on the side of the round, and only the tile's own codelet reads it; in round 0 after the copy. */
  lemma ReadSide<T>(j: Job<T>, st: State<T>, m: Move, x: Place)
    requires Inv(j, st) && Runnable(j, st, m) && Reads(j, st, m, x)
    ensures x.tile < j.g.n && x.side == RoundSide(j, st, x.tile)
    ensures m == if st.loop.cur == 0 then Skew(x.tile) else Compute(x.tile)
    ensures st.loop.cur == 0 ==> st.setup.copyA[x.tile].Signalled? && st.setup.copyB[x.tile].Signalled?
  {
    assert SetupOk(j.g, st.setup, st.mem.side, st.loop, m.i);
    assert ComputeOk(j, st.setup.pc, st.mem.side, st.engine, st.loop, m.i);
  }

  /** What is written is on the other side, by its sender, or filled by its copy codelet before anything has been sent. */
  lemma WriteSide<T>(j: Job<T>, st: State<T>, m: Move, x: Place)
    requires Inv(j, st) && Runnable(j, st, m) && Writes(j, st, m, x)
    ensures x.tile < j.g.n
    ensures x.side != RoundSide(j, st, x.tile) ==> m == Sender(j, st.loop, x)
    ensures x.side == RoundSide(j, st, x.tile) ==> st.loop.cur == 0 && m == Filler(x)
  {
    assert SetupOk(j.g, st.setup, st.mem.side, st.loop, m.i);
    assert ComputeOk(j, st.setup.pc, st.mem.side, st.engine, st.loop, m.i);
    assert Wired(j.g, m.i);
  }

  // The round goes on

  /** The side of the round does not change in the course of the round, and what has been copied stays copied. */
  ghost predicate RoundKept<T>(j: Job<T>, st: State<T>, st': State<T>, i: nat)
    requires Sized(j.g.n, st) && Sized(j.g.n, st') && i < j.g.n
  {
    && RoundSide(j, st', i) == RoundSide(j, st, i)
    && (st.setup.copyA[i].Signalled? ==> st'.setup.copyA[i].Signalled?)
    && (st.setup.copyB[i].Signalled? ==> st'.setup.copyB[i].Signalled?)
  }

  lemma StepInRound<T>(j: Job<T>, st: State<T>, m: Move, i: nat)
    requires Inv(j, st) && Runnable(j, st, m) && i < j.g.n
    ensures st.loop.cur <= Step(j, st, m).loop.cur
    ensures Step(j, st, m).loop.cur == st.loop.cur ==> RoundKept(j, st, Step(j, st, m), i)
  {
    if m.Skew? {
      assert SetupOk(j.g, st.setup, st.mem.side, st.loop, m.i);
    } else if m.Compute? {
      assert ComputeOk(j, st.setup.pc, st.mem.side, st.engine, st.loop, m.i);
    }
  }

  lemma {:induction false} RunInRound<T>(j: Job<T>, from: State<T>, moves: seq<Move>, to: State<T>, i: nat)
    requires Inv(j, from) && Run(j, from, moves, to) && i < j.g.n
    ensures Sized(j.g.n, to) && from.loop.cur <= to.loop.cur
    ensures from.loop.cur == to.loop.cur ==> RoundKept(j, from, to, i)
    decreases |moves|
  {
    if moves != [] {
      var next := Step(j, from, moves[0]);
      StepInv(j, from, moves[0]);
      StepInRound(j, from, moves[0], i);
      RunInRound(j, next, moves[1..], to, i);
    }
  }

  lemma WritersApart<T>(j: Job<T>, from: State<T>, moves: seq<Move>, to: State<T>, m: Move, m': Move, x: Place)
    requires Inv(j, from) && Inv(j, to) && Run(j, from, moves, to) && from.loop.cur == to.loop.cur
    requires Runnable(j, from, m) && Runnable(j, to, m') && Writes(j, from, m, x) && Writes(j, to, m', x)
    ensures m' == m
  {
    WriteSide(j, from, m, x);
    WriteSide(j, to, m', x);
    RunInRound(j, from, moves, to, x.tile);
  }

  lemma NotWrittenAfterRead<T>(j: Job<T>, from: State<T>, moves: seq<Move>, to: State<T>, m: Move, m': Move, x: Place)
    requires Inv(j, from) && Inv(j, to) && Run(j, from, moves, to) && from.loop.cur == to.loop.cur
    requires Runnable(j, from, m) && Runnable(j, to, m') && Reads(j, from, m, x)
    ensures !Writes(j, to, m', x)
  {
    ReadSide(j, from, m, x);
    RunInRound(j, from, moves, to, x.tile);
    if Writes(j, to, m', x) {
      WriteSide(j, to, m', x);
    }
  }

  lemma ReadAfterFill<T>(j: Job<T>, from: State<T>, moves: seq<Move>, to: State<T>, m: Move, m': Move, x: Place)
    requires Inv(j, from) && Inv(j, to) && Run(j, from, moves, to) && from.loop.cur == to.loop.cur
    requires Runnable(j, from, m) && Runnable(j, to, m') && Writes(j, from, m, x) && Reads(j, to, m', x)
    ensures m == Filler(x) && m' == Skew(x.tile) && moves != []
  {
    WriteSide(j, from, m, x);
    ReadSide(j, to, m', x);
    RunInRound(j, from, moves, to, x.tile);
  }

  /** Two steps of one round, the second after the first or at the same time: a buffer is written by one codelet only, is
      not written once it has been read, and is read after a write only where a skew codelet waits for the copy codelet
      that fills it. */
  lemma NoRace<T>(j: Job<T>, from: State<T>, moves: seq<Move>, to: State<T>, m: Move, m': Move, x: Place)
    requires Inv(j, from) && Run(j, from, moves, to) && from.loop.cur == to.loop.cur
    requires Runnable(j, from, m) && Sized(j.g.n, to) && Runnable(j, to, m')
    ensures Writes(j, from, m, x) && Writes(j, to, m', x) ==> m' == m
    ensures Reads(j, from, m, x) ==> !Writes(j, to, m', x)
    ensures Writes(j, from, m, x) && Reads(j, to, m', x) ==> m == Filler(x) && m' == Skew(x.tile) && moves != []
  {
    RunInv(j, from, moves, to);
    if Reads(j, from, m, x) {
      NotWrittenAfterRead(j, from, moves, to, m, m', x);
    }
    if Writes(j, from, m, x) && Writes(j, to, m', x) {
      WritersApart(j, from, moves, to, m, m', x);
    }
    if Writes(j, from, m, x) && Reads(j, to, m', x) {
      ReadAfterFill(j, from, moves, to, m, m', x);
    }
  }

  // Every buffer that is sent to is written once in a round

  ghost function Writers<T>(j: Job<T>, from: State<T>, moves: seq<Move>, x: Place): nat
    requires ValidJob(j) && Sized(j.g.n, from)
    decreases |moves|
  {
    if moves == [] || !Runnable(j, from, moves[0]) then 0
    else (if Writes(j, from, moves[0], x) then 1 else 0) + Writers(j, Step(j, from, moves[0]), moves[1..], x)
  }

  /** 1 if the sender of this buffer has written it in the current round. */
  ghost function Delivered<T>(j: Job<T>, st: State<T>, x: Place): nat
    requires ValidJob(j) && Sized(j.g.n, st) && x.tile < j.g.n
  {
    var u, e, l := st.setup, st.engine, st.loop;
    if (if x.ofB then SentB(u.pc, e, l, SourceB(j, l, x.tile)) else SentA(u.pc, e, l, SourceA(j, l, x.tile))) then 1 else 0
  }

  lemma SkewDelivers<T>(j: Job<T>, st: State<T>, i: nat, x: Place)
    requires Inv(j, st) && Runnable(j, st, Skew(i)) && x.tile < j.g.n && x.side != RoundSide(j, st, x.tile)
    ensures Delivered(j, Step(j, st, Skew(i)), x) == Delivered(j, st, x) + if Writes(j, st, Skew(i), x) then 1 else 0
  {
    assert SetupOk(j.g, st.setup, st.mem.side, st.loop, i);
    assert ComputeOk(j, st.setup.pc, st.mem.side, st.engine, st.loop, i);
    assert Wired(j.g, x.tile) && Wired(j.g, i);
  }

  /** In a later round the compute codelet of tile i sends its tiles. */
  lemma ComputeSends<T>(j: Job<T>, st: State<T>, i: nat, k: nat)
    requires Inv(j, st) && Runnable(j, st, Compute(i)) && k < j.g.n
    ensures var pc, e, e', l := st.setup.pc, st.engine, StepCompute(j, st, i).engine, st.loop;
      && 0 < l.cur
      && (SentA(pc, e', l, k) <==> SentA(pc, e, l, k) || (k == i && e.pc[i].BCopyA?))
      && (SentB(pc, e', l, k) <==> SentB(pc, e, l, k) || (k == i && e.pc[i].BCopyB?))
      && (k == i && e.pc[i].BCopyA? ==> !SentA(pc, e, l, k)) && (k == i && e.pc[i].BCopyB? ==> !SentB(pc, e, l, k))
  {
    assert ComputeOk(j, st.setup.pc, st.mem.side, st.engine, st.loop, i);
  }

  lemma ComputeDelivers<T>(j: Job<T>, st: State<T>, i: nat, x: Place)
    requires Inv(j, st) && Runnable(j, st, Compute(i)) && x.tile < j.g.n && x.side != RoundSide(j, st, x.tile)
    ensures Delivered(j, Step(j, st, Compute(i)), x) == Delivered(j, st, x) + if Writes(j, st, Compute(i), x) then 1 else 0
  {
    var k := Sender(j, st.loop, x).i;
    ComputeSends(j, st, i, k);
    assert SourceA(j, StepCompute(j, st, i).loop, x.tile) == SourceA(j, st.loop, x.tile);
    assert ComputeOk(j, st.setup.pc, st.mem.side, st.engine, st.loop, i);
    assert Wired(j.g, x.tile) && Wired(j.g, i);
  }

  lemma OthersDeliverNothing<T>(j: Job<T>, st: State<T>, m: Move, x: Place)
    requires Inv(j, st) && Runnable(j, st, m) && x.tile < j.g.n && x.side != RoundSide(j, st, x.tile)
    requires Step(j, st, m).loop.cur == st.loop.cur && !m.Skew? && !m.Compute?
    ensures Delivered(j, Step(j, st, m), x) == Delivered(j, st, x) && !Writes(j, st, m, x)
  {
    if m.Iterate? && st.loop.pc.LSignalling? {
      assert ComputeOk(j, st.setup.pc, st.mem.side, st.engine, st.loop, st.loop.pc.next);
    }
    if m.CopyA? || m.CopyB? {
      assert SetupOk(j.g, st.setup, st.mem.side, st.loop, m.i);
    }
  }

  lemma StepDelivers<T>(j: Job<T>, st: State<T>, m: Move, x: Place)
    requires Inv(j, st) && Runnable(j, st, m) && x.tile < j.g.n && x.side != RoundSide(j, st, x.tile)
    requires Step(j, st, m).loop.cur == st.loop.cur
    ensures Delivered(j, Step(j, st, m), x) == Delivered(j, st, x) + if Writes(j, st, m, x) then 1 else 0
  {
    match m
    case Skew(i) => SkewDelivers(j, st, i, x);
    case Compute(i) => ComputeDelivers(j, st, i, x);
    case _ => OthersDeliverNothing(j, st, m, x);
  }

  lemma {:induction false} RunDelivers<T>(j: Job<T>, from: State<T>, moves: seq<Move>, to: State<T>, x: Place)
    requires Inv(j, from) && Run(j, from, moves, to) && from.loop.cur == to.loop.cur
    requires x.tile < j.g.n && x.side != RoundSide(j, from, x.tile)
    ensures Inv(j, to) && Delivered(j, to, x) == Delivered(j, from, x) + Writers(j, from, moves, x)
    decreases |moves|
  {
    if moves != [] {
      var next := Step(j, from, moves[0]);
      StepInv(j, from, moves[0]);
      StepInRound(j, from, moves[0], x.tile);
      RunInRound(j, next, moves[1..], to, x.tile);
      StepDelivers(j, from, moves[0], x);
      RunDelivers(j, next, moves[1..], to, x);
    }
  }

  lemma NothingDelivered<T>(j: Job<T>, c: seq<seq<T>>, st: State<T>, x: Place)
    requires Inv(j, st) && (st == Init(j, c) || st.loop.pc == LSignalling(0)) && x.tile < j.g.n
    ensures Delivered(j, st, x) == 0
  {
    assert ComputeOk(j, st.setup.pc, st.mem.side, st.engine, st.loop, Sender(j, st.loop, x).i);
  }

  /** In a whole round, from the first signal to the compute codelets (or, for round 0, from the initial state) to the next
      firing of the loop codelet, every buffer on the side that is not read is written exactly once. */
  lemma WrittenOnce<T>(j: Job<T>, c: seq<seq<T>>, from: State<T>, moves: seq<Move>, to: State<T>, x: Place)
    requires ValidJob(j) && IsGrid(c, j.g.s) && (from == Init(j, c) || (Inv(j, from) && from.loop.pc == LSignalling(0)))
    requires Run(j, from, moves, to) && to.loop.pc.LEnabled? && to.loop.cur == from.loop.cur
    requires x.tile < j.g.n && x.side != RoundSide(j, from, x.tile)
    ensures Writers(j, from, moves, x) == 1
  {
    InitInv(j, c);
    NothingDelivered(j, c, from, x);
    RunDelivers(j, from, moves, to, x);
  }
}
