/** What the pipelined Cannon program guarantees, for every schedule. */
module PipelineResults {
  import opened Sums
  import opened Grid
  import opened SyncSlots
  import opened CannonJob
  import opened Pipeline
  import opened PipelineProofs

  // ----- Result -----

  /** When the final codelet is enabled, every block of C is the accumulated product of its tile. */
  lemma ResultAtEnd<T>(j: Job<T>, st: State<T>)
    requires Inv(j, st) && !st.drain.end.EndWaiting?
    ensures forall r, c :: 0 <= r < j.g.s && 0 <= c < j.g.s ==> st.drain.c[r][c] == Accumulated(j, j.g.at[r][c], j.g.s)
  {
    CountAll(st.drain.pc, CDone);
    forall r, c | 0 <= r < j.g.s && 0 <= c < j.g.s
      ensures st.drain.c[r][c] == Accumulated(j, j.g.at[r][c], j.g.s)
    {
      var i := j.g.at[r][c];
      assert TileAt(j.g, r, c);
      assert DrainOk(j, st.engine.pc, st.engine.tileC, st.drain, i) && ComputeOk(j, st.barrier.pc, st.engine, i);
    }
  }

  /** Under every interleaving: the continuation is signalled at most once, and only after C is complete. */
  lemma EveryRunComputes<T>(j: Job<T>, c: seq<seq<T>>, moves: seq<Move>, to: State<T>)
    requires ValidJob(j) && IsGrid(c, j.g.s) && Run(j, Init(j, c), moves, to)
    ensures to.drain.continuation <= 1 && !to.engine.fault
    ensures IsGrid(to.drain.c, j.g.s)
    ensures to.drain.continuation == 1 ==>
      forall r, c :: 0 <= r < j.g.s && 0 <= c < j.g.s ==> to.drain.c[r][c] == Accumulated(j, j.g.at[r][c], j.g.s)
  {
    InitInv(j, c);
    RunInv(j, Init(j, c), moves, to);
    if to.drain.continuation == 1 {
      ResultAtEnd(j, to);
    }
  }

  /** In every reachable state the A queue of tile (r, c) is A[r][(r+c-t) mod s] for t from its own pop count
      up to what has arrived, the B queue its column analogue, and the two heads have the same inner index. */
  lemma EveryRunQueues<T>(j: Job<T>, c: seq<seq<T>>, moves: seq<Move>, to: State<T>, i: nat)
    requires ValidJob(j) && IsGrid(c, j.g.s) && Run(j, Init(j, c), moves, to) && i < j.g.n
    ensures Sized(j.g.n, to)
    ensures var e, skew := to.engine, to.setup.pc;
      && PopsA(e, i) <= ArrivedA(j, skew, e, i) <= j.g.s + 1
      && e.queueA[i] == StreamA(j, i, PopsA(e, i), ArrivedA(j, skew, e, i))
      && PopsB(e, i) <= ArrivedB(j, skew, e, i) <= j.g.s + 1
      && e.queueB[i] == StreamB(j, i, PopsB(e, i), ArrivedB(j, skew, e, i))
      && (e.pc[i].Multiply? ==>
            && e.queueA[i] != [] && e.queueB[i] != []
            && e.queueA[i][0] == j.a[j.g.row[i]][InnerIndex(j.g, i, e.iter[i])]
            && e.queueB[i][0] == j.b[InnerIndex(j.g, i, e.iter[i])][j.g.col[i]])
  {
    InitInv(j, c);
    RunInv(j, Init(j, c), moves, to);
    var e, skew := to.engine, to.setup.pc;
    assert QueueAOk(j, skew, e, i) && QueueBOk(j, skew, e, i) && ComputeOk(j, to.barrier.pc, e, i);
    if e.pc[i].Multiply? {
      Heads(j, skew, e, i);
    }
  }

  // ----- The operands each tile multiplies -----

  /** The operand pair that tile i multiplies in move m, if any. */
  ghost function MoveProduct<T>(st: State<T>, m: Move, i: nat): seq<(T, T)>
    requires SizedEngine(|st.engine.pc|, st.engine) && i < |st.engine.pc|
  {
    var e := st.engine;
    if m == Compute(i) && e.pc[i].Multiply? && e.queueA[i] != [] && e.queueB[i] != []
    then [(e.queueA[i][0], e.queueB[i][0])] else []
  }

  /** The operand pairs that tile i multiplies in the course of a run, in order. */
  ghost function Multiplied<T>(j: Job<T>, from: State<T>, moves: seq<Move>, i: nat): seq<(T, T)>
    requires ValidJob(j) && Sized(j.g.n, from) && i < j.g.n
    decreases |moves|
  {
    if moves == [] || !Runnable(j, from, moves[0]) then []
    else MoveProduct(from, moves[0], i) + Multiplied(j, Step(j, from, moves[0]), moves[1..], i)
  }

  lemma ComputeMultiplies<T>(j: Job<T>, skew: seq<SkewPc>, b: BarrierPc, e: Engine<T>, i: nat)
    requires ValidJob(j) && SizedEngine(j.g.n, e) && |skew| == j.g.n && i < j.g.n && EngineOk(j, skew, b, e)
    ensures !e.pc[i].Multiply? ==> Products(StepCompute(j, e, i), i) == Products(e, i)
    ensures e.pc[i].Multiply? ==>
      && e.iter[i] < j.g.s && e.queueA[i] != [] && e.queueB[i] != []
      && e.queueA[i][0] == OperandA(j, i, e.iter[i]) && e.queueB[i][0] == OperandB(j, i, e.iter[i])
      && Products(e, i) == e.iter[i] && Products(StepCompute(j, e, i), i) == e.iter[i] + 1
  {
    assert QueueAOk(j, skew, e, i) && QueueBOk(j, skew, e, i) && ComputeOk(j, b, e, i);
    if e.pc[i].Multiply? {
      Heads(j, skew, e, i);
    }
  }

  lemma ProductsBound<T>(j: Job<T>, st: State<T>, i: nat)
    requires Inv(j, st) && i < j.g.n
    ensures Products(st.engine, i) <= j.g.s
  {
    assert ComputeOk(j, st.barrier.pc, st.engine, i);
  }

  lemma OthersMultiplyNothing<T>(j: Job<T>, st: State<T>, m: Move, i: nat)
    requires Inv(j, st) && Runnable(j, st, m) && i < j.g.n && m != Compute(i)
    ensures Products(Step(j, st, m).engine, i) == Products(st.engine, i)
  {
    if m.Release? {
      assert ComputeOk(j, st.barrier.pc, st.engine, st.barrier.pc.next);
    }
  }

  /** A move multiplies exactly what brings tile i's product count forward. */
  lemma MoveMultiplies<T>(j: Job<T>, st: State<T>, m: Move, i: nat)
    requires Inv(j, st) && Runnable(j, st, m) && i < j.g.n
    ensures Products(st.engine, i) <= Products(Step(j, st, m).engine, i) <= j.g.s
    ensures MoveProduct(st, m, i) == Pairs(j, i, Products(st.engine, i), Products(Step(j, st, m).engine, i))
  {
    ProductsBound(j, st, i);
    if m == Compute(i) {
      StepInv(j, st, m);
      ProductsBound(j, Step(j, st, m), i);
      ComputeMultiplies(j, st.setup.pc, st.barrier.pc, st.engine, i);
    } else {
      OthersMultiplyNothing(j, st, m, i);
    }
  }

  /** Whatever the other tiles do, tile i multiplies its operands in the order of its iterations. */
  lemma {:induction false} MultipliesInOrder<T>(j: Job<T>, from: State<T>, moves: seq<Move>, to: State<T>, i: nat)
    requires Inv(j, from) && Run(j, from, moves, to) && i < j.g.n
    ensures Sized(j.g.n, to) && Products(from.engine, i) <= Products(to.engine, i) <= j.g.s
    ensures Multiplied(j, from, moves, i) == Pairs(j, i, Products(from.engine, i), Products(to.engine, i))
    decreases |moves|
  {
    if moves == [] {
      assert ComputeOk(j, from.barrier.pc, from.engine, i);
    } else {
      var next := Step(j, from, moves[0]);
      StepInv(j, from, moves[0]);
      MoveMultiplies(j, from, moves[0], i);
      MultipliesInOrder(j, next, moves[1..], to, i);
      PairsJoin(j, i, Products(from.engine, i), Products(next.engine, i), Products(to.engine, i));
    }
  }

  /** At any time a tile has multiplied the first of its s operand pairs, each once and in order; when it has finished,
      all of them. */
  lemma EveryRunMultiplies<T>(j: Job<T>, c: seq<seq<T>>, moves: seq<Move>, to: State<T>, i: nat)
    requires ValidJob(j) && IsGrid(c, j.g.s) && Run(j, Init(j, c), moves, to) && i < j.g.n
    ensures Sized(j.g.n, to)
    ensures Multiplied(j, Init(j, c), moves, i) <= Pairs(j, i, 0, j.g.s)
    ensures to.engine.pc[i].Finished? || to.drain.continuation == 1 ==>
      Multiplied(j, Init(j, c), moves, i) == Pairs(j, i, 0, j.g.s)
  {
    InitInv(j, c);
    RunInv(j, Init(j, c), moves, to);
    MultipliesInOrder(j, Init(j, c), moves, to, i);
    PairsJoin(j, i, 0, Products(to.engine, i), j.g.s);
    CountAll(to.drain.pc, CDone);
    assert ComputeOk(j, to.barrier.pc, to.engine, i) && DrainOk(j, to.engine.pc, to.engine.tileC, to.drain, i);
  }

  // ----- Tokens -----

  ghost const INTS: Monoid<int> := Monoid(0, (x: int, y: int) => x + y)

  lemma IntsLawful()
    ensures Lawful(INTS)
  {
    forall x ensures Unit(INTS, x) {}
    forall x, y ensures Commutes(INTS, x, y) {}
    forall x, y, z ensures Associates(INTS, x, y, z) {}
  }

  /** 1 while tile i has pushed its current A tile but not popped it. */
  ghost function HandingOnA<T>(e: Engine<T>, i: nat): nat
    requires i < |e.pc| == |e.iter|
  {
    PushesA(e, i) - PopsA(e, i)
  }

  ghost function TokensA<T>(j: Job<T>, e: Engine<T>, r: nat): nat -> int
    requires ValidJob(j) && SizedEngine(j.g.n, e) && r < j.g.s
  {
    (x: nat) => if x < j.g.s then |e.queueA[j.g.at[r][x]]| - HandingOnA(e, j.g.at[r][x]) else 0
  }

  ghost function PushCountsA<T>(j: Job<T>, e: Engine<T>, r: nat): nat -> int
    requires ValidJob(j) && SizedEngine(j.g.n, e) && r < j.g.s
  {
    (x: nat) => if x < j.g.s then PushesA(e, j.g.at[r][x]) else 0
  }

  /** 1 while tile i has pushed its current B tile but not popped it. */
  ghost function HandingOnB<T>(e: Engine<T>, i: nat): nat
    requires i < |e.pc| == |e.iter|
  {
    PushesB(e, i) - PopsB(e, i)
  }

  ghost function TokensB<T>(j: Job<T>, e: Engine<T>, c: nat): nat -> int
    requires ValidJob(j) && SizedEngine(j.g.n, e) && c < j.g.s
  {
    (x: nat) => if x < j.g.s then |e.queueB[j.g.at[x][c]]| - HandingOnB(e, j.g.at[x][c]) else 0
  }

  ghost function PushCountsB<T>(j: Job<T>, e: Engine<T>, c: nat): nat -> int
    requires ValidJob(j) && SizedEngine(j.g.n, e) && c < j.g.s
  {
    (x: nat) => if x < j.g.s then PushesB(e, j.g.at[x][c]) else 0
  }

  /** u |-> f(u - 1), cyclically over s */
  ghost function Before(s: nat, f: nat -> int): nat -> int
    requires s > 0
  {
    (u: nat) => if u == 0 then f(s - 1) else f(u - 1)
  }

  lemma SumBefore(s: nat, f: nat -> int)
    requires s > 0
    ensures Sum(INTS, Before(s, f), 0, s) == Sum(INTS, f, 0, s)
  {
    IntsLawful();
    SumFirst(INTS, Before(s, f), 0, s);
    SumShift(INTS, f, Before(s, f), s - 1, 1);
  }

  lemma {:induction false} SumDifference(f: nat -> int, g: nat -> int, h: nat -> int, n: nat)
    requires forall k :: 0 <= k < n ==> h(k) == 1 + f(k) - g(k)
    ensures Sum(INTS, h, 0, n) == n + Sum(INTS, f, 0, n) - Sum(INTS, g, 0, n)
  {
    if n > 0 {
      SumDifference(f, g, h, n - 1);
    }
  }

  lemma {:induction false} TermBelowSum(f: nat -> int, n: nat, k: nat)
    requires k < n && forall u :: 0 <= u < n ==> f(u) >= 0
    ensures 0 <= f(k) <= Sum(INTS, f, 0, n)
  {
    NonNegative(f, n - 1);
    if k < n - 1 {
      TermBelowSum(f, n - 1, k);
    }
  }

  lemma {:induction false} NonNegative(f: nat -> int, n: nat)
    requires forall u :: 0 <= u < n ==> f(u) >= 0
    ensures Sum(INTS, f, 0, n) >= 0
  {
    if n > 0 {
      NonNegative(f, n - 1);
    }
  }

  lemma TokenCountA<T>(j: Job<T>, st: State<T>, r: nat, x: nat)
    requires Inv(j, st) && r < j.g.s && x < j.g.s
    requires forall k :: 0 <= k < j.g.n ==> st.setup.pc[k].SkewDone?
    ensures TokensA(j, st.engine, r)(x)
         == 1 + Before(j.g.s, PushCountsA(j, st.engine, r))(x) - PushCountsA(j, st.engine, r)(x)
  {
    var i := j.g.at[r][x];
    assert TileAt(j.g, r, x) && QueueAOk(j, st.setup.pc, st.engine, i);
    assert Wired(j.g, i) && Wired(j.g, j.g.left[i]);
  }

  /** Conservation: after the skew, row r holds exactly s A tiles, not counting those being handed on. */
  lemma RowTokens<T>(j: Job<T>, st: State<T>, r: nat)
    requires Inv(j, st) && r < j.g.s
    requires forall k :: 0 <= k < j.g.n ==> st.setup.pc[k].SkewDone?
    ensures Sum(INTS, TokensA(j, st.engine, r), 0, j.g.s) == j.g.s
  {
    var e, pushes := st.engine, PushCountsA(j, st.engine, r);
    forall x | 0 <= x < j.g.s
      ensures TokensA(j, e, r)(x) == 1 + Before(j.g.s, pushes)(x) - pushes(x)
    {
      TokenCountA(j, st, r, x);
    }
    SumDifference(Before(j.g.s, pushes), pushes, TokensA(j, e, r), j.g.s);
    SumBefore(j.g.s, pushes);
  }

  /** No A queue ever holds more than s tiles, or s + 1 between a tile's own push and its pop. */
  lemma QueueABound<T>(j: Job<T>, st: State<T>, i: nat)
    requires Inv(j, st) && i < j.g.n
    ensures |st.engine.queueA[i]| <= j.g.s + HandingOnA(st.engine, i)
  {
    var e, r := st.engine, j.g.row[i];
    assert QueueAOk(j, st.setup.pc, e, i) && Wired(j.g, i);
    if forall k :: 0 <= k < j.g.n ==> st.setup.pc[k].SkewDone? {
      forall x | 0 <= x < j.g.s
        ensures TokensA(j, e, r)(x) >= 0
      {
        assert ComputeOk(j, st.barrier.pc, e, j.g.at[r][x]);
      }
      RowTokens(j, st, r);
      TermBelowSum(TokensA(j, e, r), j.g.s, j.g.col[i]);
    } else {
      var k :| 0 <= k < j.g.n && !st.setup.pc[k].SkewDone?;
      SkewPushesFirst(j, st, k);
    }
  }

  lemma TokenCountB<T>(j: Job<T>, st: State<T>, c: nat, x: nat)
    requires Inv(j, st) && c < j.g.s && x < j.g.s
    requires forall k :: 0 <= k < j.g.n ==> st.setup.pc[k].SkewDone?
    ensures TokensB(j, st.engine, c)(x)
         == 1 + Before(j.g.s, PushCountsB(j, st.engine, c))(x) - PushCountsB(j, st.engine, c)(x)
  {
    var i := j.g.at[x][c];
    assert TileAt(j.g, x, c) && QueueBOk(j, st.setup.pc, st.engine, i);
    assert Wired(j.g, i) && Wired(j.g, j.g.up[i]);
  }

  /** Conservation: after the skew, column c holds exactly s B tiles, not counting those being handed on. */
  lemma ColumnTokens<T>(j: Job<T>, st: State<T>, c: nat)
    requires Inv(j, st) && c < j.g.s
    requires forall k :: 0 <= k < j.g.n ==> st.setup.pc[k].SkewDone?
    ensures Sum(INTS, TokensB(j, st.engine, c), 0, j.g.s) == j.g.s
  {
    var e, pushes := st.engine, PushCountsB(j, st.engine, c);
    forall x | 0 <= x < j.g.s
      ensures TokensB(j, e, c)(x) == 1 + Before(j.g.s, pushes)(x) - pushes(x)
    {
      TokenCountB(j, st, c, x);
    }
    SumDifference(Before(j.g.s, pushes), pushes, TokensB(j, e, c), j.g.s);
    SumBefore(j.g.s, pushes);
  }

  /** No B queue ever holds more than s tiles, or s + 1 between a tile's own push and its pop. */
  lemma QueueBBound<T>(j: Job<T>, st: State<T>, i: nat)
    requires Inv(j, st) && i < j.g.n
    ensures |st.engine.queueB[i]| <= j.g.s + HandingOnB(st.engine, i)
  {
    var e, c := st.engine, j.g.col[i];
    assert QueueBOk(j, st.setup.pc, e, i) && Wired(j.g, i);
    if forall k :: 0 <= k < j.g.n ==> st.setup.pc[k].SkewDone? {
      forall x | 0 <= x < j.g.s
        ensures TokensB(j, e, c)(x) >= 0
      {
        assert ComputeOk(j, st.barrier.pc, e, j.g.at[x][c]);
      }
      ColumnTokens(j, st, c);
      TermBelowSum(TokensB(j, e, c), j.g.s, j.g.row[i]);
    } else {
      var k :| 0 <= k < j.g.n && !st.setup.pc[k].SkewDone?;
      SkewPushesFirst(j, st, k);
    }
  }
}
