/** The bulk-synchronous Cannon program always comes to an end: every move leaves less work, and until the continuation has
    been signalled some codelet can move. */
module BulkProgress {
  import opened Grid
  import opened SyncSlots
  import opened CannonJob
  import opened BulkCannon
  import opened BulkProofs
  import opened BulkRounds
  import P = Pipeline
  import PP = PipelineProofs
  import PG = PipelineProgress

  function SkewRank(pc: SkewPc): nat {
    match pc
    case KWaiting => 5
    case KEnabled => 4
    case KCopyA(_, _, _) => 3
    case KCopyB(_, _, _) => 2
    case KSignal => 1
    case KDone => 0
  }

  /** Micro-steps that a compute codelet still makes in this round. */
  function ComputeRank(pc: ComputePc): nat {
    match pc
    case BWaiting => 0
    case BEnabled => 5
    case BMultiply(_) => 4
    case BCopyA(_, _, _) => 3
    case BCopyB(_, _, _) => 2
    case BSignal => 1
  }

  /** The work of k rounds: n exchanges of buffers, n signals and five steps of n compute codelets in each. */
  function RoundsRank(n: nat, k: nat): nat {
    if k == 0 then 0 else RoundsRank(n, k - 1) + 8 * n + 4
  }

  function LoopRank(n: nat, s: nat, l: Loop): nat {
    RoundsRank(n, if l.cur < s then s - l.cur else 0)
    + match l.pc
      case LWaiting => n + 3
      case LEnabled => n + 2
      case LSwapping(k) => if k < n then n - k + 1 else 1
      case LSignalling(k) => if k < n then 7 * (n - k) + n + 4 else 0
      case LCopying(k) => if k < n then n - k else 0
  }

  ghost function TileRank<T>(j: Job<T>, st: State<T>, i: nat): nat
    requires Sized(j.g.n, st) && i < j.g.n
  {
    PG.CopyRank(st.setup.copyA[i]) + PG.CopyRank(st.setup.copyB[i]) + SkewRank(st.setup.pc[i])
    + ComputeRank(st.engine.pc[i]) + PG.CopyCRank(st.drain.pc[i])
  }

  ghost function TilesRank<T>(j: Job<T>, st: State<T>, m: nat): nat
    requires Sized(j.g.n, st) && m <= j.g.n
  {
    if m == 0 then 0 else TilesRank(j, st, m - 1) + TileRank(j, st, m - 1)
  }

  ghost function GlobalRank<T>(j: Job<T>, st: State<T>): nat {
    LoopRank(j.g.n, j.g.s, st.loop) + PG.EndRank(st.drain.end)
  }

  /** A bound on the number of micro-steps still to come. */
  ghost function Rank<T>(j: Job<T>, st: State<T>): nat
    requires Sized(j.g.n, st)
  {
    TilesRank(j, st, j.g.n) + GlobalRank(j, st)
  }

  /** Only tile i, if any, may gain work, and no more than `more`. */
  lemma {:induction false} TilesRankGrows<T>(j: Job<T>, st: State<T>, st': State<T>, m: nat, i: nat, more: int)
    requires Sized(j.g.n, st) && Sized(j.g.n, st') && m <= j.g.n && i < j.g.n
    requires forall k: nat :: k < j.g.n && k != i ==> TileRank(j, st', k) == TileRank(j, st, k)
    requires TileRank(j, st', i) <= TileRank(j, st, i) + more
    ensures TilesRank(j, st', m) <= TilesRank(j, st, m) + if i < m then more else 0
  {
    if m > 0 {
      TilesRankGrows(j, st, st', m - 1, i, more);
    }
  }

  /** The tile that a move works on. */
  function TileOfMove(l: Loop, m: Move): nat {
    match m
    case CopyA(i) => i
    case CopyB(i) => i
    case Skew(i) => i
    case Compute(i) => i
    case CopyC(i) => i
    case Iterate => (match l.pc case LSignalling(k) => k case LCopying(k) => k case _ => 0)
    case End => 0
  }

  ghost predicate Falls<T>(j: Job<T>, st: State<T>, st': State<T>, i: nat)
    requires Sized(j.g.n, st) && Sized(j.g.n, st') && i < j.g.n
  {
    && (forall k: nat :: k < j.g.n && k != i ==> TileRank(j, st', k) == TileRank(j, st, k))
    && TileRank(j, st', i) + GlobalRank(j, st') < TileRank(j, st, i) + GlobalRank(j, st)
  }

  lemma SetupFalls<T>(j: Job<T>, st: State<T>, m: Move)
    requires Inv(j, st) && Runnable(j, st, m) && (m.CopyA? || m.CopyB? || m.Skew?)
    ensures Falls(j, st, Step(j, st, m), m.i)
  {
    assert SetupOk(j.g, st.setup, st.mem.side, st.loop, m.i);
  }

  lemma ComputeFalls<T>(j: Job<T>, st: State<T>, i: nat)
    requires Inv(j, st) && Runnable(j, st, Compute(i))
    ensures Falls(j, st, Step(j, st, Compute(i)), i)
  {
    assert ComputeOk(j, st.setup.pc, st.mem.side, st.engine, st.loop, i);
  }

  lemma ReleaseFalls<T>(j: Job<T>, st: State<T>)
    requires Inv(j, st) && st.loop.pc.LSignalling?
    ensures Falls(j, st, StepLoop(j, st), st.loop.pc.next)
  {
    assert ComputeOk(j, st.setup.pc, st.mem.side, st.engine, st.loop, st.loop.pc.next);
  }

  lemma CopyBackFalls<T>(j: Job<T>, st: State<T>)
    requires Inv(j, st) && st.loop.pc.LCopying? && st.loop.pc.next < j.g.n
    ensures Falls(j, st, StepLoop(j, st), st.loop.pc.next)
  {
    assert PP.DrainOk(j, Released(j.g.n, st.loop), st.engine.tileC, st.drain, st.loop.pc.next);
  }

  lemma LoopFalls<T>(j: Job<T>, st: State<T>)
    requires Inv(j, st) && Runnable(j, st, Iterate)
    ensures TileOfMove(st.loop, Iterate) < j.g.n
    ensures Falls(j, st, StepLoop(j, st), TileOfMove(st.loop, Iterate))
  {
    if st.loop.pc.LSignalling? {
      ReleaseFalls(j, st);
    } else if st.loop.pc.LCopying? {
      CopyBackFalls(j, st);
    }
  }

  lemma DrainFalls<T>(j: Job<T>, st: State<T>, m: Move)
    requires Inv(j, st) && Runnable(j, st, m) && (m.CopyC? || m.End?)
    ensures Falls(j, st, Step(j, st, m), TileOfMove(st.loop, m))
  {
    if m.CopyC? {
      assert PP.DrainOk(j, Released(j.g.n, st.loop), st.engine.tileC, st.drain, m.i);
      CountUpdate(st.drain.pc, P.CDone, m.i, P.CDone);
      CountAll(st.drain.pc, P.CDone);
    }
  }

  /** Every move leaves less work. */
  lemma RankDecreases<T>(j: Job<T>, st: State<T>, m: Move)
    requires Inv(j, st) && Runnable(j, st, m)
    ensures Rank(j, Step(j, st, m)) < Rank(j, st)
  {
    var i, st' := TileOfMove(st.loop, m), Step(j, st, m);
    match m {
      case Compute(_) => ComputeFalls(j, st, i);
      case Iterate => LoopFalls(j, st);
      case CopyC(_) => DrainFalls(j, st, m);
      case End => DrainFalls(j, st, m);
      case _ => SetupFalls(j, st, m);
    }
    TilesRankGrows(j, st, st', j.g.n, i, TileRank(j, st', i) - TileRank(j, st, i));
  }

  /** Signals are still missing: a tile that has not sent its own can move. */
  lemma SenderCanMove<T>(j: Job<T>, st: State<T>) returns (m: Move)
    requires Inv(j, st) && st.loop.pc.LWaiting?
    ensures Runnable(j, st, m)
  {
    var i: nat := 0;
    if forall k :: 0 <= k < j.g.n ==> st.engine.sent[k] != st.loop.cur {
      CountNone(st.engine.sent, st.loop.cur);
    } else {
      i :| i < j.g.n && st.engine.sent[i] == st.loop.cur;
    }
    assert SetupOk(j.g, st.setup, st.mem.side, st.loop, i);
    assert ComputeOk(j, st.setup.pc, st.mem.side, st.engine, st.loop, i);
    m := if st.loop.cur > 0 then Compute(i)
         else if !st.setup.copyA[i].Signalled? then CopyA(i)
         else if !st.setup.copyB[i].Signalled? then CopyB(i)
         else Skew(i);
  }

  /** All of C has been released: it can be copied back, and then the end codelet can fire. */
  lemma DrainCanMove<T>(j: Job<T>, st: State<T>) returns (m: Move)
    requires Inv(j, st) && st.loop.pc == LCopying(j.g.n) && st.drain.continuation == 0
    ensures Runnable(j, st, m)
  {
    m := End;
    CountAll(st.drain.pc, P.CDone);
    if i :| 0 <= i < j.g.n && !st.drain.pc[i].CDone? {
      assert PP.DrainOk(j, Released(j.g.n, st.loop), st.engine.tileC, st.drain, i);
      m := CopyC(i);
    }
  }

  /** No deadlock: in every reachable state in which the continuation has not been signalled, a codelet can move. */
  lemma NeverStuck<T>(j: Job<T>, st: State<T>) returns (m: Move)
    requires Inv(j, st) && st.drain.continuation == 0
    ensures Runnable(j, st, m)
  {
    m := Iterate;
    if st.loop.pc.LWaiting? {
      m := SenderCanMove(j, st);
    } else if st.loop.pc == LCopying(j.g.n) {
      m := DrainCanMove(j, st);
    }
  }

  lemma {:induction false} RunRank<T>(j: Job<T>, from: State<T>, moves: seq<Move>, to: State<T>)
    requires Inv(j, from) && Run(j, from, moves, to)
    ensures Inv(j, to) && |moves| + Rank(j, to) <= Rank(j, from)
    decreases |moves|
  {
    if moves != [] {
      RankDecreases(j, from, moves[0]);
      StepInv(j, from, moves[0]);
      RunRank(j, Step(j, from, moves[0]), moves[1..], to);
    }
  }

  /** Nothing is left to move. */
  ghost predicate Ended<T>(j: Job<T>, st: State<T>)
    requires Sized(j.g.n, st)
  {
    forall m: Move :: !Runnable(j, st, m)
  }

  lemma NothingLeft<T>(j: Job<T>, st: State<T>)
    requires Inv(j, st) && st.drain.continuation == 1
    ensures Ended(j, st)
  {
    CountAll(st.drain.pc, P.CDone);
    assert PP.DrainOk(j, Released(j.g.n, st.loop), st.engine.tileC, st.drain, j.g.n - 1);
    FiringIsQuiet(j, st);
    forall m: Move
      ensures !Runnable(j, st, m)
    {
      if m.CopyA? || m.CopyB? || m.Skew? || m.Compute? {
        if m.i < j.g.n {
          assert SetupOk(j.g, st.setup, st.mem.side, st.loop, m.i) && QuietAt(st.setup, st.engine, m.i);
        }
      }
    }
  }

  /** Every schedule comes to an end within the rank of the initial state, and one that cannot be continued has fired the
      loop codelet exactly s + 1 times, has signalled the continuation once and has left the product in every block of C. */
  lemma EveryBulkRunEnds<T>(j: Job<T>, c: seq<seq<T>>, moves: seq<Move>, to: State<T>)
    requires ValidJob(j) && IsGrid(c, j.g.s) && Run(j, Init(j, c), moves, to)
    ensures Sized(j.g.n, to) && |moves| <= Rank(j, Init(j, c))
    ensures Ended(j, to) <==> to.drain.continuation == 1
    ensures IsGrid(to.drain.c, j.g.s)
    ensures Ended(j, to) ==>
      && to.loop.fires == j.g.s + 1
      && forall r, c :: 0 <= r < j.g.s && 0 <= c < j.g.s ==> to.drain.c[r][c] == Accumulated(j, j.g.at[r][c], j.g.s)
  {
    InitInv(j, c);
    RunRank(j, Init(j, c), moves, to);
    EveryBulkRunComputes(j, c, moves, to);
    if to.drain.continuation == 0 {
      var m := NeverStuck(j, to);
    } else {
      NothingLeft(j, to);
    }
  }

  /** Whatever the schedule has done so far, the run can be completed. */
  lemma {:induction false} CanFinish<T>(j: Job<T>, st: State<T>) returns (moves: seq<Move>, to: State<T>)
    requires Inv(j, st)
    ensures Run(j, st, moves, to) && to.drain.continuation == 1
    decreases Rank(j, st)
  {
    if st.drain.continuation == 0 {
      var m := NeverStuck(j, st);
      RankDecreases(j, st, m);
      StepInv(j, st, m);
      var rest;
      rest, to := CanFinish(j, Step(j, st, m));
      moves := [m] + rest;
      assert moves[1..] == rest;
    } else {
      moves, to := [], st;
    }
  }
}
