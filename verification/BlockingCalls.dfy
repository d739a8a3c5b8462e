/** What the clients of the blocking wrapper see: the calls they made, and how each of them was answered. */
module BlockingCalls {
  import opened Bits
  import opened SpscQueue
  import opened SpscInvariant
  import opened SpscResults
  import opened SpscCapacity
  import opened SpscCalls
  import opened Semaphore
  import opened SemaphoreCalls
  import opened BlockingQueue

  /** A removal or a peek. empty and permits are what it began with; steps counts the steps it has made. */
  datatype BPull = NoBPull | BPull(op: Op, empty: bool, wait: WaitCall)

  /** The latest call of either thread, the arguments of the insertions that were answered with true, and the results of the
      removals, in order. */
  datatype BClient<T> = BClient(push: PushCall<T>, pushSteps: nat, pull: BPull, given: seq<T>, taken: seq<T>)

  ghost function Held<T>(b: Blocking<T>): seq<T> {
    Contents(b.inner.h.l)
  }

  ghost function BPullBegun<T>(b: Blocking<T>, op: Op, kind: Kind): BPull {
    BPull(op, Held(b) == [], WaitBegun(b.sema, kind))
  }

  ghost function BWatch<T>(cl: BClient<T>, b: Blocking<T>, m: BMove<T>): BClient<T>
    requires CanMove(b, m)
  {
    var b' := BStep(b, m);
    match m
    case Push(x, can) => cl.(push := PushBegun(b.inner, x, can), pushSteps := 0)
    case Pushing(memory) =>
      cl.(push := PushGoesOn(cl.push, b.inner, memory, b'.inner), pushSteps := cl.pushSteps + 1,
          given := if b'.prod == BIdle(true) && cl.push.PushCall? then cl.given + [cl.push.x] else cl.given)
    case Pull(op, kind) => cl.(pull := BPullBegun(b, op, kind))
    case Pulling(timeout) =>
      cl.(pull := if cl.pull.BPull? then cl.pull.(wait := WaitGoesOn(cl.pull.wait, b.sema, timeout)) else cl.pull,
          taken := if b'.cons.KIdle? && b'.cons.result.Removed? then cl.taken + [b'.cons.result.value] else cl.taken)
  }

  /** What the clients have seen at the end of a run. */
  ghost function BWatched<T>(cl: BClient<T>, from: Blocking<T>, moves: seq<BMove<T>>): BClient<T>
    decreases |moves|
  {
    if moves == [] || !CanMove(from, moves[0]) then cl
    else BWatched(BWatch(cl, from, moves[0]), BStep(from, moves[0]), moves[1..])
  }

  ghost function NewBClient<T>(): BClient<T> {
    BClient(NoPush, 0, NoBPull, [], [])
  }

  // The producer's call

  /** The element is in the queue, and the call has not returned. */
  predicate Unanswered<T>(prod: ProducerSide, p: Producer<T>) {
    prod.BSignal? || (prod.BInner? && p == PIdle(true))
  }

  /** A bound on the steps that an insertion still makes. */
  function PushRank<T>(prod: ProducerSide, p: Producer<T>, s: Signaller): nat {
    match prod
    case BIdle(_) => 0
    case BInner => if p.PIdle? then 4 else 4 + ProducerRank(p)
    case BSignal => if s.SIdle? then 1 else if s.SPost? then 2 else 3
  }

  ghost function Pending<T>(b: Blocking<T>, push: PushCall<T>): seq<T> {
    if Unanswered(b.prod, b.inner.p) && push.PushCall? then [push.x] else []
  }

  /** The latest insertion is in order, whether it goes on or has returned. */
  ghost predicate BPushOk<T>(b: Blocking<T>, cl: BClient<T>, size: nat) {
    && PushOk(b.inner, cl.push, size)
    && (cl.push.NoPush? ==> b.prod == BIdle(true))
    && (b.prod.BIdle? ==> b.inner.p == PIdle(b.prod.ok))
    && (b.prod.BSignal? ==> b.inner.p == PIdle(true))
    && (cl.push.PushCall? ==> cl.pushSteps + PushRank(b.prod, b.inner.p, b.sema.s) <= 17)
    && b.inner.h.enqueued == cl.given + Pending(b, cl.push)
    && b.sema.signalled == |cl.given| + (if b.prod.BSignal? && !b.sema.s.SAdd? then 1 else 0)
  }

  lemma BPushBegins<T>(b: Blocking<T>, x: T, can: bool, cl: BClient<T>, size: nat)
    requires BlockingOk(b) && CanMove(b, Push(x, can)) && BPushOk(b, cl, size)
    ensures BPushOk(BStep(b, Push(x, can)), BWatch(cl, b, Push(x, can)), size)
  {
    BeginPush(b.inner, x, can, size);
  }

  lemma BInserting<T>(b: Blocking<T>, memory: bool, cl: BClient<T>, n: nat, m: nat, size: nat)
    requires BlockingOk(b) && b.prod.BInner? && !b.inner.p.PIdle?
    requires BPushOk(b, cl, size) && Grown(b.inner.q, b.inner.p, n, m) && Promises(n, m, size)
    ensures BPushOk(PushStep(b, memory), BWatch(cl, b, Pushing(memory)), size)
  {
    ProduceRefines(b.inner, memory);
    ProduceCall(b.inner, memory, cl.push, n, m, size);
    WaitFree(b.inner, memory);
  }

  lemma BInserted<T>(b: Blocking<T>, memory: bool, cl: BClient<T>, size: nat)
    requires BlockingOk(b) && b.prod.BInner? && b.inner.p.PIdle? && BPushOk(b, cl, size)
    ensures BPushOk(PushStep(b, memory), BWatch(cl, b, Pushing(memory)), size)
  {
  }

  lemma BSignalling<T>(b: Blocking<T>, memory: bool, cl: BClient<T>, size: nat)
    requires BlockingOk(b) && b.prod.BSignal? && BPushOk(b, cl, size)
    ensures BPushOk(PushStep(b, memory), BWatch(cl, b, Pushing(memory)), size)
  {
  }

  /** All that the insertion's order depends on. */
  lemma PushFrame<T>(b: Blocking<T>, b': Blocking<T>, cl: BClient<T>, cl': BClient<T>, size: nat)
    requires BPushOk(b, cl, size) && PushOk(b'.inner, cl.push, size)
    requires b'.prod == b.prod && b'.inner.p == b.inner.p && b'.inner.h.enqueued == b.inner.h.enqueued
    requires b'.sema.s == b.sema.s && b'.sema.signalled == b.sema.signalled
    requires cl'.push == cl.push && cl'.pushSteps == cl.pushSteps && cl'.given == cl.given
    ensures BPushOk(b', cl', size)
  {
  }

  ghost predicate StepsInside<T>(b: Blocking<T>) {
    (b.cons.KInner? || b.cons.KPeek?) && !b.inner.c.CIdle?
  }

  lemma PullInside<T>(b: Blocking<T>, timeout: bool, call: PushCall<T>, size: nat)
    requires BlockingOk(b) && StepsInside(b) && PushOk(b.inner, call, size)
    ensures var b' := PullStep(b, timeout);
      && PushOk(b'.inner, call, size) && b'.inner.p == b.inner.p && b'.inner.h.enqueued == b.inner.h.enqueued
      && b'.prod == b.prod && b'.sema == b.sema
  {
    ConsumeRefines(b.inner);
    ConsumeBesides(b.inner, call, size);
  }

  lemma PullOutside<T>(b: Blocking<T>, move: BMove<T>, call: PushCall<T>, size: nat)
    requires BlockingOk(b) && CanMove(b, move) && PushOk(b.inner, call, size)
    requires move.Pull? || (move.Pulling? && !StepsInside(b))
    ensures var b' := BStep(b, move);
      && PushOk(b'.inner, call, size) && b'.inner.p == b.inner.p && b'.inner.h.enqueued == b.inner.h.enqueued
      && b'.prod == b.prod && b'.sema.s == b.sema.s && b'.sema.signalled == b.sema.signalled
  {
  }

  /** What the consumer does leaves the insertion in order. */
  lemma PullBesides<T>(b: Blocking<T>, move: BMove<T>, cl: BClient<T>, size: nat)
    requires BlockingOk(b) && CanMove(b, move) && (move.Pull? || move.Pulling?) && BPushOk(b, cl, size)
    ensures BPushOk(BStep(b, move), BWatch(cl, b, move), size)
  {
    if move.Pulling? && StepsInside(b) {
      PullInside(b, move.timeout, cl.push, size);
    } else {
      PullOutside(b, move, cl.push, size);
    }
    PushFrame(b, BStep(b, move), cl, BWatch(cl, b, move), size);
  }

  // The consumer's call

  /** A bound on the steps that a try_dequeue, a pop or a peek still makes. */
  function PullRank<T>(cons: ConsumerSide<T>, c: Consumer<T>, w: Waiter): nat {
    match cons
    case KIdle(_) => 0
    case KWait(_, _) => if w == WIdle(false) then 1 else 16 + TryRank(w)
    case KSized(_) => 16
    case _ => 1 + ConsumerRank(c)
  }

  /** The element has left the queue, and the call has not returned. */
  ghost function InHand<T>(cons: ConsumerSide<T>, c: Consumer<T>): seq<T> {
    if cons.KInner? && c.CIdle? && c.result.Removed? then [c.result.value] else []
  }

  /** The permit has been granted, and the call has not returned. */
  ghost predicate Granting<T>(cons: ConsumerSide<T>, w: Waiter) {
    cons.KInner? || (cons.KWait? && w == WIdle(true))
  }

  /** What a call that has returned has answered. A removal removes exactly if it was granted a permit, and returns nothing
      only if there was none when it began; a peek returns nothing only if the queue was empty when it began, and points at
      the oldest element until the next call. */
  ghost predicate BPullAnswered<T>(b: Blocking<T>, op: Op, empty: bool, wait: WaitCall, result: Outcome<T>) {
    if op.Peek? then
      match result
      case Nothing => empty
      case Removed(_) => false
      case Seen(v) => Held(b) != [] && v == Held(b)[0]
    else
      && !result.Seen? && (result.Removed? <==> b.sema.w == WIdle(true))
      && (result.Nothing? ==> wait.WaitCall? && wait.permits <= 0 && !wait.kind.Forever? && (wait.kind.Timed? ==> wait.expired))
  }

  /** Where the call stands. */
  ghost predicate BPullStage<T>(b: Blocking<T>, op: Op, empty: bool, wait: WaitCall) {
    match b.cons
    case KIdle(result) => BPullAnswered(b, op, empty, wait, result)
    case KWait(op', kind) => op' == op && !op.Peek? && wait.WaitCall? && kind == wait.kind && WaitOk(b.sema, wait)
    case KInner => !op.Peek? && b.sema.w == WIdle(true) && (!b.inner.c.CIdle? ==> b.inner.c.op == op)
    case KSized(_) => op.Peek? && (Held(b) == [] ==> empty)
    case KPeek(_) => op.Peek? && PullOk(b.inner, PullCall(op, empty))
  }

  /** The latest removal or peek is in order, whether it goes on or has returned. */
  ghost predicate BPullOk<T>(b: Blocking<T>, cl: BClient<T>) {
    && b.inner.h.dequeued == cl.taken + InHand(b.cons, b.inner.c)
    && b.sema.taken == |cl.taken| + (if Granting(b.cons, b.sema.w) then 1 else 0)
    && match cl.pull
       case NoBPull => b.cons == KIdle(Nothing)
       case BPull(op, empty, wait) =>
         && BPullStage(b, op, empty, wait)
         && wait.WaitCall? && (wait.permits > 0 ==> !empty)
         && (wait.kind.Try? || op.Peek? ==> wait.steps + PullRank(b.cons, b.inner.c, b.sema.w) <= 18)
  }

  lemma BPullBegins<T>(b: Blocking<T>, op: Op, kind: Kind, cl: BClient<T>)
    requires BlockingOk(b) && CanMove(b, Pull(op, kind)) && BPullOk(b, cl)
    ensures BPullOk(BStep(b, Pull(op, kind)), BWatch(cl, b, Pull(op, kind)))
  {
  }

  lemma BWaiting<T>(b: Blocking<T>, timeout: bool, cl: BClient<T>)
    requires BlockingOk(b) && CanMove(b, Pulling(timeout)) && b.cons.KWait? && !b.sema.w.WIdle? && BPullOk(b, cl)
    ensures BPullOk(PullStep(b, timeout), BWatch(cl, b, Pulling(timeout)))
  {
    WaitReturns(b.sema, timeout);
    if cl.pull.BPull? {
      WaitStays(b.sema, timeout, cl.pull.wait);
    }
  }

  lemma BWaited<T>(b: Blocking<T>, timeout: bool, cl: BClient<T>)
    requires BlockingOk(b) && CanMove(b, Pulling(timeout)) && b.cons.KWait? && b.sema.w.WIdle? && BPullOk(b, cl)
    ensures BPullOk(PullStep(b, timeout), BWatch(cl, b, Pulling(timeout)))
  {
  }

  lemma BSized<T>(b: Blocking<T>, timeout: bool, cl: BClient<T>)
    requires BlockingOk(b) && CanMove(b, Pulling(timeout)) && b.cons.KSized? && BPullOk(b, cl)
    ensures BPullOk(PullStep(b, timeout), BWatch(cl, b, Pulling(timeout)))
  {
  }

  lemma BRemoving<T>(b: Blocking<T>, timeout: bool, cl: BClient<T>)
    requires BlockingOk(b) && CanMove(b, Pulling(timeout)) && b.cons.KInner? && BPullOk(b, cl)
    ensures BPullOk(PullStep(b, timeout), BWatch(cl, b, Pulling(timeout)))
  {
    if !b.inner.c.CIdle? {
      ConsumeRefines(b.inner);
      ConsumeReturns(b.inner);
      WaitFree(b.inner, false);
    }
  }

  lemma BPeeking<T>(b: Blocking<T>, timeout: bool, cl: BClient<T>)
    requires BlockingOk(b) && CanMove(b, Pulling(timeout)) && b.cons.KPeek? && BPullOk(b, cl)
    ensures BPullOk(PullStep(b, timeout), BWatch(cl, b, Pulling(timeout)))
  {
    if !b.inner.c.CIdle? {
      ConsumeRefines(b.inner);
      WaitFree(b.inner, false);
      if cl.pull.BPull? {
        ConsumeCall(b.inner, PullCall(cl.pull.op, cl.pull.empty));
      }
    }
  }

  /** The producer only adds elements and permits. */
  ghost predicate Added<T>(b: Blocking<T>, b': Blocking<T>) {
    && b'.cons == b.cons && b'.inner.c == b.inner.c && b'.sema.w == b.sema.w
    && b'.inner.h.dequeued == b.inner.h.dequeued && b'.sema.taken == b.sema.taken
    && Held(b) <= Held(b') && Permits(b.sema) <= Permits(b'.sema)
  }

  lemma PushAdds<T>(b: Blocking<T>, move: BMove<T>)
    requires BlockingOk(b) && CanMove(b, move) && (move.Push? || move.Pushing?)
    ensures Added(b, BStep(b, move))
  {
    if move.Pushing? && b.prod.BInner? && !b.inner.p.PIdle? {
      ProduceRefines(b.inner, move.memory);
    }
  }

  lemma PeekBesides<T>(b: Blocking<T>, move: BMove<T>, call: PullCall)
    requires BlockingOk(b) && CanMove(b, move) && (move.Push? || move.Pushing?) && PullOk(b.inner, call)
    ensures PullOk(BStep(b, move).inner, call)
  {
    if move.Pushing? && b.prod.BInner? && !b.inner.p.PIdle? {
      ProduceBesides(b.inner, move.memory, call);
    }
  }

  lemma StageFrame<T>(b: Blocking<T>, b': Blocking<T>, op: Op, empty: bool, wait: WaitCall)
    requires Added(b, b') && BPullStage(b, op, empty, wait)
    requires b.cons.KPeek? ==> PullOk(b'.inner, PullCall(op, empty))
    ensures BPullStage(b', op, empty, wait)
  {
  }

  /** What the producer does leaves the removal or peek in order. */
  lemma PushBesides<T>(b: Blocking<T>, move: BMove<T>, cl: BClient<T>)
    requires BlockingOk(b) && CanMove(b, move) && (move.Push? || move.Pushing?) && BPullOk(b, cl)
    ensures BPullOk(BStep(b, move), BWatch(cl, b, move))
  {
    PushAdds(b, move);
    if cl.pull.BPull? {
      if b.cons.KPeek? {
        PeekBesides(b, move, PullCall(cl.pull.op, cl.pull.empty));
      }
      StageFrame(b, BStep(b, move), cl.pull.op, cl.pull.empty, cl.pull.wait);
    }
  }

  // Runs

  ghost predicate BClientOk<T>(b: Blocking<T>, cl: BClient<T>, n: nat, m: nat, size: nat) {
    BlockingOk(b) && Grown(b.inner.q, b.inner.p, n, m) && BPushOk(b, cl, size) && BPullOk(b, cl)
  }

  lemma BGrows<T>(b: Blocking<T>, move: BMove<T>, n: nat, m: nat)
    requires BlockingOk(b) && CanMove(b, move) && Grown(b.inner.q, b.inner.p, n, m)
    ensures Grown(BStep(b, move).inner.q, BStep(b, move).inner.p, n, m)
  {
    if move.Pushing? && b.prod.BInner? && !b.inner.p.PIdle? {
      StepGood(b.inner, Produce(move.memory), n, m);
    } else if move.Pulling? && StepsInside(b) {
      StepGood(b.inner, Consume, n, m);
    }
  }

  lemma PushWatched<T>(b: Blocking<T>, move: BMove<T>, cl: BClient<T>, n: nat, m: nat, size: nat)
    requires BClientOk(b, cl, n, m, size) && Promises(n, m, size) && CanMove(b, move) && (move.Push? || move.Pushing?)
    ensures BPushOk(BStep(b, move), BWatch(cl, b, move), size)
  {
    match move
    case Push(x, can) => BPushBegins(b, x, can, cl, size);
    case Pushing(memory) =>
      if b.prod.BSignal? {
        BSignalling(b, memory, cl, size);
      } else if b.inner.p.PIdle? {
        BInserted(b, memory, cl, size);
      } else {
        BInserting(b, memory, cl, n, m, size);
      }
  }

  lemma PullWatched<T>(b: Blocking<T>, move: BMove<T>, cl: BClient<T>)
    requires BlockingOk(b) && BPullOk(b, cl) && CanMove(b, move) && (move.Pull? || move.Pulling?)
    ensures BPullOk(BStep(b, move), BWatch(cl, b, move))
  {
    match move
    case Pull(op, kind) => BPullBegins(b, op, kind, cl);
    case Pulling(timeout) =>
      match b.cons {
        case KSized(_) => BSized(b, timeout, cl);
        case KInner => BRemoving(b, timeout, cl);
        case KPeek(_) => BPeeking(b, timeout, cl);
        case KWait(_, _) =>
          if b.sema.w.WIdle? {
            BWaited(b, timeout, cl);
          } else {
            BWaiting(b, timeout, cl);
          }
      }
  }

  lemma BStepWatched<T>(b: Blocking<T>, move: BMove<T>, cl: BClient<T>, n: nat, m: nat, size: nat)
    requires BClientOk(b, cl, n, m, size) && Promises(n, m, size) && CanMove(b, move)
    ensures BClientOk(BStep(b, move), BWatch(cl, b, move), n, m, size)
  {
    BStepKeeps(b, move);
    BGrows(b, move, n, m);
    if move.Push? || move.Pushing? {
      PushWatched(b, move, cl, n, m, size);
      PushBesides(b, move, cl);
    } else {
      PullWatched(b, move, cl);
      PullBesides(b, move, cl, size);
    }
  }

  lemma {:induction false} BRunWatched<T>(from: Blocking<T>, moves: seq<BMove<T>>, to: Blocking<T>, cl: BClient<T>,
                                          n: nat, m: nat, size: nat)
    requires BClientOk(from, cl, n, m, size) && Promises(n, m, size) && BRun(from, moves, to)
    ensures BClientOk(to, BWatched(cl, from, moves), n, m, size)
    decreases |moves|
  {
    if moves != [] {
      BStepWatched(from, moves[0], cl, n, m, size);
      BRunWatched(BStep(from, moves[0]), moves[1..], to, BWatch(cl, from, moves[0]), n, m, size);
    }
  }

  /** How the latest insertion is answered: after at most 17 steps of its own. If it is true, the element found room or
      allocation was allowed; if it is false, there was no room when the call began, no block has been added, and either
      try_enqueue met at least `size` elements or enqueue no memory. */
  ghost predicate BPushAnswered<T>(b: Blocking<T>, cl: BClient<T>, size: nat) {
    cl.push.PushCall? ==>
      && cl.pushSteps <= 17 && (cl.pushSteps == 17 ==> b.prod.BIdle?)
      && (!cl.push.can || cl.push.room ==> |b.inner.q.blocks| == cl.push.blocks && b.inner.q.largest == cl.push.largest)
      && (b.prod == BIdle(true) ==> cl.push.fits)
      && (b.prod == BIdle(false) ==> !cl.push.room && |b.inner.q.blocks| == cl.push.blocks)
      && (b.prod == BIdle(false) ==> if cl.push.can then cl.push.starved else size <= cl.push.held)
  }

  /** How the latest removal or peek is answered; a try_dequeue, a pop and a peek after at most 18 steps of their own. A
      removal returns an element exactly if it was granted a permit, and always if one was there when it began. A peek that
      began with an element in the queue returns the oldest one. */
  ghost predicate BPullSeen<T>(b: Blocking<T>, pull: BPull) {
    pull.BPull? ==>
      && pull.wait.WaitCall?
      && (pull.wait.kind.Try? || pull.op.Peek? ==> pull.wait.steps <= 18 && (pull.wait.steps == 18 ==> b.cons.KIdle?))
      && (b.cons.KIdle? ==> BPullAnswered(b, pull.op, pull.empty, pull.wait, b.cons.result))
      && (pull.wait.permits > 0 ==> !pull.empty)
  }

  ghost function Fresh<T>(st: State<T>): Blocking<T> {
    Blocking(st, NewSema(0), BIdle(true), KIdle(Nothing), false)
  }

  lemma FreshBlocking<T>(st: State<T>)
    requires Inv(st) && st.p == PIdle(true) && st.c == CIdle(Nothing) && Contents(st.h.l) == []
    ensures BlockingOk(Fresh(st))
  {
  }

  lemma FreshCalls<T>(st: State<T>, size: nat)
    requires st.p == PIdle(true) && st.h.enqueued == [] && st.h.dequeued == []
    ensures BPushOk(Fresh(st), NewBClient(), size) && BPullOk(Fresh(st), NewBClient())
  {
  }

  lemma FreshOk<T>(st: State<T>, n: nat, m: nat, size: nat)
    requires Good(st, n, m) && st.p == PIdle(true) && st.c == CIdle(Nothing)
    requires Contents(st.h.l) == [] && st.h.enqueued == [] && st.h.dequeued == []
    ensures BClientOk(Fresh(st), NewBClient(), n, m, size)
  {
    FreshBlocking(st);
    FreshCalls(st, size);
  }

  lemma InitGood<T>(max: nat, size: nat)
    requires 2 <= max && IsPow2(max) && 0 < size
    ensures Good(Init<T>(max, size), BlockCount(max, size), BlockSize(max, size))
    ensures Promises(BlockCount(max, size), BlockSize(max, size), size) && Contents(Init<T>(max, size).h.l) == []
  {
    InitInv<T>(max, size);
    CountSuffices(max, size);
  }

  lemma NewBlockingOk<T>(max: nat, size: nat)
    requires 2 <= max && IsPow2(max) && 0 < size
    ensures BClientOk(NewBlocking<T>(max, size), NewBClient(), BlockCount(max, size), BlockSize(max, size), size)
    ensures Promises(BlockCount(max, size), BlockSize(max, size), size)
  {
    InitGood<T>(max, size);
    FreshOk(Init<T>(max, size), BlockCount(max, size), BlockSize(max, size), size);
  }

  /** The clients' view of every state that a run from the constructed wrapper reaches. */
  ghost predicate Reached<T>(start: Blocking<T>, moves: seq<BMove<T>>, b: Blocking<T>, size: nat) {
    exists n: nat, m: nat :: BClientOk(b, BWatched(NewBClient(), start, moves), n, m, size)
  }

  lemma RunFrom<T>(start: Blocking<T>, moves: seq<BMove<T>>, b: Blocking<T>, n: nat, m: nat, size: nat)
    requires BClientOk(start, NewBClient(), n, m, size) && Promises(n, m, size) && BRun(start, moves, b)
    ensures Reached(start, moves, b, size)
  {
    BRunWatched(start, moves, b, NewBClient(), n, m, size);
  }

  lemma RunReaches<T>(max: nat, size: nat, moves: seq<BMove<T>>, b: Blocking<T>)
    requires 2 <= max && IsPow2(max) && 0 < size && BRun(NewBlocking(max, size), moves, b)
    ensures Reached(NewBlocking(max, size), moves, b, size)
  {
    NewBlockingOk<T>(max, size);
    RunFrom(NewBlocking(max, size), moves, b, BlockCount(max, size), BlockSize(max, size), size);
  }

  /** The elements and the permits, as the clients see them. */
  ghost predicate Accounts<T>(b: Blocking<T>, cl: BClient<T>) {
    && cl.taken + InHand(b.cons, b.inner.c) + Held(b) == cl.given + Pending(b, cl.push)
    && b.sema.signalled == |cl.given| + (if b.prod.BSignal? && !b.sema.s.SAdd? then 1 else 0)
    && b.sema.taken == |cl.taken| + (if Granting(b.cons, b.sema.w) then 1 else 0)
  }

  lemma Answers<T>(b: Blocking<T>, cl: BClient<T>, n: nat, m: nat, size: nat)
    requires BClientOk(b, cl, n, m, size)
    ensures Accounts(b, cl) && BPushAnswered(b, cl, size) && BPullSeen(b, cl.pull)
  {
  }

  /** For every constructor argument and every interleaving: the results of the removals, the element that a removal has in
      hand and the contents are together the arguments of the insertions that returned true and the element of one that has
      not returned, in order. One permit is signalled for each insertion that succeeds, and one is taken for each removal. The
      latest call of either thread is answered as it should be. */
  lemma EveryBlockingCallAnswers<T>(max: nat, size: nat, moves: seq<BMove<T>>, b: Blocking<T>)
    requires 2 <= max && IsPow2(max) && 0 < size && BRun(NewBlocking(max, size), moves, b)
    ensures var cl := BWatched(NewBClient(), NewBlocking(max, size), moves);
      Accounts(b, cl) && BPushAnswered(b, cl, size) && BPullSeen(b, cl.pull)
  {
    RunReaches(max, size, moves, b);
    var n: nat, m: nat :| BClientOk(b, BWatched(NewBClient(), NewBlocking(max, size), moves), n, m, size);
    Answers(b, BWatched(NewBClient(), NewBlocking(max, size), moves), n, m, size);
  }

  // size_approx

  /** availableApprox is the number of permits, less the one that a registered waiter is going to take. */
  lemma SizeIsPermits(x: Sema)
    requires SemaOk(x)
    ensures SizeOf(x) == if Registered(x) && Permits(x) > 0 then Permits(x) - 1 else Permits(x)
  {
  }

  /** While no removal is in progress, size_approx counts the elements in the queue, but for one whose signal has not been
      made; so it is not 0 while an insertion that returned true is not matched by a removal. */
  lemma SizeAnswers<T>(max: nat, size: nat, moves: seq<BMove<T>>, b: Blocking<T>)
    requires 2 <= max && IsPow2(max) && 0 < size && BRun(NewBlocking(max, size), moves, b) && b.cons.KIdle?
    ensures var cl := BWatched(NewBClient(), NewBlocking(max, size), moves);
      && SizeOf(b.sema) == |Held(b)| - Inserted(b.prod, b.inner.p, b.sema.s)
      && |cl.given| - |cl.taken| <= SizeOf(b.sema) <= |cl.given| - |cl.taken| + |Pending(b, cl.push)|
      && (b.prod.BIdle? ==> SizeOf(b.sema) == |Held(b)| == |cl.given| - |cl.taken|)
  {
    RunReaches(max, size, moves, b);
    var n: nat, m: nat :| BClientOk(b, BWatched(NewBClient(), NewBlocking(max, size), moves), n, m, size);
    SizeFromBooks(b, BWatched(NewBClient(), NewBlocking(max, size), moves), n, m, size);
  }

  lemma SizeFromBooks<T>(b: Blocking<T>, cl: BClient<T>, n: nat, m: nat, size: nat)
    requires BClientOk(b, cl, n, m, size) && b.cons.KIdle?
    ensures SizeOf(b.sema) == |Held(b)| - Inserted(b.prod, b.inner.p, b.sema.s)
    ensures |cl.given| - |cl.taken| <= SizeOf(b.sema) <= |cl.given| - |cl.taken| + |Pending(b, cl.push)|
    ensures b.prod.BIdle? ==> SizeOf(b.sema) == |Held(b)| == |cl.given| - |cl.taken|
  {
    Answers(b, cl, n, m, size);
    SizeIsPermits(b.sema);
  }

  // Calls can go on

  /** A thread that is in no call may begin one. An insertion can always go on, and so can a try_dequeue, a pop, a peek, and a
      wait_dequeue_timed whose timeout passes; a wait_dequeue can go on when there is a permit for it, now or after one step
      of the producer. */
  lemma CanGoOn<T>(b: Blocking<T>, cl: BClient<T>, n: nat, m: nat, size: nat, x: T, can: bool, memory: bool, op: Op, kind: Kind)
    requires BClientOk(b, cl, n, m, size)
    ensures if b.prod.BIdle? then CanMove(b, Push(x, can)) else CanMove(b, Pushing(memory))
    ensures b.cons.KIdle? ==> CanMove(b, Pull(op, kind))
    ensures !b.cons.KIdle? ==>
      && cl.pull.BPull? && cl.pull.wait.WaitCall?
      && (cl.pull.wait.kind.Try? || cl.pull.op.Peek? ==> CanMove(b, Pulling(false)))
      && (cl.pull.wait.kind.Timed? ==> CanMove(b, Pulling(true)))
      && (CanMove(b, Pulling(false)) || Permits(b.sema) == 0 || b.sema.s.SPost? || cl.pull.wait.kind.Timed?)
  {
    if b.cons.KWait? && !b.sema.w.WIdle? {
      WaitCanGoOn(b.sema, cl.pull.wait);
    }
  }
}
