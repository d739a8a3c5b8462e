/** The blocking wrapper: the queue's two step machines combined with the semaphore's.
    A producer call is an inner enqueue followed by signal(); a consumer call waits for a permit
    and then removes an element. */
module BlockingQueue {
  import opened Bits
  import opened SpscQueue
  import opened SpscInvariant
  import opened SpscConsumer
  import opened SpscResults
  import opened SpscCapacity
  import opened Semaphore

  datatype ProducerSide = BIdle(ok: bool) | BInner | BSignal

  /** A peek is preceded by a call of size_approx: KSized and KPeek remember whether its result was non-zero. */
  datatype ConsumerSide<T> = KIdle(result: Outcome<T>) | KWait(op: Op, kind: Kind) | KInner | KSized(sure: bool) | KPeek(sure: bool)

  datatype Blocking<T> = Blocking(inner: State<T>, sema: Sema, prod: ProducerSide, cons: ConsumerSide<T>, fault: bool)

  datatype BMove<T> = Push(x: T, can: bool) | Pushing(memory: bool) | Pull(op: Op, kind: Kind) | Pulling(timeout: bool)

  ghost function NewBlocking<T>(max: nat, size: nat): Blocking<T>
    requires 2 <= max
  {
    Blocking(Init(max, size), NewSema(0), BIdle(true), KIdle(Nothing), false)
  }

  /** availableApprox: the size_approx of the wrapper. */
  function SizeOf(x: Sema): nat {
    if x.count > 0 then x.count else 0
  }

  ghost predicate CanMove<T>(b: Blocking<T>, m: BMove<T>) {
    match m
    case Push(_, _) => b.prod.BIdle? && b.inner.p.PIdle?
    case Pushing(_) => !b.prod.BIdle?
    case Pull(_, _) => b.cons.KIdle? && b.inner.c.CIdle? && b.sema.w.WIdle?
    case Pulling(timeout) =>
      !b.cons.KIdle? && (b.cons.KWait? && !b.sema.w.WIdle? ==> SemaRunnable(b.sema, Waiting(timeout)))
  }

  ghost function PushStep<T>(b: Blocking<T>, memory: bool): Blocking<T>
    requires !b.prod.BIdle?
  {
    if b.prod.BInner? then
      if !b.inner.p.PIdle? then b.(inner := Step(b.inner, Produce(memory)))
      else if !b.inner.p.ok then b.(prod := BIdle(false))
      else b.(prod := BSignal, sema := b.sema.(s := SAdd(1)))
    else if b.sema.s.SIdle? then b.(prod := BIdle(true))
    else b.(sema := SignalStep(b.sema))
  }

  ghost function PullStep<T>(b: Blocking<T>, timeout: bool): Blocking<T>
    requires CanMove(b, Pulling(timeout))
  {
    match b.cons
    case KWait(op, kind) =>
      if !b.sema.w.WIdle? then b.(sema := WaitStep(b.sema, timeout))
      else if b.sema.w.ok then
        if b.inner.c.CIdle? then b.(cons := KInner, inner := Step(b.inner, Call(op))) else b.(fault := true)
      else if kind.Forever? then b.(sema := b.sema.(w := WTry(false, false)))
      else b.(cons := KIdle(Nothing))
    case KInner =>
      if !b.inner.c.CIdle? then b.(inner := Step(b.inner, Consume))
      else b.(cons := KIdle(b.inner.c.result), fault := b.fault || !b.inner.c.result.Removed?)
    case KSized(sure) =>
      if b.inner.c.CIdle? then b.(cons := KPeek(sure), inner := Step(b.inner, Call(Peek))) else b.(fault := true)
    case KPeek(_) =>
      if !b.inner.c.CIdle? then b.(inner := Step(b.inner, Consume)) else b.(cons := KIdle(b.inner.c.result))
  }

  ghost function BStep<T>(b: Blocking<T>, m: BMove<T>): Blocking<T>
    requires CanMove(b, m)
  {
    match m
    case Push(x, can) => b.(prod := BInner, inner := Step(b.inner, Enqueue(x, can)))
    case Pushing(memory) => PushStep(b, memory)
    case Pull(op, kind) =>
      if op.Peek? then b.(cons := KSized(SizeOf(b.sema) != 0))
      else b.(cons := KWait(op, kind), sema := b.sema.(w := WTry(kind.Try?, kind.Timed?)))
    case Pulling(timeout) => PullStep(b, timeout)
  }

  ghost predicate BRun<T>(from: Blocking<T>, moves: seq<BMove<T>>, to: Blocking<T>)
    decreases |moves|
  {
    if moves == [] then from == to
    else CanMove(from, moves[0]) && BRun(BStep(from, moves[0]), moves[1..], to)
  }

  // Permits against elements

  /** The element is in, and its permit is not yet. */
  ghost function Inserted<T>(prod: ProducerSide, p: Producer<T>, s: Signaller): nat {
    if (prod.BInner? && p == PIdle(true)) || (prod.BSignal? && s.SAdd?) then 1 else 0
  }

  /** The permit is taken, and its element is not yet. */
  ghost function Owed<T>(cons: ConsumerSide<T>, c: Consumer<T>, w: Waiter): nat {
    if (cons.KWait? && w == WIdle(true)) || (cons.KInner? && !c.CIdle?) then 1 else 0
  }

  /** Every element in the queue has a permit, but for those that a call is about to signal or to remove. */
  ghost predicate Books<T>(b: Blocking<T>) {
    |Contents(b.inner.h.l)|
    == Permits(b.sema) + Inserted(b.prod, b.inner.p, b.sema.s) + Owed(b.cons, b.inner.c, b.sema.w)
  }

  ghost predicate PushSide<T>(prod: ProducerSide, p: Producer<T>, s: Signaller) {
    && (prod.BIdle? ==> p.PIdle? && s.SIdle?)
    && (prod.BInner? ==> s.SIdle?)
    && (prod.BSignal? ==> p.PIdle?)
    && (s.SAdd? ==> s.n == 1)
  }

  ghost predicate PullSide<T>(cons: ConsumerSide<T>, c: Consumer<T>, wasEmpty: bool, x: Sema) {
    && (!cons.KWait? ==> x.w.WIdle?)
    && (cons.KIdle? || cons.KWait? || cons.KSized? ==> c.CIdle?)
    && (cons.KWait? ==> !cons.op.Peek?)
    && (cons.KInner? && !c.CIdle? ==> !c.op.Peek? && !wasEmpty)
    && (cons.KInner? && c.CIdle? ==> c.result.Removed?)
    && (cons.KPeek? && !c.CIdle? ==> c.op.Peek?)
    && ((cons.KSized? || cons.KPeek?) && cons.sure ==> Permits(x) >= 1)
    && (cons.KPeek? && cons.sure && !c.CIdle? ==> !wasEmpty)
    && (cons.KPeek? && cons.sure && c.CIdle? ==> c.result.Seen?)
  }

  ghost predicate BlockingOk<T>(b: Blocking<T>) {
    && !b.fault && Inv(b.inner) && SemaOk(b.sema) && b.sema.initial == 0
    && PushSide(b.prod, b.inner.p, b.sema.s)
    && PullSide(b.cons, b.inner.c, b.inner.h.wasEmpty, b.sema)
    && Books(b)
  }

  // The inner queue's steps, as far as the books are concerned

  ghost predicate InnerStepped<T>(st: State<T>, st': State<T>) {
    && Inv(st')
    && st'.h.wasEmpty == (st.h.wasEmpty || Contents(st'.h.l) == [])
  }

  lemma InnerProduce<T>(st: State<T>, memory: bool, st': State<T>)
    requires Inv(st) && !st.p.PIdle? && st' == Step(st, Produce(memory))
    ensures InnerStepped(st, st') && st'.c == st.c
    ensures |Contents(st'.h.l)| == |Contents(st.h.l)| + if st'.p == PIdle(true) then 1 else 0
  {
    ProduceRefines(st, memory);
  }

  lemma InnerConsume<T>(st: State<T>, st': State<T>)
    requires Inv(st) && !st.c.CIdle? && st' == Step(st, Consume)
    ensures InnerStepped(st, st') && st'.p == st.p
    ensures |Contents(st.h.l)| == |Contents(st'.h.l)| + if st'.c.CIdle? && st'.c.result.Removed? then 1 else 0
    ensures !st'.c.CIdle? ==> st'.c.op == st.c.op
    ensures st'.c == CIdle(Nothing) ==> st'.h.wasEmpty
    ensures st'.c.CIdle? && st'.c.result.Seen? ==> st.c.op.Peek?
    ensures st'.c.CIdle? && st'.c.result.Removed? ==> !st.c.op.Peek?
  {
    ConsumeRefines(st);
    ConsumeReturns(st);
  }

  lemma InnerBegin<T>(st: State<T>, move: Move<T>, st': State<T>)
    requires Inv(st) && Runnable(st, move) && (move.Enqueue? || move.Call?) && st' == Step(st, move)
    ensures Inv(st') && Contents(st'.h.l) == Contents(st.h.l)
    ensures move.Enqueue? ==> st'.h.wasEmpty == st.h.wasEmpty
    ensures move.Call? ==> st'.h.wasEmpty == (Contents(st.h.l) == [])
  {
    StepGood(st, move, 0, 0);
  }

  lemma PushKeeps<T>(b: Blocking<T>, x: T, can: bool)
    requires BlockingOk(b) && CanMove(b, Push(x, can))
    ensures BlockingOk(BStep(b, Push(x, can)))
  {
    InnerBegin(b.inner, Enqueue(x, can), Step(b.inner, Enqueue(x, can)));
  }

  lemma InsertingKeeps<T>(b: Blocking<T>, memory: bool)
    requires BlockingOk(b) && b.prod.BInner?
    ensures BlockingOk(PushStep(b, memory))
  {
    if !b.inner.p.PIdle? {
      InnerProduce(b.inner, memory, Step(b.inner, Produce(memory)));
    }
  }

  lemma SignallingKeeps<T>(b: Blocking<T>, memory: bool)
    requires BlockingOk(b) && b.prod.BSignal?
    ensures BlockingOk(PushStep(b, memory))
  {
    if b.sema.s.SAdd? {
      SignalKeeps(b.sema);
    }
  }

  lemma PullKeeps<T>(b: Blocking<T>, op: Op, kind: Kind)
    requires BlockingOk(b) && CanMove(b, Pull(op, kind))
    ensures BlockingOk(BStep(b, Pull(op, kind)))
  {
    SemaStepKeeps(b.sema, if kind.Try? then TryWait else Wait(kind.Timed?));
  }

  lemma WaitingKeeps<T>(b: Blocking<T>, timeout: bool)
    requires BlockingOk(b) && CanMove(b, Pulling(timeout)) && b.cons.KWait? && !b.sema.w.WIdle?
    ensures BlockingOk(PullStep(b, timeout))
  {
    SemaStepKeeps(b.sema, Waiting(timeout));
    WaitReturns(b.sema, timeout);
  }

  lemma WaitedKeeps<T>(b: Blocking<T>, timeout: bool)
    requires BlockingOk(b) && CanMove(b, Pulling(timeout)) && b.cons.KWait? && b.sema.w.WIdle?
    ensures BlockingOk(PullStep(b, timeout))
  {
    if b.sema.w.ok {
      InnerBegin(b.inner, Call(b.cons.op), Step(b.inner, Call(b.cons.op)));
    }
  }

  lemma SizedKeeps<T>(b: Blocking<T>, timeout: bool)
    requires BlockingOk(b) && b.cons.KSized?
    ensures BlockingOk(PullStep(b, timeout))
  {
    InnerBegin(b.inner, Call(Peek), Step(b.inner, Call(Peek)));
  }

  lemma RemovingKeeps<T>(b: Blocking<T>, timeout: bool)
    requires BlockingOk(b) && CanMove(b, Pulling(timeout)) && !b.cons.KWait? && !b.cons.KSized?
    ensures BlockingOk(PullStep(b, timeout))
  {
    if !b.inner.c.CIdle? {
      InnerConsume(b.inner, Step(b.inner, Consume));
    }
  }

  lemma BStepKeeps<T>(b: Blocking<T>, m: BMove<T>)
    requires BlockingOk(b) && CanMove(b, m)
    ensures BlockingOk(BStep(b, m))
  {
    match m
    case Push(x, can) => PushKeeps(b, x, can);
    case Pushing(memory) =>
      if b.prod.BInner? {
        InsertingKeeps(b, memory);
      } else {
        SignallingKeeps(b, memory);
      }
    case Pull(op, kind) => PullKeeps(b, op, kind);
    case Pulling(timeout) =>
      if b.cons.KSized? {
        SizedKeeps(b, timeout);
      } else if !b.cons.KWait? {
        RemovingKeeps(b, timeout);
      } else if b.sema.w.WIdle? {
        WaitedKeeps(b, timeout);
      } else {
        WaitingKeeps(b, timeout);
      }
  }

  lemma {:induction false} BRunKeeps<T>(from: Blocking<T>, moves: seq<BMove<T>>, to: Blocking<T>)
    requires BlockingOk(from) && BRun(from, moves, to)
    ensures BlockingOk(to)
    decreases |moves|
  {
    if moves != [] {
      BStepKeeps(from, moves[0]);
      BRunKeeps(BStep(from, moves[0]), moves[1..], to);
    }
  }

  /** For every interleaving: the permits never exceed the elements, a removal for which a permit was granted always
      succeeds, and a peek that was preceded by a non-zero size_approx never returns null. */
  lemma PermitsCoverElements<T>(max: nat, size: nat, moves: seq<BMove<T>>, b: Blocking<T>)
    requires 2 <= max && IsPow2(max) && 0 < size
    requires BRun(NewBlocking(max, size), moves, b)
    ensures !b.fault && !b.inner.fault
    ensures 0 <= Permits(b.sema) <= |Contents(b.inner.h.l)| && SizeOf(b.sema) <= |Contents(b.inner.h.l)|
    ensures b.cons.KInner? && b.inner.c.CIdle? ==> b.inner.c.result.Removed?
    ensures b.cons.KPeek? && b.cons.sure && b.inner.c.CIdle? ==> b.inner.c.result.Seen?
    ensures b.prod.BIdle? && b.cons.KIdle? ==> b.sema.count == |Contents(b.inner.h.l)|
  {
    InitInv<T>(max, size);
    BRunKeeps(NewBlocking(max, size), moves, b);
  }
}
