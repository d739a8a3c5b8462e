/** The queue object as a single thread sees it: every operation runs its steps to the end, and acts
    on the sequence that the object represents. */
module ReaderWriterQueues {
  import opened Bits
  import opened SpscQueue
  import opened SpscBlocks
  import opened SpscInvariant
  import opened SpscProducer
  import opened SpscConsumer
  import opened SpscResults
  import opened SpscCapacity
  import opened SpscCalls

  class ReaderWriterQueue<T> {
    var q: Queue<T>
    /** The number of elements for which the constructor reserved room, and the reserved blocks. */
    ghost const promised: nat
    ghost const count: nat
    ghost const least: nat
    /** Where the elements are. */
    ghost var l: Layout<T>

    ghost predicate Valid()
      reads this
    {
      && Core(q, l, PIdle(true), CIdle(Nothing))
      && Grown(q, PIdle(true), count, least) && Promises(count, least, promised)
    }

    /** The elements, oldest first. */
    ghost function Elements(): seq<T>
      reads this
    {
      Contents(l)
    }

    constructor (max: nat, size: nat)
      requires 2 <= max && IsPow2(max) && 0 < size
      ensures Valid() && Elements() == [] && promised == size
    {
      var initial := NewQueue<T>(max, size);
      q := initial;
      promised, count, least := size, BlockCount(max, size), BlockSize(max, size);
      l := FirstLayout(BlockCount(max, size));
      CountSuffices(max, size);
      CircleOk<T>(max, BlockSize(max, size), BlockCount(max, size));
      InitInv<T>(max, size);
    }

    /** try_dequeue, pop and peek. They find nothing exactly if there is nothing. */
    method Take(op: Op) returns (result: Outcome<T>)
      requires Valid()
      modifies this
      ensures Valid()
      ensures result.Nothing? <==> old(Elements()) == []
      ensures result.Removed? ==> !op.Peek? && old(Elements()) == [result.value] + Elements()
      ensures result.Seen? ==> op.Peek? && Elements() == old(Elements()) && result.value == Elements()[0]
      ensures result.Nothing? ==> Elements() == []
    {
      ghost var held := Contents(l);
      var c: Consumer<T> := CFrontBlock(op);
      ghost var st := Alone(q, l, PIdle(true), c);
      Starts(q, l, PIdle(true), c);
      while !c.CIdle?
        invariant Inv(st) && st.q == q && st.p == PIdle(true) && st.c == c && l == st.h.l
        invariant !c.CIdle? ==> Contents(l) == held && (st.h.wasEmpty <==> held == []) && c.op == op
        invariant c.CIdle? && c.result.Nothing? ==> held == [] == Contents(l)
        invariant c.CIdle? && c.result.Removed? ==> !op.Peek? && held == [c.result.value] + Contents(l)
        invariant c.CIdle? && c.result.Seen? ==> op.Peek? && held == Contents(l) != [] && c.result.value == held[0]
        invariant Grown(q, PIdle(true), count, least)
        decreases ConsumerRank(c)
      {
        ConsumeRefines(st);
        ConsumeReturns(st);
        Tracks(st);
        ConsumerAdvances(q, c);
        ConsumerGrows(q, PIdle(true), c, count, least);
        st := Step(st, Consume);
        var r := ConsumerStep(q, c);
        q, c, l := r.0, r.1, st.h.l;
      }
      Ends(st);
      result := c.result;
    }

    /** enqueue (can) and try_enqueue. The element is appended if there is room, or if a block may be allocated and there
        is memory for it; otherwise the queue is left as it is, which try_enqueue does only with the promised number of
        elements inside. A block is added exactly if there is no room, and never by try_enqueue. */
    method Insert(x: T, can: bool, memory: bool) returns (ok: bool)
      requires Valid()
      modifies this
      ensures Valid()
      ensures ok <==> old(HasRoom(q, l)) || (can && memory)
      ensures Elements() == if ok then old(Elements()) + [x] else old(Elements())
      ensures !ok && !can ==> |Elements()| >= promised
      ensures |q.blocks| == old(|q.blocks|) + if ok && !old(HasRoom(q, l)) then 1 else 0
      ensures !can || !ok || old(HasRoom(q, l)) ==> q.largest == old(q.largest)
    {
      var r: Queue<T>;
      r, l, ok := InnerEnqueue(q, l, x, can, memory, count, least, promised);
      q := r;
    }
  }

  /** A state of the step machines in which this call is the only activity. */
  ghost function Alone<T>(q: Queue<T>, l: Layout<T>, p: Producer<T>, c: Consumer<T>): State<T> {
    var held := Contents(l);
    State(q, p, c, History(l, held, [], held == [], |held|), false)
  }

  lemma Starts<T>(q: Queue<T>, l: Layout<T>, p: Producer<T>, c: Consumer<T>)
    requires Core(q, l, PIdle(true), CIdle(Nothing))
    requires (p == PIdle(true) && c.CFrontBlock?) || (p.PTailBlock? && c == CIdle(Seen(p.x)))
    ensures Inv(Alone(q, l, p, c))
  {
    if c.CIdle? {
      Begins(q, l, PIdle(true), CIdle(Nothing), p, CIdle(Nothing));
      Returned(q, l, p, CIdle(Nothing), p, c);
    } else {
      Begins(q, l, PIdle(true), CIdle(Nothing), p, c);
    }
  }

  lemma Ends<T>(st: State<T>)
    requires Inv(st) && st.p.PIdle? && st.c.CIdle?
    ensures Core(st.q, st.h.l, PIdle(true), CIdle(Nothing))
  {
    Returned(st.q, st.h.l, st.p, st.c, PIdle(true), CIdle(Nothing));
  }

  /** The steps of inner_enqueue, one after the other. */
  method InnerEnqueue<T>(q0: Queue<T>, ghost l0: Layout<T>, x: T, can: bool, memory: bool, ghost n: nat, ghost m: nat, ghost size: nat)
    returns (q: Queue<T>, ghost l: Layout<T>, ok: bool)
    requires Core(q0, l0, PIdle(true), CIdle(Nothing)) && Grown(q0, PIdle(true), n, m) && Promises(n, m, size)
    ensures Core(q, l, PIdle(true), CIdle(Nothing)) && Grown(q, PIdle(true), n, m)
    ensures Answered(q0, l0, q, l, x, can, memory, size, ok)
  {
    var p: Producer<T> := PTailBlock(x, can);
    q, l := q0, l0;
    ghost var st := Alone(q, l, p, CIdle(Seen(x)));
    ghost var first, call := st, PushBegun(st, x, can);
    Starts(q, l, p, CIdle(Seen(x)));
    while !p.PIdle?
      invariant st.q == q && st.p == p && st.c == CIdle(Seen(x)) && l == st.h.l && Grown(q, p, n, m)
      invariant Inserting(first, st, call, x, can, memory, size)
      decreases ProducerRank(p)
    {
      call, st := InsertStep(first, st, call, x, can, memory, n, m, size);
      var r := ProducerStep(q, p, memory);
      q, p, l := r.0, r.1, st.h.l;
    }
    Ends(st);
    InsertAnswers(first, st, call, x, can, memory, size);
    ok := p.ok;
  }

  /** What an insertion does that is the only activity. */
  ghost predicate Answered<T>(q0: Queue<T>, l0: Layout<T>, q: Queue<T>, l: Layout<T>, x: T, can: bool, memory: bool, size: nat, ok: bool) {
    var held, room := Contents(l0), HasRoom(q0, l0);
    && (ok <==> room || (can && memory))
    && Contents(l) == (if ok then held + [x] else held)
    && (!ok && !can ==> |held| >= size)
    && |q.blocks| == |q0.blocks| + (if ok && !room then 1 else 0)
    && (!can || !ok || room ==> q.largest == q0.largest)
  }

  /** What a call of inner_enqueue keeps that began in the state `first` and is the only activity. */
  ghost predicate Inserting<T>(first: State<T>, st: State<T>, call: PushCall<T>, x: T, can: bool, memory: bool, size: nat) {
    var held, room, n := Contents(first.h.l), HasRoom(first.q, first.h.l), |first.q.blocks|;
    && Inv(st) && PushOk(st, call, size)
    && call.PushCall? && call == PushCall(x, can, |held|, room, n, first.q.largest, call.starved, call.fits) && (call.starved ==> !memory)
    && Contents(st.h.l) == (if st.p == PIdle(true) then held + [x] else held)
    && (!room ==> NoRoomAlone(st.q, st.h.l, st.p, n, memory))
  }

  lemma InsertAnswers<T>(first: State<T>, st: State<T>, call: PushCall<T>, x: T, can: bool, memory: bool, size: nat)
    requires Inserting(first, st, call, x, can, memory, size) && st.p.PIdle?
    ensures Answered(first.q, first.h.l, st.q, st.h.l, x, can, memory, size, st.p.ok)
  {
  }

  lemma InsertStep<T>(first: State<T>, st: State<T>, call: PushCall<T>, x: T, can: bool, memory: bool, n: nat, m: nat, size: nat)
    returns (call': PushCall<T>, st': State<T>)
    requires Inserting(first, st, call, x, can, memory, size) && !st.p.PIdle? && Grown(st.q, st.p, n, m) && Promises(n, m, size)
    ensures ProducerSound(st.q, st.p) && (st'.q, st'.p) == ProducerStep(st.q, st.p, memory) && st'.c == st.c
    ensures Inserting(first, st', call', x, can, memory, size) && Grown(st'.q, st'.p, n, m)
    ensures ProducerRank(st'.p) < ProducerRank(st.p)
  {
    ProduceRefines(st, memory);
    ProduceCall(st, memory, call, n, m, size);
    KeepsArgument(st, memory, x, can);
    if !HasRoom(first.q, first.h.l) {
      NoRoomStays(st, memory, |first.q.blocks|);
    }
    ProducerGrows(st.q, st.p, memory, n, m);
    ProducerAdvances(st.q, st.p, memory);
    st' := Step(st, Produce(memory));
    call' := PushGoesOn(call, st, memory, st');
  }

  /** The results of calls that have returned play no role. */
  lemma Returned<T>(q: Queue<T>, l: Layout<T>, p: Producer<T>, c: Consumer<T>, p': Producer<T>, c': Consumer<T>)
    requires Core(q, l, p, c) && c.CIdle? && c'.CIdle? && (p' == p || (p.PIdle? && p'.PIdle?))
    ensures Core(q, l, p', c')
  {
    forall k: nat
      ensures FillOk(q, l, p', k)
    {
      assert FillOk(q, l, p, k);
    }
    forall id: nat
      ensures BlockAt(q, l, p', c', id)
    {
      assert BlockAt(q, l, p, c, id);
    }
  }

  /** A consumer step keeps to its operation, and observes the emptiness of the queue. */
  lemma Tracks<T>(st: State<T>)
    requires Inv(st) && !st.c.CIdle?
    ensures ConsumerSound(st.q, st.c)
    ensures var st' := Step(st, Consume);
      && (!st'.c.CIdle? ==> st'.c.op == st.c.op)
      && (st'.c.CIdle? && st'.c.result.Seen? ==> st.c.op.Peek?)
      && (st'.c.CIdle? && st'.c.result.Removed? ==> !st.c.op.Peek?)
      && st'.h.wasEmpty == (st.h.wasEmpty || Contents(st'.h.l) == [])
  {
    ConsumeRefines(st);
  }

  /** Without room when it began, and with nobody else at work, an insertion can only go the way of the new block. */
  ghost predicate NoRoomAlone<T>(q: Queue<T>, l: Layout<T>, p: Producer<T>, blocks: nat, memory: bool) {
    match p
    case PIdle(ok) => ok ==> memory && |q.blocks| == blocks + 1
    case PPublish(_, _) => memory && |q.blocks| == blocks + 1
    case PNewNext(_, _, _) => memory && |q.blocks| == blocks
    case PLink(_, _, _) => memory && |q.blocks| == blocks
    case _ => (p.PTailBlock? || p.PLocalFront? || p.PTail? || p.PFront? || p.PNext? || p.PFrontBlock? || p.PAlloc?)
              && !HasRoom(q, l) && |q.blocks| == blocks
  }

  lemma NoRoomStays<T>(st: State<T>, memory: bool, blocks: nat)
    requires Inv(st) && !st.p.PIdle? && NoRoomAlone(st.q, st.h.l, st.p, blocks, memory)
    ensures var st' := Step(st, Produce(memory)); NoRoomAlone(st'.q, st'.h.l, st'.p, blocks, memory)
  {
    ProduceRefines(st, memory);
    BlocksAdded(st, memory);
    if st.p.PTail? || st.p.PFront? {
      NoRoomSeen(st, memory);
    } else if st.p.PFrontBlock? {
      assert Linked(st.q, st.h.l.ring, st.h.l.ti) && Linked(st.q, st.h.l.ring, 0);
    }
  }

  lemma NoRoomSeen<T>(st: State<T>, memory: bool)
    requires Inv(st) && (st.p.PTail? || st.p.PFront?) && !HasRoom(st.q, st.h.l)
    ensures var st' := Step(st, Produce(memory)); (st'.p.PFront? || st'.p.PNext?) && !HasRoom(st'.q, st'.h.l)
  {
    ProduceRefines(st, memory);
    assert BlockAt(st.q, st.h.l, st.p, st.c, st.p.tb);
    NextIs(st.q.blocks[st.p.tb].size, st.q.blocks[st.p.tb].tail);
  }
}
