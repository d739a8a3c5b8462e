/** The queue refines a sequence: what its operations do to the elements it holds, what a
    refusal means, and that no internal assertion fails, for every interleaving. */
module SpscResults {
  import opened Bits
  import opened SpscQueue
  import opened SpscBlocks
  import opened SpscInvariant
  import opened SpscProducer
  import opened SpscConsumer

  // The contents, block by block

  lemma {:induction false} UptoExt<T>(ring: seq<nat>, items: seq<seq<T>>, ring': seq<nat>, items': seq<seq<T>>, n: nat)
    requires forall k: nat :: k < n ==> Slot(ring, items, k) == Slot(ring', items', k)
    ensures Upto(ring, items, n) == Upto(ring', items', n)
  {
    if n > 0 {
      UptoExt(ring, items, ring', items', n - 1);
    }
  }

  /** The first block may be split off. */
  lemma {:induction false} UptoFirst<T>(ring: seq<nat>, items: seq<seq<T>>, ring': seq<nat>, items': seq<seq<T>>, n: nat)
    requires forall k: nat :: k < n ==> Slot(ring', items', k) == Slot(ring, items, k + 1)
    ensures Upto(ring, items, n + 1) == Slot(ring, items, 0) + Upto(ring', items', n)
  {
    if n > 0 {
      UptoFirst(ring, items, ring', items', n - 1);
    }
  }

  lemma {:induction false} UptoAtLeast<T>(ring: seq<nat>, items: seq<seq<T>>, n: nat, k: nat)
    requires k < n
    ensures |Upto(ring, items, n)| >= |Slot(ring, items, k)|
  {
    if k < n - 1 {
      UptoAtLeast(ring, items, n - 1, k);
    }
  }

  /** Changing what position k holds leaves the other positions alone. */
  lemma OtherSlots<T>(q: Queue<T>, l: Layout<T>, k: nat, items: seq<T>)
    requires RingOk(q, l) && k < |l.ring| && l.ring[k] < |l.items|
    ensures forall j: nat :: j != k ==> Slot(l.ring, l.items, j) == Slot(l.ring, l.items[l.ring[k] := items], j)
  {
    forall j: nat | j != k
      ensures Slot(l.ring, l.items, j) == Slot(l.ring, l.items[l.ring[k] := items], j)
    {
      assert Apart(l.ring, j, k) && Apart(l.ring, k, j);
    }
  }

  predicate Appends<T>(p: Producer<T>) {
    p.PStoreTail? || p.PPublish?
  }

  /** The producer's steps append the new element at the store that publishes it, and change nothing otherwise. */
  lemma ProducerContents<T>(q: Queue<T>, l: Layout<T>, p: Producer<T>, c: Consumer<T>)
    requires Core(q, l, p, c)
    ensures Contents(ProducerLayout(l, p)) == if Appends(p) then Contents(l) + [p.x] else Contents(l)
  {
    var l' := ProducerLayout(l, p);
    match p
    case PStoreTail(x, tb, _) =>
      OtherSlots(q, l, l.ti, l.items[tb] + [x]);
      UptoExt(l.ring, l.items, l'.ring, l'.items, l.ti);
    case PNextStoreTail(x, tn, _) =>
      OtherSlots(q, l, l.ti + 1, [x]);
      UptoExt(l.ring, l.items, l'.ring, l'.items, l.ti + 1);
    case PLink(x, _, _) =>
      forall k: nat | k < l.ti + 1
        ensures Slot(l.ring, l.items, k) == Slot(l'.ring, l'.items, k)
      {
        assert Linked(q, l.ring, k);
      }
      UptoExt(l.ring, l.items, l'.ring, l'.items, l.ti + 1);
    case PPublish(x, _) =>
      assert FillOk(q, l, p, l.ti + 1);
    case _ =>
  }

  /** The consumer's steps remove the oldest element at the store that releases its slot, and change nothing otherwise. */
  lemma ConsumerContents<T>(q: Queue<T>, l: Layout<T>, p: Producer<T>, c: Consumer<T>)
    requires Core(q, l, p, c)
    ensures c.CStoreFront? ==> Contents(l) == [c.v] + Contents(ConsumerLayout(l, c))
    ensures !c.CStoreFront? ==> Contents(l) == Contents(ConsumerLayout(l, c))
  {
    var l' := ConsumerLayout(l, c);
    match c
    case CStoreFront(_, fb, _, v) =>
      OtherSlots(q, l, 0, l.items[fb][1..]);
      UptoFirst(l.ring, l.items, l.ring[1..], l.items, l.ti);
      UptoFirst(l.ring, l'.items, l.ring[1..], l.items, l.ti);
      assert l.items[fb] == [v] + l'.items[fb];
    case CAdvance(_, nb, _) =>
      UptoFirst(l.ring, l.items, l'.ring, l'.items, l.ti);
    case _ =>
  }

  /** The head of the contents is the head of the front block, unless that block is empty. */
  lemma FrontHead<T>(q: Queue<T>, l: Layout<T>)
    requires RingOk(q, l)
    ensures l.items[q.frontBlock] != [] ==> Contents(l) != [] && Contents(l)[0] == l.items[q.frontBlock][0]
    ensures l.items[q.frontBlock] == [] && l.ti == 0 ==> Contents(l) == []
  {
    UptoFirst(l.ring, l.items, l.ring[1..], l.items, l.ti);
  }

  lemma NextHead<T>(q: Queue<T>, l: Layout<T>, nb: nat)
    requires RingOk(q, l) && Leaving(q, l, nb) && l.items[nb] != []
    ensures Contents(l) != [] && Contents(l)[0] == l.items[nb][0]
  {
    UptoFirst(l.ring, l.items, l.ring[1..], l.items, l.ti);
    UptoFirst(l.ring[1..], l.items, l.ring[1..][1..], l.items, l.ti - 1);
  }

  // The invariant of a whole state

  /** What the current calls have seen: the producer, that the tail block was full; the consumer,
      that nothing was there or that another block follows. */
  ghost predicate Witnessed<T>(q: Queue<T>, p: Producer<T>, c: Consumer<T>, h: History<T>)
    requires RingOk(q, h.l) && ProducerOk(q, h.l, p)
  {
    && (p.PNext? || p.PFrontBlock? ==> h.most + 1 >= q.blocks[p.tb].size)
    && (c.CTailBlock? ==> 0 < h.l.ti || h.wasEmpty)
    && (c == CIdle(Nothing) ==> h.wasEmpty)
  }

  ghost predicate Inv<T>(st: State<T>) {
    && !st.fault
    && Core(st.q, st.h.l, st.p, st.c)
    && st.h.dequeued + Contents(st.h.l) == st.h.enqueued
    && Witnessed(st.q, st.p, st.c, st.h)
  }

  lemma FrontSees<T>(q: Queue<T>, l: Layout<T>, p: Producer<T>, c: Consumer<T>)
    requires Core(q, l, p, c) && p.PFront? && ProducerSound(q, p) && ProducerStep(q, p, true).1.PNext?
    ensures |Contents(l)| + 1 >= q.blocks[p.tb].size
  {
    assert BlockAt(q, l, p, c, p.tb);
    NextIs(q.blocks[p.tb].size, p.bt);
    NoRoomIsFull(q.blocks[p.tb], |l.items[p.tb]|);
    UptoAtLeast(l.ring, l.items, l.ti + 1, l.ti);
  }

  lemma TailSees<T>(q: Queue<T>, l: Layout<T>, p: Producer<T>, c: Consumer<T>)
    requires Core(q, l, p, c) && c.CTail? && ConsumerSound(q, c) && ConsumerStep(q, c).1.CTailBlock?
    ensures 0 < l.ti || Contents(l) == []
  {
    assert BlockAt(q, l, p, c, c.fb);
    EmptyIffMet(q.blocks[c.fb], |l.items[c.fb]|);
    FrontHead(q, l);
  }

  lemma ProducerWitnessed<T>(q: Queue<T>, p: Producer<T>, c: Consumer<T>, h: History<T>, memory: bool)
    requires Core(q, h.l, p, c) && Witnessed(q, p, c, h)
    requires ProducerSound(q, p) && ProducerCore(q, h.l, p, c, memory)
    ensures var r := ProducerStep(q, p, memory); Witnessed(r.0, r.1, c, Observe(ProducerNotes(h, p)))
  {
    if p.PFront? && ProducerStep(q, p, memory).1.PNext? {
      FrontSees(q, h.l, p, c);
    }
  }

  lemma ConsumerWitnessed<T>(q: Queue<T>, p: Producer<T>, c: Consumer<T>, h: History<T>)
    requires Core(q, h.l, p, c) && Witnessed(q, p, c, h)
    requires ConsumerSound(q, c) && ConsumerCore(q, h.l, p, c)
    ensures var r := ConsumerStep(q, c); Witnessed(r.0, p, r.1, Observe(ConsumerNotes(h, c)))
  {
    if c.CTail? && ConsumerStep(q, c).1.CTailBlock? {
      TailSees(q, h.l, p, c);
    } else if c.CTailBlock? {
      assert Apart(h.l.ring, 0, h.l.ti);
    }
  }

  lemma ProduceKeeps<T>(st: State<T>, memory: bool)
    requires Inv(st) && !st.p.PIdle?
    ensures ProducerSound(st.q, st.p) && Inv(Step(st, Produce(memory)))
  {
    ProducerKeeps(st.q, st.h.l, st.p, st.c, memory);
    ProducerContents(st.q, st.h.l, st.p, st.c);
    ProducerWitnessed(st.q, st.p, st.c, st.h, memory);
  }

  /** Produce: an enqueue that succeeds appends its argument, at one instant; nothing else changes the contents. */
  lemma ProduceRefines<T>(st: State<T>, memory: bool)
    requires Inv(st) && !st.p.PIdle?
    ensures var st' := Step(st, Produce(memory));
      && Inv(st') && st'.c == st.c
      && Contents(st'.h.l) == (if Appends(st.p) then Contents(st.h.l) + [st.p.x] else Contents(st.h.l))
      && st'.h.enqueued == (if Appends(st.p) then st.h.enqueued + [st.p.x] else st.h.enqueued)
      && st'.h.dequeued == st.h.dequeued
      && (Appends(st.p) <==> st'.p == PIdle(true))
  {
    ProduceKeeps(st, memory);
    ProducerContents(st.q, st.h.l, st.p, st.c);
  }

  /** Consume: a removal takes the oldest element, at one instant; nothing else changes the contents. */
  lemma ConsumeRefines<T>(st: State<T>)
    requires Inv(st) && !st.c.CIdle?
    ensures var st' := Step(st, Consume);
      && Inv(st') && st'.p == st.p
      && (st.c.CStoreFront? ==> Contents(st.h.l) == [st.c.v] + Contents(st'.h.l) && st'.c == CIdle(Removed(st.c.v)))
      && (!st.c.CStoreFront? ==> Contents(st.h.l) == Contents(st'.h.l) && !(st'.c.CIdle? && st'.c.result.Removed?))
      && st'.h.dequeued == (if st.c.CStoreFront? then st.h.dequeued + [st.c.v] else st.h.dequeued)
      && st'.h.enqueued == st.h.enqueued
  {
    ConsumerKeeps(st.q, st.h.l, st.p, st.c);
    ConsumerContents(st.q, st.h.l, st.p, st.c);
    ConsumerWitnessed(st.q, st.p, st.c, st.h);
  }

  /** peek points at the oldest element, and a call returns nothing only if the queue was empty
      at some instant of that call. */
  lemma ConsumeReturns<T>(st: State<T>)
    requires Inv(st) && !st.c.CIdle?
    ensures var st' := Step(st, Consume);
      && (st'.c.CIdle? && st'.c.result.Seen? ==>
            Contents(st'.h.l) != [] && st'.c.result.value == Contents(st'.h.l)[0])
      && (st'.c == CIdle(Nothing) ==> st'.h.wasEmpty)
  {
    ConsumeRefines(st);
    PeekSees(st.q, st.h.l, st.p, st.c);
  }

  lemma PeekSees<T>(q: Queue<T>, l: Layout<T>, p: Producer<T>, c: Consumer<T>)
    requires Core(q, l, p, c) && ConsumerSound(q, c)
    ensures var c' := ConsumerStep(q, c).1;
      c'.CIdle? && c'.result.Seen? ==> Contents(l) != [] && c'.result.value == Contents(l)[0]
  {
    var c' := ConsumerStep(q, c).1;
    if c'.CIdle? && c'.result.Seen? {
      if c.CTake? {
        FrontHead(q, l);
        FrontHolds(q, l, p, c);
      } else {
        NextHolds(q, l, p, c, c.nb);
        NextHead(q, l, c.nb);
        assert BlockAt(q, l, p, c, c.nb);
        Present(q.blocks[c.nb], l.items[c.nb], AtTail(p, c.nb));
      }
    }
  }
}
