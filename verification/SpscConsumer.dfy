/** Every step of try_dequeue, pop and peek keeps the queue's invariant. */
module SpscConsumer {
  import opened Arithmetic
  import opened Bits
  import opened SpscQueue
  import opened SpscBlocks
  import opened SpscInvariant

  ghost predicate ConsumerCore<T>(q: Queue<T>, l: Layout<T>, p: Producer<T>, c: Consumer<T>)
    requires ConsumerSound(q, c)
  {
    var r := ConsumerStep(q, c);
    Core(r.0, ConsumerLayout(l, c), p, r.1)
  }

  predicate Reading<T>(c: Consumer<T>) {
    || c.CFrontBlock? || c.CLocalTail? || c.CFront? || c.CTailBlock? || c.CFrontBlockAgain? || c.CFrontAgain?
    || c.CNext? || c.CNextFront? || (c.CNextTail? && c.op.Peek?) || (c.CTake? && c.op.Peek?)
  }

  lemma Quiet<T>(q: Queue<T>, l: Layout<T>, p: Producer<T>, c: Consumer<T>, c': Consumer<T>)
    requires BlocksOk(q, l, p, c) && !c.CStoreFront? && !c'.CStoreFront?
    ensures BlocksOk(q, l, p, c')
  {
    forall id: nat
      ensures BlockAt(q, l, p, c', id)
    {
      assert BlockAt(q, l, p, c, id);
    }
  }

  /** The block behind an empty front block holds an element: the assertion of try_dequeue, pop and peek. */
  lemma NextHolds<T>(q: Queue<T>, l: Layout<T>, p: Producer<T>, c: Consumer<T>, nb: nat)
    requires Core(q, l, p, c) && Leaving(q, l, nb) && !c.CStoreFront?
    ensures q.blocks[nb].size > 0 && l.items[nb] != []
    ensures q.blocks[nb].front != q.blocks[nb].tail && IsFull(q, nb, q.blocks[nb].front)
  {
    assert BlockAt(q, l, p, c, nb) && FillOk(q, l, p, 1);
    EmptyIffMet(q.blocks[nb], |l.items[nb]|);
    Present(q.blocks[nb], l.items[nb], AtTail(p, nb));
  }

  lemma FrontHolds<T>(q: Queue<T>, l: Layout<T>, p: Producer<T>, c: Consumer<T>)
    requires Core(q, l, p, c) && !c.CStoreFront? && l.items[q.frontBlock] != []
    ensures IsFull(q, q.frontBlock, q.blocks[q.frontBlock].front)
    ensures q.blocks[q.frontBlock].data[q.blocks[q.frontBlock].front] == Full(l.items[q.frontBlock][0])
  {
    assert BlockAt(q, l, p, c, q.frontBlock);
    Present(q.blocks[q.frontBlock], l.items[q.frontBlock], AtTail(p, q.frontBlock));
  }

  lemma ReadRegisters<T>(q: Queue<T>, l: Layout<T>, p: Producer<T>, c: Consumer<T>)
    requires Core(q, l, p, c) && Reading(c)
    ensures ConsumerSound(q, c) && ConsumerOk(q, l, ConsumerStep(q, c).1)
  {
    assert BlockAt(q, l, p, c, q.frontBlock);
    EmptyIffMet(q.blocks[q.frontBlock], |l.items[q.frontBlock]|);
    match c
    case CTailBlock(_, _) =>
    case CNext(_, fb) => assert Linked(q, l.ring, 0) && Linked(q, l.ring, 1);
    case CNextFront(_, nb) => NextHolds(q, l, p, c, nb);
    case CNextTail(_, nb, _) => NextHolds(q, l, p, c, nb);
    case CTake(_, _, _) => FrontHolds(q, l, p, c);
    case _ =>
  }

  lemma ReadStep<T>(q: Queue<T>, l: Layout<T>, p: Producer<T>, c: Consumer<T>)
    requires Core(q, l, p, c) && Reading(c)
    ensures ConsumerSound(q, c) && ConsumerCore(q, l, p, c)
  {
    ReadRegisters(q, l, p, c);
    Quiet(q, l, p, c, ConsumerStep(q, c).1);
  }

  lemma FilledKept<T>(q: Queue<T>, l: Layout<T>, p: Producer<T>, k: nat, b: Block<T>, items: seq<T>)
    requires RingOk(q, l) && Filled(q, l, p) && k <= l.ti && l.ring[k] < |q.blocks|
    requires b.size == q.blocks[l.ring[k]].size && (k == 0 || items == l.items[l.ring[k]])
    ensures Filled(WithBlock(q, l.ring[k], b), l.(items := l.items[l.ring[k] := items]), p)
  {
    var q', l' := WithBlock(q, l.ring[k], b), l.(items := l.items[l.ring[k] := items]);
    forall j: nat
      ensures FillOk(q', l', p, j)
    {
      assert FillOk(q, l, p, j) && Apart(l.ring, j, k) && Apart(l.ring, k, j) && Linked(q, l.ring, j);
    }
  }

  lemma SameViews<T>(p: Producer<T>, c: Consumer<T>, c': Consumer<T>, id: nat)
    requires (c.CStoreFront? ==> c.fb == id) && (c'.CStoreFront? ==> c'.fb == id)
    ensures forall other: nat :: other != id ==> SameView(p, c, p, c', other)
  {
  }

  /** The consumer's store into the front block, or into the block behind it, is invisible to the producer's registers. */
  lemma OneBlock<T>(q: Queue<T>, l: Layout<T>, p: Producer<T>, c: Consumer<T>, k: nat, b: Block<T>, items: seq<T>, c': Consumer<T>)
    requires Core(q, l, p, c) && k <= l.ti && k < |l.ring| && l.ring[k] < |q.blocks|
    requires b.next == q.blocks[l.ring[k]].next && b.size == q.blocks[l.ring[k]].size
    requires b.tail == q.blocks[l.ring[k]].tail && b.localFront == q.blocks[l.ring[k]].localFront
    requires k == 0 || items == l.items[l.ring[k]]
    requires (c.CStoreFront? ==> c.fb == l.ring[k]) && (c'.CStoreFront? ==> c'.fb == l.ring[k])
    requires BlockOk(b, items, Gone(c', l.ring[k]), AtTail(p, l.ring[k]))
    ensures var q', l' := WithBlock(q, l.ring[k], b), l.(items := l.items[l.ring[k] := items]);
      RingOk(q', l') && Filled(q', l', p) && BlocksOk(q', l', p, c') && ProducerOk(q', l', p)
  {
    var id := l.ring[k];
    RingKept(q, l, id, b, items);
    FilledKept(q, l, p, k, b, items);
    SameViews(p, c, c', id);
    BlocksKept(q, l, p, c, id, b, items, p, c');
    assert Apart(l.ring, 0, l.ti) && Apart(l.ring, k, l.ti + 1) && Linked(q, l.ring, l.ti + 1);
    ProducerStable(q, l, WithBlock(q, id, b), l.(items := l.items[id := items]), p);
  }

  lemma TailStep<T>(q: Queue<T>, l: Layout<T>, p: Producer<T>, c: Consumer<T>)
    requires Core(q, l, p, c) && (c.CTail? || c.CTailAgain?)
    ensures ConsumerSound(q, c) && ConsumerCore(q, l, p, c)
  {
    var id := c.fb;
    assert BlockAt(q, l, p, c, id);
    var b, items := q.blocks[id], l.items[id];
    assert l.items[id := items] == l.items;
    RefreshLocalTail(b, items, Gone(c, id), AtTail(p, id));
    EmptyIffMet(b, |items|);
    OneBlock(q, l, p, c, 0, b.(localTail := b.tail), items, ConsumerStep(q, c).1);
  }

  lemma NextTailStep<T>(q: Queue<T>, l: Layout<T>, p: Producer<T>, c: Consumer<T>)
    requires Core(q, l, p, c) && c.CNextTail? && !c.op.Peek?
    ensures ConsumerSound(q, c) && ConsumerCore(q, l, p, c)
  {
    var id := c.nb;
    assert BlockAt(q, l, p, c, id) && Apart(l.ring, 0, 1);
    NextHolds(q, l, p, c, id);
    var b, items := q.blocks[id], l.items[id];
    assert l.items[id := items] == l.items;
    RefreshLocalTail(b, items, Gone(c, id), AtTail(p, id));
    OneBlock(q, l, p, c, 1, b.(localTail := b.tail), items, ConsumerStep(q, c).1);
  }

  lemma TakeStep<T>(q: Queue<T>, l: Layout<T>, p: Producer<T>, c: Consumer<T>)
    requires Core(q, l, p, c) && c.CTake? && !c.op.Peek?
    ensures ConsumerSound(q, c) && ConsumerCore(q, l, p, c)
  {
    var id := c.fb;
    assert BlockAt(q, l, p, c, id);
    FrontHolds(q, l, p, c);
    var b, items := q.blocks[id], l.items[id];
    assert l.items[id := items] == l.items;
    Destroy(b, items, AtTail(p, id));
    OneBlock(q, l, p, c, 0, b.(data := b.data[b.front := Raw]), items, ConsumerStep(q, c).1);
  }

  lemma StoreFrontStep<T>(q: Queue<T>, l: Layout<T>, p: Producer<T>, c: Consumer<T>)
    requires Core(q, l, p, c) && c.CStoreFront?
    ensures ConsumerSound(q, c) && ConsumerCore(q, l, p, c)
  {
    var id := c.fb;
    assert BlockAt(q, l, p, c, id);
    var b, items := q.blocks[id], l.items[id];
    StoreFront(b, items, AtTail(p, id));
    OneBlock(q, l, p, c, 0, b.(front := NextIndex(b.size, b.front)), items[1..], ConsumerStep(q, c).1);
  }

  // The front block is left

  lemma RotatedRing<T>(q: Queue<T>, l: Layout<T>)
    requires RingOk(q, l) && 0 < l.ti
    ensures RingOk(q.(frontBlock := l.ring[1]), Layout(l.ring[1..] + [l.ring[0]], l.ti - 1, l.items))
  {
    var q', l' := q.(frontBlock := l.ring[1]), Layout(l.ring[1..] + [l.ring[0]], l.ti - 1, l.items);
    var m := |l.ring|;
    forall k: nat
      ensures Linked(q', l'.ring, k)
    {
      assert Linked(q, l.ring, Inc(m, k));
    }
    forall i: nat, j: nat
      ensures Apart(l'.ring, i, j)
    {
      assert Apart(l.ring, i + 1, j + 1) && Apart(l.ring, 0, i + 1);
    }
    assert Linked(q, l.ring, 1);
  }

  lemma RotatedBlocks<T>(q: Queue<T>, l: Layout<T>, p: Producer<T>, c: Consumer<T>, c': Consumer<T>)
    requires Core(q, l, p, c) && c.CAdvance? && c'.CTake?
    ensures var q', l' := q.(frontBlock := l.ring[1]), Layout(l.ring[1..] + [l.ring[0]], l.ti - 1, l.items);
      Filled(q', l', p) && BlocksOk(q', l', p, c')
  {
    var q', l' := q.(frontBlock := l.ring[1]), Layout(l.ring[1..] + [l.ring[0]], l.ti - 1, l.items);
    forall k: nat
      ensures FillOk(q', l', p, k)
    {
      assert FillOk(q, l, p, Inc(|l.ring|, k)) && Linked(q, l.ring, 0);
    }
    forall id: nat
      ensures BlockAt(q', l', p, c', id)
    {
      assert BlockAt(q, l, p, c, id);
    }
  }

  lemma AdvanceStep<T>(q: Queue<T>, l: Layout<T>, p: Producer<T>, c: Consumer<T>)
    requires Core(q, l, p, c) && c.CAdvance?
    ensures ConsumerSound(q, c) && ConsumerCore(q, l, p, c)
  {
    RotatedRing(q, l);
    NextHolds(q, l, p, c, c.nb);
    RotatedBlocks(q, l, p, c, ConsumerStep(q, c).1);
    assert Linked(q, l.ring, l.ti + 1);
    ProducerStable(q, l, q.(frontBlock := c.nb), ConsumerLayout(l, c), p);
  }

  /** Every consumer step is sound and keeps the invariant. */
  lemma ConsumerKeeps<T>(q: Queue<T>, l: Layout<T>, p: Producer<T>, c: Consumer<T>)
    requires Core(q, l, p, c) && !c.CIdle?
    ensures ConsumerSound(q, c) && ConsumerCore(q, l, p, c)
  {
    if Reading(c) {
      ReadStep(q, l, p, c);
    } else {
      match c
      case CNextTail(_, _, _) => NextTailStep(q, l, p, c);
      case CTake(_, _, _) => TakeStep(q, l, p, c);
      case CStoreFront(_, _, _, _) => StoreFrontStep(q, l, p, c);
      case CAdvance(_, _, _) => AdvanceStep(q, l, p, c);
      case _ => TailStep(q, l, p, c);
    }
  }
}
