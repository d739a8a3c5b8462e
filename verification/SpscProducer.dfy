/** Every step of inner_enqueue keeps the queue's invariant. */
module SpscProducer {
  import opened Bits
  import opened SpscQueue
  import opened SpscBlocks
  import opened SpscInvariant

  ghost predicate ProducerCore<T>(q: Queue<T>, l: Layout<T>, p: Producer<T>, c: Consumer<T>, memory: bool)
    requires ProducerSound(q, p)
  {
    var r := ProducerStep(q, p, memory);
    Core(r.0, ProducerLayout(l, p), r.1, c)
  }

  // Steps that only read

  predicate Reading<T>(p: Producer<T>) {
    p.PTailBlock? || p.PLocalFront? || p.PTail? || p.PNext? || p.PFrontBlock? || p.PNextAgain? || p.PAlloc? || p.PNewNext?
  }

  lemma Quiet<T>(q: Queue<T>, l: Layout<T>, p: Producer<T>, c: Consumer<T>, p': Producer<T>)
    requires Filled(q, l, p) && BlocksOk(q, l, p, c)
    requires !p.PPublish? && !p'.PPublish?
    requires !p.PStoreTail? && !p.PNextStoreTail? && !p'.PStoreTail? && !p'.PNextStoreTail?
    ensures Filled(q, l, p') && BlocksOk(q, l, p', c)
  {
    forall k: nat
      ensures FillOk(q, l, p', k)
    {
      assert FillOk(q, l, p, k);
    }
    forall id: nat
      ensures BlockAt(q, l, p', c, id)
    {
      assert BlockAt(q, l, p, c, id);
    }
  }

  /** The front block cannot become the successor of the tail block while the producer looks. */
  lemma NotTheFront<T>(q: Queue<T>, l: Layout<T>)
    requires RingOk(q, l) && q.blocks[q.tailBlock].next != q.frontBlock
    ensures l.ti + 1 < |l.ring|
  {
    assert Linked(q, l.ring, l.ti);
  }

  lemma ReadRegisters<T>(q: Queue<T>, l: Layout<T>, p: Producer<T>, c: Consumer<T>, memory: bool)
    requires Core(q, l, p, c) && Reading(p)
    ensures ProducerSound(q, p) && ProducerOk(q, l, ProducerStep(q, p, memory).1)
  {
    assert BlockAt(q, l, p, c, q.tailBlock);
    match p
    case PTail(_, _, tb, _) => NextIs(q.blocks[tb].size, q.blocks[tb].tail);
    case PFrontBlock(_, _, tb, n) =>
      if n != q.frontBlock {
        NotTheFront(q, l);
      }
    case PNextAgain(_, tb) => assert Linked(q, l.ring, l.ti) && Linked(q, l.ring, l.ti + 1);
    case PAlloc(x, _) =>
      DoublePow2(q.largest);
      Fresh(GrownSize(q), x);
    case PNewNext(x, tb, b) => Relink(b, [x], false, Raw, q.blocks[tb].next);
    case _ =>
  }

  lemma ReadStep<T>(q: Queue<T>, l: Layout<T>, p: Producer<T>, c: Consumer<T>, memory: bool)
    requires Core(q, l, p, c) && Reading(p)
    ensures ProducerSound(q, p) && ProducerCore(q, l, p, c, memory)
  {
    ReadRegisters(q, l, p, c, memory);
    var r := ProducerStep(q, p, memory);
    Quiet(q, l, p, c, r.1);
    if p.PAlloc? && memory {
      DoublePow2(q.largest);
      Enlarged(q, l, r.1, c, r.0.largest);
    }
  }

  lemma Enlarged<T>(q: Queue<T>, l: Layout<T>, p: Producer<T>, c: Consumer<T>, largest: nat)
    requires Core(q, l, p, c) && IsPow2(largest) && 2 <= largest
    ensures Core(q.(largest := largest), l, p, c)
  {
    var q' := q.(largest := largest);
    assert RingOk(q', l) by {
      forall k: nat
        ensures Linked(q', l.ring, k)
      {
        assert Linked(q, l.ring, k);
      }
    }
    forall k: nat
      ensures FillOk(q', l, p, k)
    {
      assert FillOk(q, l, p, k);
    }
    forall id: nat
      ensures BlockAt(q', l, p, c, id)
    {
      assert BlockAt(q, l, p, c, id);
    }
    assert Linked(q, l.ring, 1);
    ConsumerStable(q, l, q', l, c);
  }

  // Steps that change one block

  /** Block at position k is replaced by b, which holds items. */
  lemma FilledKept<T>(q: Queue<T>, l: Layout<T>, p: Producer<T>, k: nat, b: Block<T>, items: seq<T>, p': Producer<T>)
    requires RingOk(q, l) && Filled(q, l, p) && k < |l.ring| && l.ring[k] < |q.blocks|
    requires b.size == q.blocks[l.ring[k]].size
    requires k == l.ti + 1 || p.PPublish? == p'.PPublish? == false
    requires FillOk(WithBlock(q, l.ring[k], b), l.(items := l.items[l.ring[k] := items]), p', k)
    ensures Filled(WithBlock(q, l.ring[k], b), l.(items := l.items[l.ring[k] := items]), p')
  {
    var q', l' := WithBlock(q, l.ring[k], b), l.(items := l.items[l.ring[k] := items]);
    forall j: nat
      ensures FillOk(q', l', p', j)
    {
      assert FillOk(q, l, p, j) && Apart(l.ring, j, k) && Apart(l.ring, k, j) && Linked(q, l.ring, j);
    }
  }

  lemma SameViews<T>(p: Producer<T>, c: Consumer<T>, p': Producer<T>, id: nat)
    requires p.PStoreTail? ==> p.tb == id
    requires p'.PStoreTail? ==> p'.tb == id
    requires p.PNextStoreTail? ==> p.tn == id
    requires p'.PNextStoreTail? ==> p'.tn == id
    ensures forall other: nat :: other != id ==> SameView(p, c, p', c, other)
  {
  }

  /** The producer's store into the tail block, or into the block behind it, is invisible to the consumer's registers. */
  lemma OneBlock<T>(q: Queue<T>, l: Layout<T>, p: Producer<T>, c: Consumer<T>, k: nat, b: Block<T>, items: seq<T>, p': Producer<T>)
    requires Core(q, l, p, c) && l.ti <= k <= l.ti + 1 && k < |l.ring| && l.ring[k] < |q.blocks|
    requires b.next == q.blocks[l.ring[k]].next && b.size == q.blocks[l.ring[k]].size
    requires b.front == q.blocks[l.ring[k]].front && b.localTail == q.blocks[l.ring[k]].localTail
    requires l.items[l.ring[k]] <= items
    requires k == l.ti + 1 || p.PPublish? == p'.PPublish? == false
    requires (p.PStoreTail? ==> p.tb == l.ring[k]) && (p'.PStoreTail? ==> p'.tb == l.ring[k])
    requires (p.PNextStoreTail? ==> p.tn == l.ring[k]) && (p'.PNextStoreTail? ==> p'.tn == l.ring[k])
    requires BlockOk(b, items, Gone(c, l.ring[k]), AtTail(p', l.ring[k]))
    requires FillOk(WithBlock(q, l.ring[k], b), l.(items := l.items[l.ring[k] := items]), p', k)
    ensures var q', l' := WithBlock(q, l.ring[k], b), l.(items := l.items[l.ring[k] := items]);
      RingOk(q', l') && Filled(q', l', p') && BlocksOk(q', l', p', c) && ConsumerOk(q', l', c)
  {
    var id := l.ring[k];
    RingKept(q, l, id, b, items);
    FilledKept(q, l, p, k, b, items, p');
    SameViews(p, c, p', id);
    BlocksKept(q, l, p, c, id, b, items, p', c);
    assert Apart(l.ring, 0, k) && Linked(q, l.ring, 1);
    ConsumerStable(q, l, WithBlock(q, id, b), l.(items := l.items[id := items]), c);
  }

  lemma FrontStep<T>(q: Queue<T>, l: Layout<T>, p: Producer<T>, c: Consumer<T>, memory: bool)
    requires Core(q, l, p, c) && p.PFront?
    ensures ProducerSound(q, p) && ProducerCore(q, l, p, c, memory)
  {
    var id := p.tb;
    assert BlockAt(q, l, p, c, id) && FillOk(q, l, p, l.ti);
    var b, items := q.blocks[id], l.items[id];
    assert l.items[id := items] == l.items;
    RefreshLocalFront(b, items, Gone(c, id), AtTail(p, id));
    NextIs(b.size, b.tail);
    var r := ProducerStep(q, p, memory);
    OneBlock(q, l, p, c, l.ti, b.(localFront := b.front), items, r.1);
    if r.1.PNext? {
      NoRoomIsFull(b, |items|);
    }
  }

  lemma ConstructStep<T>(q: Queue<T>, l: Layout<T>, p: Producer<T>, c: Consumer<T>, memory: bool)
    requires Core(q, l, p, c) && p.PConstruct?
    ensures ProducerSound(q, p) && ProducerCore(q, l, p, c, memory)
  {
    var id := p.tb;
    assert BlockAt(q, l, p, c, id) && FillOk(q, l, p, l.ti);
    var b, items := q.blocks[id], l.items[id];
    assert l.items[id := items] == l.items;
    Construct(b, items, Gone(c, id), p.x);
    OneBlock(q, l, p, c, l.ti, b.(data := b.data[b.tail := Full(p.x)]), items, PStoreTail(p.x, id, p.bt));
  }

  lemma StoreTailStep<T>(q: Queue<T>, l: Layout<T>, p: Producer<T>, c: Consumer<T>, memory: bool)
    requires Core(q, l, p, c) && p.PStoreTail?
    ensures ProducerSound(q, p) && ProducerCore(q, l, p, c, memory)
  {
    var id := p.tb;
    assert BlockAt(q, l, p, c, id) && FillOk(q, l, p, l.ti);
    var b, items := q.blocks[id], l.items[id];
    StoreTail(b, items, Gone(c, id), p.x);
    if 0 < l.ti {
      assert Apart(l.ring, 0, l.ti);
    }
    OneBlock(q, l, p, c, l.ti, b.(tail := NextIndex(b.size, b.tail)), items + [p.x], PIdle(true));
  }

  lemma NextFrontStep<T>(q: Queue<T>, l: Layout<T>, p: Producer<T>, c: Consumer<T>, memory: bool)
    requires Core(q, l, p, c) && p.PNextFront?
    ensures ProducerSound(q, p) && ProducerCore(q, l, p, c, memory)
  {
    var id := p.tn;
    assert BlockAt(q, l, p, c, id) && FillOk(q, l, p, l.ti + 1);
    var b, items := q.blocks[id], l.items[id];
    assert l.items[id := items] == l.items;
    RefreshLocalFront(b, items, Gone(c, id), AtTail(p, id));
    assert Apart(l.ring, l.ti, l.ti + 1);
    OneBlock(q, l, p, c, l.ti + 1, b.(localFront := b.front), items, PNextTail(p.x, id, b.front));
  }

  /** The block behind the tail block is empty: the assertion of inner_enqueue. */
  lemma NextTailStep<T>(q: Queue<T>, l: Layout<T>, p: Producer<T>, c: Consumer<T>, memory: bool)
    requires Core(q, l, p, c) && p.PNextTail?
    ensures ProducerSound(q, p) && ProducerCore(q, l, p, c, memory)
  {
    var id := p.tn;
    assert BlockAt(q, l, p, c, id) && FillOk(q, l, p, l.ti + 1);
    var b, items := q.blocks[id], l.items[id];
    assert l.items[id := items] == l.items;
    EmptyIffMet(b, |items|);
    assert b.(localFront := p.nf) == b;
    assert Apart(l.ring, l.ti, l.ti + 1);
    OneBlock(q, l, p, c, l.ti + 1, b.(localFront := p.nf), items, PNextConstruct(p.x, id, b.tail));
  }

  lemma NextConstructStep<T>(q: Queue<T>, l: Layout<T>, p: Producer<T>, c: Consumer<T>, memory: bool)
    requires Core(q, l, p, c) && p.PNextConstruct?
    ensures ProducerSound(q, p) && ProducerCore(q, l, p, c, memory)
  {
    var id := p.tn;
    assert BlockAt(q, l, p, c, id) && FillOk(q, l, p, l.ti + 1);
    var b, items := q.blocks[id], l.items[id];
    assert l.items[id := items] == l.items;
    Construct(b, items, Gone(c, id), p.x);
    assert Apart(l.ring, l.ti, l.ti + 1);
    OneBlock(q, l, p, c, l.ti + 1, b.(data := b.data[b.tail := Full(p.x)]), items, PNextStoreTail(p.x, id, p.nt));
  }

  lemma NextStoreTailStep<T>(q: Queue<T>, l: Layout<T>, p: Producer<T>, c: Consumer<T>, memory: bool)
    requires Core(q, l, p, c) && p.PNextStoreTail?
    ensures ProducerSound(q, p) && ProducerCore(q, l, p, c, memory)
  {
    var id := p.tn;
    assert BlockAt(q, l, p, c, id) && FillOk(q, l, p, l.ti + 1);
    var b := q.blocks[id];
    assert l.items[id] + [p.x] == [p.x];
    StoreTail(b, l.items[id], Gone(c, id), p.x);
    assert Apart(l.ring, 0, l.ti + 1) && Apart(l.ring, l.ti, l.ti + 1);
    OneBlock(q, l, p, c, l.ti + 1, b.(tail := NextIndex(b.size, b.tail)), [p.x], PPublish(p.x, id));
  }

  // Steps that move the tail block or add a block

  lemma PublishStep<T>(q: Queue<T>, l: Layout<T>, p: Producer<T>, c: Consumer<T>, memory: bool)
    requires Core(q, l, p, c) && p.PPublish?
    ensures ProducerSound(q, p) && ProducerCore(q, l, p, c, memory)
  {
    var q', l' := q.(tailBlock := p.tn), l.(ti := l.ti + 1);
    assert RingOk(q', l') by {
      assert forall k: nat :: Linked(q, l.ring, k) ==> Linked(q', l'.ring, k);
    }
    forall k: nat
      ensures FillOk(q', l', PIdle(true), k)
    {
      assert FillOk(q, l, p, k);
    }
    forall id: nat
      ensures BlockAt(q', l', PIdle(true), c, id)
    {
      assert BlockAt(q, l, p, c, id);
    }
    assert Linked(q, l.ring, 1);
    ConsumerStable(q, l, q', l', c);
  }

  /** The ring with a new block behind position t. */
  function Inserted(ring: seq<nat>, t: nat, id: nat): seq<nat>
    requires t < |ring|
  {
    ring[..t + 1] + [id] + ring[t + 1..]
  }

  lemma InsertedRing<T>(q: Queue<T>, l: Layout<T>, b: Block<T>, x: T)
    requires RingOk(q, l) && b.next == q.blocks[q.tailBlock].next
    ensures var id := |q.blocks|;
      RingOk(q.(blocks := q.blocks[q.tailBlock := q.blocks[q.tailBlock].(next := id)] + [b]),
             Layout(Inserted(l.ring, l.ti, id), l.ti, l.items + [[x]]))
  {
    var id := |q.blocks|;
    var q' := q.(blocks := q.blocks[q.tailBlock := q.blocks[q.tailBlock].(next := id)] + [b]);
    var ring := Inserted(l.ring, l.ti, id);
    forall k: nat
      ensures Linked(q', ring, k)
    {
      if k <= l.ti {
        assert Linked(q, l.ring, k) && Apart(l.ring, k, l.ti);
      } else {
        assert Linked(q, l.ring, k - 1) && Apart(l.ring, l.ti, k - 1) && Linked(q, l.ring, l.ti);
      }
    }
    forall i: nat, j: nat
      ensures Apart(ring, i, j)
    {
      var i', j' := if i <= l.ti then i else i - 1, if j <= l.ti then j else j - 1;
      assert Apart(l.ring, i', j') && Linked(q, l.ring, i') && Linked(q, l.ring, j');
    }
  }

  lemma InsertedBlocks<T>(q: Queue<T>, l: Layout<T>, p: Producer<T>, c: Consumer<T>)
    requires Core(q, l, p, c) && p.PLink? && ProducerSound(q, p)
    ensures var r, l' := ProducerStep(q, p, true), ProducerLayout(l, p);
      Filled(r.0, l', r.1) && BlocksOk(r.0, l', r.1, c)
  {
    var r, l' := ProducerStep(q, p, true), ProducerLayout(l, p);
    var id := |q.blocks|;
    assert Linked(q, l.ring, 0) && c.CStoreFront? ==> c.fb < id;
    forall k: nat
      ensures FillOk(r.0, l', r.1, k)
    {
      var k' := if k <= l.ti then k else k - 1;
      assert FillOk(q, l, p, k') && Linked(q, l.ring, k') && Apart(l.ring, k', l.ti);
    }
    forall other: nat
      ensures BlockAt(r.0, l', r.1, c, other)
    {
      assert BlockAt(q, l, p, c, other);
      if other == q.tailBlock {
        Relink(q.blocks[other], l.items[other], Gone(c, other), AtTail(p, other), id);
      }
    }
  }

  lemma LinkStep<T>(q: Queue<T>, l: Layout<T>, p: Producer<T>, c: Consumer<T>, memory: bool)
    requires Core(q, l, p, c) && p.PLink?
    ensures ProducerSound(q, p) && ProducerCore(q, l, p, c, memory)
  {
    assert BlockAt(q, l, p, c, q.tailBlock);
    InsertedRing(q, l, p.b, p.x);
    InsertedBlocks(q, l, p, c);
    assert Linked(q, l.ring, 1);
    ConsumerStable(q, l, ProducerStep(q, p, true).0, ProducerLayout(l, p), c);
  }

  /** Every producer step is sound and keeps the invariant. */
  lemma ProducerKeeps<T>(q: Queue<T>, l: Layout<T>, p: Producer<T>, c: Consumer<T>, memory: bool)
    requires Core(q, l, p, c) && !p.PIdle?
    ensures ProducerSound(q, p) && ProducerCore(q, l, p, c, memory)
  {
    match p
    case PFront(_, _, _, _) => FrontStep(q, l, p, c, memory);
    case PConstruct(_, _, _) => ConstructStep(q, l, p, c, memory);
    case PStoreTail(_, _, _) => StoreTailStep(q, l, p, c, memory);
    case PNextFront(_, _) => NextFrontStep(q, l, p, c, memory);
    case PNextTail(_, _, _) => NextTailStep(q, l, p, c, memory);
    case PNextConstruct(_, _, _) => NextConstructStep(q, l, p, c, memory);
    case PNextStoreTail(_, _, _) => NextStoreTailStep(q, l, p, c, memory);
    case PLink(_, _, _) => LinkStep(q, l, p, c, memory);
    case PPublish(_, _) => PublishStep(q, l, p, c, memory);
    case _ => ReadStep(q, l, p, c, memory);
  }
}
