/** What every state of the queue keeps, under every interleaving of the two threads. */
module SpscInvariant {
  import opened Arithmetic
  import opened Bits
  import opened SpscQueue
  import opened SpscBlocks

  ghost predicate Linked<T>(q: Queue<T>, ring: seq<nat>, k: nat) {
    k < |ring| ==> ring[k] < |q.blocks| && q.blocks[ring[k]].next == ring[Inc(|ring|, k)]
  }

  ghost predicate Apart(ring: seq<nat>, i: nat, j: nat) {
    i < j < |ring| ==> ring[i] != ring[j]
  }

  /** The blocks form one circle, in which the tail block is reached from the front block. */
  ghost predicate RingOk<T>(q: Queue<T>, l: Layout<T>) {
    && l.ti < |l.ring| == |l.items| == |q.blocks|
    && q.frontBlock < |q.blocks| && q.tailBlock < |q.blocks|
    && (forall k: nat :: Linked(q, l.ring, k))
    && (forall i: nat, j: nat :: Apart(l.ring, i, j))
    && q.frontBlock == l.ring[0] && q.tailBlock == l.ring[l.ti]
  }

  /** The blocks strictly between the front and the tail block are full, the tail block is not empty when it is
      not the front block, and the remaining blocks are empty, but for the element that is being published. */
  ghost predicate FillOk<T>(q: Queue<T>, l: Layout<T>, p: Producer<T>, k: nat) {
    k < |l.ring| ==>
      && l.ring[k] < |q.blocks|
      && (0 < k < l.ti ==> |Slot(l.ring, l.items, k)| + 1 == q.blocks[l.ring[k]].size)
      && (0 < k == l.ti ==> Slot(l.ring, l.items, k) != [])
      && (k > l.ti ==> Slot(l.ring, l.items, k) == if k == l.ti + 1 && p.PPublish? then [p.x] else [])
  }

  ghost predicate Filled<T>(q: Queue<T>, l: Layout<T>, p: Producer<T>) {
    forall k: nat :: FillOk(q, l, p, k)
  }

  /** What the producer has put into the slot at the tail of a block. */
  ghost function AtTail<T>(p: Producer<T>, id: nat): Cell<T> {
    if (p.PStoreTail? && p.tb == id) || (p.PNextStoreTail? && p.tn == id) then Full(p.x) else Raw
  }

  /** The consumer has moved the first element of this block out. */
  ghost predicate Gone<T>(c: Consumer<T>, id: nat) {
    c.CStoreFront? && c.fb == id
  }

  ghost predicate BlockAt<T>(q: Queue<T>, l: Layout<T>, p: Producer<T>, c: Consumer<T>, id: nat) {
    id < |q.blocks| && id < |l.items| ==> BlockOk(q.blocks[id], l.items[id], Gone(c, id), AtTail(p, id))
  }

  ghost predicate BlocksOk<T>(q: Queue<T>, l: Layout<T>, p: Producer<T>, c: Consumer<T>) {
    forall id: nat :: BlockAt(q, l, p, c, id)
  }

  /** A tail block other than the front block that the producer has found full stays full. */
  ghost predicate Saturated<T>(q: Queue<T>, l: Layout<T>)
    requires RingOk(q, l)
  {
    l.ti > 0 ==> |l.items[q.tailBlock]| + 1 == q.blocks[q.tailBlock].size
  }

  ghost predicate Ahead<T>(q: Queue<T>, l: Layout<T>, id: nat)
    requires RingOk(q, l)
  {
    Saturated(q, l) && l.ti + 1 < |l.ring| && id == l.ring[l.ti + 1] && id < |q.blocks|
  }

  /** What the producer's registers hold. */
  ghost predicate ProducerOk<T>(q: Queue<T>, l: Layout<T>, p: Producer<T>)
    requires RingOk(q, l)
  {
    match p
    case PIdle(_) => true
    case PTailBlock(_, _) => true
    case PLocalFront(_, _, tb) => tb == q.tailBlock
    case PTail(_, _, tb, bf) => tb == q.tailBlock && bf == q.blocks[tb].localFront
    case PFront(_, _, tb, bt) => tb == q.tailBlock && bt == q.blocks[tb].tail
    case PConstruct(_, tb, bt) => tb == q.tailBlock && bt == q.blocks[tb].tail && Room(q.blocks[tb])
    case PStoreTail(_, tb, bt) => tb == q.tailBlock && bt == q.blocks[tb].tail && Room(q.blocks[tb])
    case PNext(_, _, tb) => tb == q.tailBlock && Saturated(q, l)
    case PFrontBlock(_, _, tb, n) => tb == q.tailBlock && Saturated(q, l) && n == q.blocks[tb].next
    case PNextAgain(_, tb) => tb == q.tailBlock && Saturated(q, l) && l.ti + 1 < |l.ring|
    case PNextFront(_, tn) => Ahead(q, l, tn)
    case PNextTail(_, tn, nf) => Ahead(q, l, tn) && nf == q.blocks[tn].front && nf == q.blocks[tn].localFront
    case PNextConstruct(_, tn, nt) => Ahead(q, l, tn) && nt == q.blocks[tn].tail && Room(q.blocks[tn])
    case PNextStoreTail(_, tn, nt) => Ahead(q, l, tn) && nt == q.blocks[tn].tail && Room(q.blocks[tn])
    case PAlloc(_, tb) => tb == q.tailBlock && Saturated(q, l)
    case PNewNext(x, tb, b) => tb == q.tailBlock && Saturated(q, l) && BlockOk(b, [x], false, Raw)
    case PLink(x, tb, b) =>
      tb == q.tailBlock && Saturated(q, l) && BlockOk(b, [x], false, Raw) && b.next == q.blocks[tb].next
    case PPublish(_, tn) => Ahead(q, l, tn)
  }

  /** The consumer stands at the front block, has found it empty, and another block follows. */
  ghost predicate Leaving<T>(q: Queue<T>, l: Layout<T>, nb: nat)
    requires RingOk(q, l)
  {
    0 < l.ti && l.items[q.frontBlock] == [] && nb == l.ring[1] && nb < |q.blocks|
  }

  /** What the consumer's registers hold. */
  ghost predicate ConsumerOk<T>(q: Queue<T>, l: Layout<T>, c: Consumer<T>)
    requires RingOk(q, l)
  {
    match c
    case CIdle(_) => true
    case CFrontBlock(_) => true
    case CLocalTail(_, fb) => fb == q.frontBlock
    case CFront(_, fb, bt) => fb == q.frontBlock && bt == q.blocks[fb].localTail
    case CTail(_, fb, bf) => fb == q.frontBlock && bf == q.blocks[fb].front
    case CTailBlock(_, fb) => fb == q.frontBlock
    case CFrontBlockAgain(_) => 0 < l.ti
    case CTailAgain(_, fb) => fb == q.frontBlock && 0 < l.ti
    case CFrontAgain(_, fb, bt) =>
      fb == q.frontBlock && 0 < l.ti && bt == q.blocks[fb].tail && bt == q.blocks[fb].localTail
    case CNext(_, fb) => fb == q.frontBlock && 0 < l.ti && l.items[fb] == []
    case CNextFront(_, nb) => Leaving(q, l, nb)
    case CNextTail(_, nb, nf) => Leaving(q, l, nb) && nf == q.blocks[nb].front
    case CAdvance(op, nb, nf) =>
      !op.Peek? && Leaving(q, l, nb) && nf == q.blocks[nb].front && nf != q.blocks[nb].localTail
    case CTake(op, fb, bf) =>
      fb == q.frontBlock && bf == q.blocks[fb].front && l.items[fb] != []
      && (!op.Peek? ==> bf != q.blocks[fb].localTail)
    case CStoreFront(op, fb, bf, v) =>
      !op.Peek? && fb == q.frontBlock && bf == q.blocks[fb].front && bf != q.blocks[fb].localTail
      && l.items[fb] != [] && v == l.items[fb][0]
  }

  ghost predicate Core<T>(q: Queue<T>, l: Layout<T>, p: Producer<T>, c: Consumer<T>) {
    && RingOk(q, l) && Filled(q, l, p) && BlocksOk(q, l, p, c)
    && ProducerOk(q, l, p) && ConsumerOk(q, l, c)
    && IsPow2(q.largest) && 2 <= q.largest
  }

  // One block changes

  lemma RingKept<T>(q: Queue<T>, l: Layout<T>, id: nat, b: Block<T>, items: seq<T>)
    requires RingOk(q, l) && id < |q.blocks| && b.next == q.blocks[id].next
    ensures RingOk(WithBlock(q, id, b), l.(items := l.items[id := items]))
  {
    var q', l' := WithBlock(q, id, b), l.(items := l.items[id := items]);
    forall k: nat
      ensures Linked(q', l'.ring, k)
    {
      assert Linked(q, l.ring, k);
    }
    assert forall i: nat, j: nat :: Apart(l.ring, i, j) ==> Apart(l'.ring, i, j);
  }

  ghost predicate SameView<T>(p: Producer<T>, c: Consumer<T>, p': Producer<T>, c': Consumer<T>, id: nat) {
    Gone(c, id) == Gone(c', id) && AtTail(p, id) == AtTail(p', id)
  }

  lemma BlocksKept<T>(q: Queue<T>, l: Layout<T>, p: Producer<T>, c: Consumer<T>, id: nat, b: Block<T>, items: seq<T>,
                      p': Producer<T>, c': Consumer<T>)
    requires BlocksOk(q, l, p, c) && id < |q.blocks| == |l.items|
    requires BlockOk(b, items, Gone(c', id), AtTail(p', id))
    requires forall other: nat :: other != id ==> SameView(p, c, p', c', other)
    ensures BlocksOk(WithBlock(q, id, b), l.(items := l.items[id := items]), p', c')
  {
    var q', l' := WithBlock(q, id, b), l.(items := l.items[id := items]);
    forall other: nat
      ensures BlockAt(q', l', p', c', other)
    {
      if other != id {
        assert BlockAt(q, l, p, c, other) && SameView(p, c, p', c', other);
      }
    }
  }

  // What one thread does to the shared state leaves the other one's registers right

  ghost predicate Kept<T>(q: Queue<T>, l: Layout<T>, q': Queue<T>, l': Layout<T>, id: nat) {
    && id < |q.blocks| && id < |q'.blocks| && id < |l.items| && id < |l'.items|
    && q'.blocks[id].front == q.blocks[id].front && q'.blocks[id].localTail == q.blocks[id].localTail
    && l.items[id] <= l'.items[id]
  }

  /** The producer adds elements, and stays away from the front block once it has left it. */
  ghost predicate ByProducer<T>(q: Queue<T>, l: Layout<T>, q': Queue<T>, l': Layout<T>)
    requires RingOk(q, l) && RingOk(q', l')
  {
    && q'.frontBlock == q.frontBlock && l.ti <= l'.ti
    && Kept(q, l, q', l', q.frontBlock)
    && (0 < l.ti ==> |l'.ring| > 1 && l'.ring[1] == l.ring[1] && Kept(q, l, q', l', l.ring[1])
                     && q'.blocks[q.frontBlock].tail == q.blocks[q.frontBlock].tail
                     && l'.items[q.frontBlock] == l.items[q.frontBlock])
  }

  lemma ConsumerStable<T>(q: Queue<T>, l: Layout<T>, q': Queue<T>, l': Layout<T>, c: Consumer<T>)
    requires RingOk(q, l) && RingOk(q', l') && ByProducer(q, l, q', l') && ConsumerOk(q, l, c)
    ensures ConsumerOk(q', l', c)
  {
  }

  ghost predicate Owned<T>(q: Queue<T>, q': Queue<T>, id: nat) {
    && id < |q.blocks| && id < |q'.blocks|
    && q'.blocks[id].tail == q.blocks[id].tail && q'.blocks[id].localFront == q.blocks[id].localFront
    && q'.blocks[id].next == q.blocks[id].next && q'.blocks[id].size == q.blocks[id].size
  }

  /** The consumer removes elements, and does not enter the blocks behind the tail block. */
  ghost predicate ByConsumer<T>(q: Queue<T>, l: Layout<T>, q': Queue<T>, l': Layout<T>)
    requires RingOk(q, l) && RingOk(q', l')
  {
    && q'.tailBlock == q.tailBlock && Owned(q, q', q.tailBlock)
    && (0 < l'.ti ==> 0 < l.ti && l'.items[q.tailBlock] == l.items[q.tailBlock])
    && (l.ti + 1 < |l.ring| ==>
          && l'.ti + 1 < |l'.ring| && l'.ring[l'.ti + 1] == l.ring[l.ti + 1] && Owned(q, q', l.ring[l.ti + 1])
          && q'.blocks[l.ring[l.ti + 1]].front == q.blocks[l.ring[l.ti + 1]].front)
  }

  lemma ProducerStable<T>(q: Queue<T>, l: Layout<T>, q': Queue<T>, l': Layout<T>, p: Producer<T>)
    requires RingOk(q, l) && RingOk(q', l') && ByConsumer(q, l, q', l') && ProducerOk(q, l, p)
    ensures ProducerOk(q', l', p)
  {
  }
}
