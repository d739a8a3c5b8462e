/** One block of the queue: how its indices and cells relate to the elements it
    holds, and how each store of either thread keeps that relation. */
module SpscBlocks {
  import opened Bits
  import opened SpscQueue

  /** Slots from a up to b, going around the ring. */
  function Dist(size: nat, a: nat, b: nat): int {
    if b >= a then b - a else b + size - a
  }

  /** The indices of a block with len elements. The producer's copy of front lags behind front, so that
      it sees at most the free slots there are; the consumer's copy of tail lags behind tail, so that it sees
      at most the elements there are. */
  ghost predicate Indices<T>(b: Block<T>, len: nat) {
    && 2 <= b.size == |b.data| && IsPow2(b.size)
    && b.front < b.size && b.tail < b.size && b.localFront < b.size && b.localTail < b.size
    && len < b.size && b.tail == Wrap(b.size, b.front + len)
    && len <= Dist(b.size, b.localFront, b.tail)
    && Dist(b.size, b.front, b.localTail) <= len
  }

  /** What the slot o places behind the front contains. gone: the consumer has moved the first element out;
      atTail: what the producer has put into the slot at the tail. */
  ghost function Expected<T>(items: seq<T>, gone: bool, atTail: Cell<T>, o: nat): Cell<T> {
    if o < |items| then (if o == 0 && gone then Raw else Full(items[o]))
    else if o == |items| then atTail else Raw
  }

  ghost predicate CellOk<T>(b: Block<T>, items: seq<T>, gone: bool, atTail: Cell<T>, o: nat) {
    Wrap(b.size, b.front + o) < |b.data| && b.data[Wrap(b.size, b.front + o)] == Expected(items, gone, atTail, o)
  }

  ghost predicate BlockOk<T>(b: Block<T>, items: seq<T>, gone: bool, atTail: Cell<T>) {
    Indices(b, |items|) && (gone ==> items != []) && forall o :: 0 <= o < b.size ==> CellOk(b, items, gone, atTail, o)
  }

  /** The producer may write one more element: what it checks on its own copy of front. */
  ghost predicate Room<T>(b: Block<T>) {
    Wrap(b.size, b.tail + 1) != b.localFront
  }

  lemma NextIs(size: nat, i: nat)
    requires IsPow2(size) && i < size
    ensures NextIndex(size, i) == Wrap(size, i + 1)
  {
    MaskWraps(size, i + 1);
  }

  lemma RefreshLocalFront<T>(b: Block<T>, items: seq<T>, gone: bool, atTail: Cell<T>)
    requires BlockOk(b, items, gone, atTail)
    ensures BlockOk(b.(localFront := b.front), items, gone, atTail)
  {
    var b' := b.(localFront := b.front);
    assert forall o :: 0 <= o < b.size ==> CellOk(b, items, gone, atTail, o) ==> CellOk(b', items, gone, atTail, o);
  }

  lemma RefreshLocalTail<T>(b: Block<T>, items: seq<T>, gone: bool, atTail: Cell<T>)
    requires BlockOk(b, items, gone, atTail)
    ensures BlockOk(b.(localTail := b.tail), items, gone, atTail)
  {
    var b' := b.(localTail := b.tail);
    assert forall o :: 0 <= o < b.size ==> CellOk(b, items, gone, atTail, o) ==> CellOk(b', items, gone, atTail, o);
  }

  lemma Relink<T>(b: Block<T>, items: seq<T>, gone: bool, atTail: Cell<T>, next: nat)
    requires BlockOk(b, items, gone, atTail)
    ensures BlockOk(b.(next := next), items, gone, atTail)
  {
    var b' := b.(next := next);
    assert forall o :: 0 <= o < b.size ==> CellOk(b, items, gone, atTail, o) ==> CellOk(b', items, gone, atTail, o);
  }

  /** The slot at the tail is unused, so that an element may be constructed there. */
  lemma Construct<T>(b: Block<T>, items: seq<T>, gone: bool, x: T)
    requires BlockOk(b, items, gone, Raw)
    ensures b.data[b.tail].Raw?
    ensures BlockOk(b.(data := b.data[b.tail := Full(x)]), items, gone, Full(x))
  {
    assert CellOk(b, items, gone, Raw, |items|);
    var b' := b.(data := b.data[b.tail := Full(x)]);
    forall o | 0 <= o < b.size
      ensures CellOk(b', items, gone, Full(x), o)
    {
      assert CellOk(b, items, gone, Raw, o);
    }
  }

  lemma StoreTail<T>(b: Block<T>, items: seq<T>, gone: bool, x: T)
    requires BlockOk(b, items, gone, Full(x)) && Room(b)
    ensures BlockOk(b.(tail := NextIndex(b.size, b.tail)), items + [x], gone, Raw)
  {
    NextIs(b.size, b.tail);
    var b' := b.(tail := NextIndex(b.size, b.tail));
    assert CellOk(b, items, gone, Full(x), |items|);
    forall o | 0 <= o < b.size
      ensures CellOk(b', items + [x], gone, Raw, o)
    {
      assert CellOk(b, items, gone, Full(x), o);
    }
  }

  /** An element whose presence the consumer has seen is there, and it is the oldest one. */
  lemma Present<T>(b: Block<T>, items: seq<T>, atTail: Cell<T>)
    requires BlockOk(b, items, false, atTail) && items != []
    ensures b.data[b.front] == Full(items[0])
  {
    assert CellOk(b, items, false, atTail, 0);
  }

  lemma Destroy<T>(b: Block<T>, items: seq<T>, atTail: Cell<T>)
    requires BlockOk(b, items, false, atTail) && items != []
    ensures BlockOk(b.(data := b.data[b.front := Raw]), items, true, atTail)
  {
    var b' := b.(data := b.data[b.front := Raw]);
    forall o | 0 <= o < b.size
      ensures CellOk(b', items, true, atTail, o)
    {
      assert CellOk(b, items, false, atTail, o);
    }
  }

  lemma StoreFront<T>(b: Block<T>, items: seq<T>, atTail: Cell<T>)
    requires BlockOk(b, items, true, atTail) && b.front != b.localTail
    ensures items != []
    ensures BlockOk(b.(front := NextIndex(b.size, b.front)), items[1..], false, atTail)
  {
    NextIs(b.size, b.front);
    var b' := b.(front := NextIndex(b.size, b.front));
    forall o | 0 <= o < b.size
      ensures CellOk(b', items[1..], false, atTail, o)
    {
      assert CellOk(b, items, true, atTail, if o + 1 < b.size then o + 1 else 0);
    }
  }

  lemma Fresh<T>(size: nat, x: T)
    requires 2 <= size && IsPow2(size)
    ensures BlockOk(NewBlock(size, x), [x], false, Raw)
  {
    forall o | 0 <= o < size
      ensures CellOk(NewBlock(size, x), [x], false, Raw, o)
    {
    }
  }

  /** When the producer's refreshed copy of front leaves no room, the block is full. */
  lemma NoRoomIsFull<T>(b: Block<T>, len: nat)
    requires Indices(b, len) && Wrap(b.size, b.tail + 1) == b.front
    ensures len == b.size - 1
  {
  }

  lemma EmptyIffMet<T>(b: Block<T>, len: nat)
    requires Indices(b, len)
    ensures b.front == b.tail <==> len == 0
    ensures b.front != b.localTail ==> len > 0
  {
  }
}
