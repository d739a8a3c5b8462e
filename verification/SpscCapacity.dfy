/** What the constructor builds, and the capacity that it promises. */
module SpscCapacity {
  import opened Arithmetic
  import opened Bits
  import opened SpscQueue
  import opened SpscBlocks
  import opened SpscInvariant
  import opened SpscProducer
  import opened SpscConsumer
  import opened SpscResults

  /** The size and the number of the blocks with which a queue for `size` elements starts. */
  function BlockSize(max: nat, size: nat): nat {
    if CeilPow2(size + 1) > 2 * max then max else CeilPow2(size + 1)
  }

  function BlockCount(max: nat, size: nat): nat
    requires 2 <= max
  {
    if CeilPow2(size + 1) > 2 * max then (size + 2 * max - 3) / (max - 1) else 1
  }

  /** n blocks of m slots, one slot of each and one whole block being spare, or a single block. */
  ghost predicate Promises(n: nat, m: nat, size: nat) {
    1 <= m && if n <= 1 then n == 1 && size <= m - 1 else size <= (n - 1) * (m - 1)
  }

  lemma CountSuffices(max: nat, size: nat)
    requires 2 <= max && 0 < size
    ensures Promises(BlockCount(max, size), BlockSize(max, size), size)
  {
    if CeilPow2(size + 1) > 2 * max {
      RoundedUp(max - 1, size, BlockCount(max, size));
    }
  }

  /** The division in the constructor: two more than (size - 1) / d. */
  lemma RoundedUp(d: nat, size: nat, n: nat)
    requires 0 < d && 0 < size && n == (size + 2 * d - 1) / d
    ensures 2 <= n && size <= (n - 1) * d
  {
    var total := size - 1 + 2 * d;
    Divided(total, d);
    Peel(n, d);
    MulMono(n, 1, d);
  }

  function EmptyBlock<T>(size: nat, next: nat): Block<T> {
    Block(size, 0, 0, 0, 0, next, seq(size, i => Raw))
  }

  /** A circle of n empty blocks. */
  function Circle<T>(max: nat, size: nat, n: nat): Queue<T> {
    Queue(max, seq(n, i requires 0 <= i < n => EmptyBlock(size, Inc(n, i))), 0, 0, size)
  }

  ghost function FirstLayout<T>(n: nat): Layout<T> {
    Layout(seq(n, i requires 0 <= i < n => i), 0, seq(n, i => []))
  }

  ghost function Init<T>(max: nat, size: nat): State<T>
    requires 2 <= max
  {
    var n := BlockCount(max, size);
    State(Circle(max, BlockSize(max, size), n), PIdle(true), CIdle(Nothing),
          History(FirstLayout(n), [], [], true, 0), false)
  }

  /** The constructor, from the computed block size and count on. */
  method NewQueue<T>(max: nat, size: nat) returns (q: Queue<T>)
    requires 2 <= max && 0 < size
    ensures q == Circle(max, BlockSize(max, size), BlockCount(max, size))
  {
    var largest := CeilPow2(size + 1);
    if largest > max * 2 {
      var n := (size + max * 2 - 3) / (max - 1);
      CountSuffices(max, size);
      largest := max;
      var blocks: seq<Block<T>> := [];
      for i := 0 to n
        invariant |blocks| == i
        invariant forall k :: 0 <= k < i ==> blocks[k] == EmptyBlock(largest, Inc(i, k))
      {
        if i > 0 {
          blocks := blocks[i - 1 := blocks[i - 1].(next := i)];
        }
        blocks := blocks + [EmptyBlock(largest, 0)];
      }
      q := Queue(max, blocks, 0, 0, largest);
      assert q.blocks == Circle<T>(max, largest, n).blocks;
    } else {
      q := Queue(max, [EmptyBlock(largest, 0)], 0, 0, largest);
      assert q.blocks == Circle<T>(max, largest, 1).blocks;
    }
  }

  lemma {:induction false} UptoNothing<T>(ring: seq<nat>, items: seq<seq<T>>, n: nat)
    requires forall k: nat :: k < n ==> Slot(ring, items, k) == []
    ensures Upto(ring, items, n) == []
  {
    if n > 0 {
      UptoNothing(ring, items, n - 1);
    }
  }

  lemma EmptyBlockOk<T>(size: nat, next: nat)
    requires 2 <= size && IsPow2(size)
    ensures BlockOk(EmptyBlock<T>(size, next), [], false, Raw)
  {
    forall o | 0 <= o < size
      ensures CellOk(EmptyBlock<T>(size, next), [], false, Raw, o)
    {
    }
  }

  lemma CircleOk<T>(max: nat, size: nat, n: nat)
    requires 1 <= n && 2 <= size && IsPow2(size)
    ensures Core(Circle<T>(max, size, n), FirstLayout(n), PIdle(true), CIdle(Nothing))
  {
    var q, l: Layout<T> := Circle<T>(max, size, n), FirstLayout(n);
    assert forall k: nat :: Linked(q, l.ring, k);
    assert forall i: nat, j: nat :: Apart(l.ring, i, j);
    assert forall k: nat :: FillOk(q, l, PIdle(true), k);
    forall id: nat
      ensures BlockAt(q, l, PIdle(true), CIdle(Nothing), id)
    {
      EmptyBlockOk<T>(size, Inc(n, id));
    }
  }

  /** The constructor leaves an empty queue that satisfies the invariant. */
  lemma InitInv<T>(max: nat, size: nat)
    requires 2 <= max && IsPow2(max) && 0 < size
    ensures Inv(Init<T>(max, size)) && Contents(Init<T>(max, size).h.l) == []
  {
    CountSuffices(max, size);
    CircleOk<T>(max, BlockSize(max, size), BlockCount(max, size));
    var l: Layout<T> := FirstLayout(BlockCount(max, size));
    UptoNothing(l.ring, l.items, 1);
  }

  // The promise over whole runs

  /** The queue has not shrunk below its n blocks of m slots. */
  ghost predicate Grown<T>(q: Queue<T>, p: Producer<T>, n: nat, m: nat) {
    && n <= |q.blocks| && m <= q.largest
    && (forall id :: 0 <= id < |q.blocks| ==> m <= q.blocks[id].size)
    && (p.PNewNext? || p.PLink? ==> m <= p.b.size)
  }

  lemma ProducerGrows<T>(q: Queue<T>, p: Producer<T>, memory: bool, n: nat, m: nat)
    requires ProducerSound(q, p) && Grown(q, p, n, m)
    ensures var r := ProducerStep(q, p, memory); Grown(r.0, r.1, n, m)
  {
  }

  lemma ConsumerGrows<T>(q: Queue<T>, p: Producer<T>, c: Consumer<T>, n: nat, m: nat)
    requires ConsumerSound(q, c) && Grown(q, p, n, m)
    ensures Grown(ConsumerStep(q, c).0, p, n, m)
  {
  }

  lemma {:induction false} FullBlocksHold<T>(ring: seq<nat>, items: seq<seq<T>>, n: nat, each: nat)
    requires 1 <= n
    requires forall k: nat :: 0 < k < n ==> |Slot(ring, items, k)| >= each
    ensures |Upto(ring, items, n)| >= (n - 1) * each
  {
    if n > 1 {
      FullBlocksHold(ring, items, n - 1, each);
      assert (n - 1) * each == (n - 2) * each + each;
    }
  }

  lemma MorePromises(n: nat, m: nat, size: nat, k: nat)
    requires Promises(n, m, size) && n <= k
    ensures Promises(k, m, size)
  {
    MulMono(n - 1, k - 1, m - 1);
    MulMono(1, k - 1, m - 1);
  }

  /** When the producer finds no block to go on with, the queue holds what was promised. */
  lemma NoBlockLeft<T>(q: Queue<T>, p: Producer<T>, c: Consumer<T>, h: History<T>, n: nat, m: nat, size: nat)
    requires Core(q, h.l, p, c) && Witnessed(q, p, c, h)
    requires p.PFrontBlock? && p.n == q.frontBlock
    requires Grown(q, p, n, m) && Promises(n, m, size)
    ensures size <= h.most || size <= |Contents(h.l)|
  {
    var l := h.l;
    var k := |l.ring|;
    MorePromises(n, m, size, k);
    assert Linked(q, l.ring, l.ti) && Linked(q, l.ring, 0) && Apart(l.ring, 0, Inc(k, l.ti));
    assert l.ti + 1 == k;
    if k > 1 {
      forall j: nat | 0 < j < k
        ensures |Slot(l.ring, l.items, j)| >= m - 1
      {
        assert FillOk(q, l, p, j) && Linked(q, l.ring, j);
      }
      FullBlocksHold(l.ring, l.items, k, m - 1);
    }
  }

  /** try_enqueue returns false only if the queue held at least the promised number of elements at some
      instant of the call; enqueue returns false only if there was no memory. */
  lemma RefusalJustified<T>(st: State<T>, memory: bool, n: nat, m: nat, size: nat)
    requires Inv(st) && !st.p.PIdle? && Grown(st.q, st.p, n, m) && Promises(n, m, size)
    ensures var st' := Step(st, Produce(memory));
      && Grown(st'.q, st'.p, n, m)
      && (st'.p == PIdle(false) ==>
            (st.p.PFrontBlock? && !st.p.can && st'.h.most >= size) || (st.p.PAlloc? && !memory))
  {
    ProduceRefines(st, memory);
    ProducerGrows(st.q, st.p, memory, n, m);
    if st.p.PFrontBlock? && st.p.n == st.q.frontBlock {
      NoBlockLeft(st.q, st.p, st.c, st.h, n, m, size);
    }
  }

  // Runs

  ghost predicate Good<T>(st: State<T>, n: nat, m: nat) {
    Inv(st) && Grown(st.q, st.p, n, m)
  }

  lemma StepGood<T>(st: State<T>, move: Move<T>, n: nat, m: nat)
    requires Good(st, n, m) && Runnable(st, move)
    ensures Good(Step(st, move), n, m)
  {
    match move
    case Produce(memory) =>
      ProduceRefines(st, memory);
      ProducerGrows(st.q, st.p, memory, n, m);
    case Consume =>
      ConsumeRefines(st);
      ConsumerGrows(st.q, st.p, st.c, n, m);
    case Enqueue(x, can) => Begins(st.q, st.h.l, st.p, st.c, PTailBlock(x, can), st.c);
    case Call(op) => Begins(st.q, st.h.l, st.p, st.c, st.p, CFrontBlock(op));
  }

  /** Starting a call changes nothing that the invariant speaks of. */
  lemma Begins<T>(q: Queue<T>, l: Layout<T>, p: Producer<T>, c: Consumer<T>, p': Producer<T>, c': Consumer<T>)
    requires Core(q, l, p, c)
    requires p' == p || (p.PIdle? && p'.PTailBlock?)
    requires c' == c || (c.CIdle? && c'.CFrontBlock?)
    ensures Core(q, l, p', c')
  {
    forall k: nat
      ensures FillOk(q, l, p', k)
    {
      assert FillOk(q, l, p, k);
    }
    forall id: nat
      ensures BlockAt(q, l, p', c', id)
    {
      assert BlockAt(q, l, p, c, id);
    }
  }

  lemma {:induction false} RunGood<T>(from: State<T>, moves: seq<Move<T>>, to: State<T>, n: nat, m: nat)
    requires Good(from, n, m) && Run(from, moves, to)
    ensures Good(to, n, m)
    decreases |moves|
  {
    if moves != [] {
      StepGood(from, moves[0], n, m);
      RunGood(Step(from, moves[0]), moves[1..], to, n, m);
    }
  }

  /** For every constructor argument and every interleaving: no internal assertion fails and no unused or
      destroyed slot is read, and the elements removed so far followed by the elements held are
      the elements enqueued so far, in order. */
  lemma EveryRunIsFifo<T>(max: nat, size: nat, moves: seq<Move<T>>, to: State<T>)
    requires 2 <= max && IsPow2(max) && 0 < size
    requires Run(Init(max, size), moves, to)
    ensures !to.fault
    ensures to.h.dequeued + Contents(to.h.l) == to.h.enqueued
    ensures Good(to, BlockCount(max, size), BlockSize(max, size))
  {
    InitInv<T>(max, size);
    CountSuffices(max, size);
    RunGood(Init(max, size), moves, to, BlockCount(max, size), BlockSize(max, size));
  }

  /** In every reachable state a refused try_enqueue has met a queue with at least `size` elements. */
  lemma RefusesOnlyWhenFull<T>(max: nat, size: nat, moves: seq<Move<T>>, st: State<T>, memory: bool)
    requires 2 <= max && IsPow2(max) && 0 < size
    requires Run(Init(max, size), moves, st) && !st.p.PIdle?
    ensures var st' := Step(st, Produce(memory));
      st'.p == PIdle(false) ==> (st.p.PFrontBlock? && !st.p.can && st'.h.most >= size) || (st.p.PAlloc? && !memory)
  {
    EveryRunIsFifo(max, size, moves, st);
    CountSuffices(max, size);
    RefusalJustified(st, memory, BlockCount(max, size), BlockSize(max, size), size);
  }

  // Each call ends after a bounded number of its own steps, whatever the other thread does

  function ProducerRank<T>(p: Producer<T>): nat {
    match p
    case PIdle(_) => 0
    case PTailBlock(_, _) => 13
    case PLocalFront(_, _, _) => 12
    case PTail(_, _, _, _) => 11
    case PFront(_, _, _, _) => 10
    case PConstruct(_, _, _) => 2
    case PStoreTail(_, _, _) => 1
    case PNext(_, _, _) => 9
    case PFrontBlock(_, _, _, _) => 8
    case PNextAgain(_, _) => 7
    case PNextFront(_, _) => 6
    case PNextTail(_, _, _) => 5
    case PNextConstruct(_, _, _) => 3
    case PNextStoreTail(_, _, _) => 2
    case PAlloc(_, _) => 6
    case PNewNext(_, _, _) => 5
    case PLink(_, _, _) => 4
    case PPublish(_, _) => 1
  }

  function ConsumerRank<T>(c: Consumer<T>): nat {
    match c
    case CIdle(_) => 0
    case CFrontBlock(_) => 14
    case CLocalTail(_, _) => 13
    case CFront(_, _, _) => 12
    case CTail(_, _, _) => 11
    case CTailBlock(_, _) => 10
    case CFrontBlockAgain(_) => 9
    case CTailAgain(_, _) => 8
    case CFrontAgain(_, _, _) => 7
    case CNext(_, _) => 6
    case CNextFront(_, _) => 5
    case CNextTail(_, _, _) => 4
    case CAdvance(_, _, _) => 3
    case CTake(_, _, _) => 2
    case CStoreFront(_, _, _, _) => 1
  }

  lemma ProducerAdvances<T>(q: Queue<T>, p: Producer<T>, memory: bool)
    requires ProducerSound(q, p)
    ensures ProducerRank(ProducerStep(q, p, memory).1) < ProducerRank(p) <= 13
  {
  }

  lemma ConsumerAdvances<T>(q: Queue<T>, c: Consumer<T>)
    requires ConsumerSound(q, c)
    ensures ConsumerRank(ConsumerStep(q, c).1) < ConsumerRank(c) <= 14
  {
  }

  /** Both roles are wait-free: a call that has started ends after at most 13, respectively 14, of its own steps. */
  lemma WaitFree<T>(st: State<T>, memory: bool)
    requires Inv(st)
    ensures !st.p.PIdle? ==> ProducerRank(Step(st, Produce(memory)).p) < ProducerRank(st.p) <= 13
    ensures !st.c.CIdle? ==> ConsumerRank(Step(st, Consume).c) < ConsumerRank(st.c) <= 14
  {
    if !st.p.PIdle? {
      assert ProducerSound(st.q, st.p) by { ProducerKeeps(st.q, st.h.l, st.p, st.c, memory); }
      ProducerAdvances(st.q, st.p, memory);
    }
    if !st.c.CIdle? {
      assert ConsumerSound(st.q, st.c) by { ConsumerKeeps(st.q, st.h.l, st.p, st.c); }
      ConsumerAdvances(st.q, st.c);
    }
  }

  // size_approx and max_capacity

  /** The slots that blocks at positions 0, ..., n - 1 of the ring can fill. */
  ghost function Usable<T>(q: Queue<T>, ring: seq<nat>, n: nat): int {
    if n == 0 then 0
    else Usable(q, ring, n - 1) + (if n <= |ring| && ring[n - 1] < |q.blocks| then q.blocks[ring[n - 1]].size - 1 else 0)
  }

  lemma {:induction false} UsableAtLeast<T>(q: Queue<T>, ring: seq<nat>, n: nat, each: nat)
    requires n <= |ring|
    requires forall k :: 0 <= k < n ==> ring[k] < |q.blocks| && q.blocks[ring[k]].size >= each + 1
    ensures Usable(q, ring, n) >= n * each
  {
    if n > 0 {
      UsableAtLeast(q, ring, n - 1, each);
      assert n * each == (n - 1) * each + each;
    }
  }

  lemma UsableSuffices<T>(q: Queue<T>, l: Layout<T>, p: Producer<T>, n: nat, m: nat, size: nat)
    requires RingOk(q, l) && Grown(q, p, n, m) && Promises(n, m, size)
    ensures Usable(q, l.ring, |l.ring|) >= size
  {
    var k := |l.ring|;
    MorePromises(n, m, size, k);
    forall j | 0 <= j < k
      ensures l.ring[j] < |q.blocks| && q.blocks[l.ring[j]].size >= m
    {
      assert Linked(q, l.ring, j);
    }
    UsableAtLeast(q, l.ring, k, m - 1);
    assert k * (m - 1) == (k - 1) * (m - 1) + (m - 1);
  }

  /** `max_capacity`: every block but its spare slot, counted once around the ring. */
  method MaxCapacity<T>(q: Queue<T>, ghost l: Layout<T>) returns (result: nat)
    requires RingOk(q, l)
    requires forall id :: 0 <= id < |q.blocks| ==> 0 < q.blocks[id].size
    ensures result == Usable(q, l.ring, |l.ring|)
  {
    result := 0;
    var block, first := q.frontBlock, true;
    ghost var k := 0;
    while first || block != q.frontBlock
      invariant k <= |l.ring| && first == (k == 0) && result == Usable(q, l.ring, k)
      invariant block == if k < |l.ring| then l.ring[k] else q.frontBlock
      decreases |l.ring| - k
    {
      assert Linked(q, l.ring, k);
      result := result + (q.blocks[block].size - 1);
      block := q.blocks[block].next;
      first := false;
      k := k + 1;
    }
    assert Apart(l.ring, 0, k);
  }

  /** `size_approx`, called while neither thread is inside an operation, is exact. */
  method SizeApprox<T>(q: Queue<T>, ghost l: Layout<T>, word: nat) returns (result: nat)
    requires Core(q, l, PIdle(true), CIdle(Nothing))
    requires forall id :: 0 <= id < |q.blocks| ==> q.blocks[id].size <= Pow2(word)
    ensures result == |Contents(l)|
  {
    result := 0;
    var block, first := q.frontBlock, true;
    ghost var k := 0;
    while first || block != q.frontBlock
      invariant k <= |l.ring| && first == (k == 0) && result == |Upto(l.ring, l.items, k)|
      invariant block == if k < |l.ring| then l.ring[k] else q.frontBlock
      decreases |l.ring| - k
    {
      assert Linked(q, l.ring, k);
      BlockLength(q, l, block, word);
      var b := q.blocks[block];
      result := result + And(Minus(b.tail, b.front, Pow2(word)), b.size - 1);
      block := b.next;
      first := false;
      k := k + 1;
    }
    assert Apart(l.ring, 0, k);
    EmptyBeyond(q, l, k);
  }

  lemma BlockLength<T>(q: Queue<T>, l: Layout<T>, id: nat, word: nat)
    requires Core(q, l, PIdle(true), CIdle(Nothing)) && id < |q.blocks| && q.blocks[id].size <= Pow2(word)
    ensures q.blocks[id].size > 0 && Minus(q.blocks[id].tail, q.blocks[id].front, Pow2(word)) >= 0
    ensures And(Minus(q.blocks[id].tail, q.blocks[id].front, Pow2(word)), q.blocks[id].size - 1) == |l.items[id]|
  {
    assert BlockAt(q, l, PIdle(true), CIdle(Nothing), id);
    MaskedMinus(q.blocks[id].size, q.blocks[id].tail, q.blocks[id].front, word);
  }

  lemma {:induction false} EmptyBeyond<T>(q: Queue<T>, l: Layout<T>, k: nat)
    requires Core(q, l, PIdle(true), CIdle(Nothing)) && l.ti < k <= |l.ring|
    ensures Upto(l.ring, l.items, k) == Contents(l)
    decreases k
  {
    if k > l.ti + 1 {
      EmptyBeyond(q, l, k - 1);
      assert FillOk(q, l, PIdle(true), k - 1);
    }
  }
}
