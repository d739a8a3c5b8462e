/** What max_capacity counts: no state holds more elements, and an empty queue takes exactly so many without allocating. */
module SpscFilling {
  import opened Bits
  import opened SpscQueue
  import opened SpscBlocks
  import opened SpscInvariant
  import opened SpscProducer
  import opened SpscConsumer
  import opened SpscResults
  import opened SpscCapacity
  import opened SpscCalls

  /** The slots of all blocks that can hold elements. */
  ghost function Capacity<T>(st: State<T>): int {
    Usable(st.q, st.h.l.ring, |st.h.l.ring|)
  }

  lemma {:induction false} UptoWithin<T>(q: Queue<T>, l: Layout<T>, p: Producer<T>, c: Consumer<T>, n: nat)
    requires RingOk(q, l) && BlocksOk(q, l, p, c) && n <= |l.ring|
    ensures |Upto(l.ring, l.items, n)| <= Usable(q, l.ring, n)
  {
    if n > 0 {
      UptoWithin(q, l, p, c, n - 1);
      assert Linked(q, l.ring, n - 1) && BlockAt(q, l, p, c, l.ring[n - 1]);
    }
  }

  lemma {:induction false} UsableGrows<T>(q: Queue<T>, l: Layout<T>, p: Producer<T>, c: Consumer<T>, k: nat, n: nat)
    requires RingOk(q, l) && BlocksOk(q, l, p, c) && k <= n <= |l.ring|
    ensures Usable(q, l.ring, k) <= Usable(q, l.ring, n)
    decreases n
  {
    if k < n {
      UsableGrows(q, l, p, c, k, n - 1);
      assert Linked(q, l.ring, n - 1) && BlockAt(q, l, p, c, l.ring[n - 1]);
    }
  }

  /** No state holds more than max_capacity counts. */
  lemma NeverOverfull<T>(st: State<T>)
    requires Inv(st)
    ensures |Contents(st.h.l)| <= Capacity(st)
  {
    var l := st.h.l;
    UptoWithin(st.q, l, st.p, st.c, l.ti + 1);
    UsableGrows(st.q, l, st.p, st.c, l.ti + 1, |l.ring|);
  }

  /** While the consumer is idle, the front block is filled before the producer leaves it. */
  ghost predicate FrontFirst<T>(q: Queue<T>, l: Layout<T>, p: Producer<T>)
    requires RingOk(q, l)
  {
    l.ti > 0 || p.PNext? || p.PFrontBlock? || p.PNextAgain? || p.PNextFront? || p.PNextTail? || p.PNextConstruct?
    || p.PNextStoreTail? || p.PPublish? ==>
      |l.items[q.frontBlock]| + 1 == q.blocks[q.frontBlock].size
  }

  ghost predicate FullAt<T>(q: Queue<T>, l: Layout<T>, k: nat)
    requires RingOk(q, l)
  {
    k < |l.ring| && l.ring[k] < |q.blocks| && |Slot(l.ring, l.items, k)| + 1 == q.blocks[l.ring[k]].size
  }

  lemma {:induction false} UptoFull<T>(q: Queue<T>, l: Layout<T>, n: nat)
    requires RingOk(q, l) && n <= |l.ring|
    requires forall k: nat :: k < n ==> FullAt(q, l, k)
    ensures |Upto(l.ring, l.items, n)| == Usable(q, l.ring, n)
  {
    if n > 0 {
      UptoFull(q, l, n - 1);
      assert FullAt(q, l, n - 1);
    }
  }

  /** When there is no room left, every block is full. */
  lemma NoRoomIsCapacity<T>(st: State<T>)
    requires Inv(st) && st.p.PIdle? && FrontFirst(st.q, st.h.l, st.p) && !HasRoom(st.q, st.h.l)
    ensures |Contents(st.h.l)| == Capacity(st)
  {
    var q, l := st.q, st.h.l;
    forall k: nat | k < |l.ring|
      ensures FullAt(q, l, k)
    {
      assert FillOk(q, l, st.p, k) && Linked(q, l.ring, k) && BlockAt(q, l, st.p, st.c, l.ring[k]);
    }
    UptoFull(q, l, |l.ring|);
  }

  ghost predicate SameBlocks<T>(q: Queue<T>, q': Queue<T>) {
    |q'.blocks| == |q.blocks| && forall id :: 0 <= id < |q.blocks| ==> q'.blocks[id].size == q.blocks[id].size
  }

  lemma {:induction false} UsableSame<T>(q: Queue<T>, q': Queue<T>, ring: seq<nat>, n: nat)
    requires SameBlocks(q, q')
    ensures Usable(q', ring, n) == Usable(q, ring, n)
  {
    if n > 0 {
      UsableSame(q, q', ring, n - 1);
    }
  }

  /** What a call without allocation keeps while the consumer is idle. */
  ghost predicate Alone<T>(from: State<T>, st: State<T>) {
    && Inv(st) && st.c == from.c && st.c.CIdle? && FrontFirst(st.q, st.h.l, st.p)
    && SameBlocks(from.q, st.q) && st.h.l.ring == from.h.l.ring && !Allocates(st.p)
  }

  lemma FrontStays<T>(st: State<T>)
    requires Inv(st) && !st.p.PIdle? && FrontFirst(st.q, st.h.l, st.p) && !Allocates(st.p)
    ensures var st' := Step(st, Produce(false)); Inv(st') && (!st'.p.PAlloc? ==> FrontFirst(st'.q, st'.h.l, st'.p))
  {
    ProduceRefines(st, false);
    var st' := Step(st, Produce(false));
    if st.p.PFront? && st'.p.PNext? && st.h.l.ti == 0 {
      assert BlockAt(st.q, st.h.l, st.p, st.c, st.p.tb);
      NextIs(st.q.blocks[st.p.tb].size, st.p.bt);
      NoRoomIsFull(st.q.blocks[st.p.tb], |st.h.l.items[st.p.tb]|);
    }
    assert Apart(st.h.l.ring, 0, st.h.l.ti) && Apart(st.h.l.ring, 0, st.h.l.ti + 1);
  }

  lemma BlocksStay<T>(st: State<T>)
    requires Inv(st) && !st.p.PIdle? && !Allocates(st.p)
    ensures var st' := Step(st, Produce(false)); st'.c == st.c && SameBlocks(st.q, st'.q) && st'.h.l.ring == st.h.l.ring
  {
    ProduceRefines(st, false);
  }

  lemma AloneStep<T>(from: State<T>, st: State<T>)
    requires Alone(from, st) && !st.p.PIdle? && RoomLeft(st.q, st.h.l, st.p)
    ensures var st' := Step(st, Produce(false)); Alone(from, st') && RoomLeft(st'.q, st'.h.l, st'.p) && st'.p != PIdle(false)
  {
    ProduceRefines(st, false);
    RoomStays(st, false);
    FrontStays(st);
    BlocksStay(st);
  }

  /** The call runs to its end. */
  lemma {:induction false} CallAlone<T>(from: State<T>, st: State<T>) returns (moves: seq<Move<T>>, to: State<T>)
    requires Alone(from, st) && RoomLeft(st.q, st.h.l, st.p) && !st.p.PIdle?
    ensures Run(st, moves, to) && Alone(from, to) && to.p == PIdle(true)
    ensures |Contents(to.h.l)| == |Contents(st.h.l)| + 1
    ensures forall i :: 0 <= i < |moves| ==> moves[i].Produce?
    decreases ProducerRank(st.p)
  {
    var next := Step(st, Produce(false));
    AloneStep(from, st);
    ProduceRefines(st, false);
    WaitFree(st, false);
    if next.p.PIdle? {
      moves, to := [Produce(false)], next;
      assert Run(next, [], to);
    } else {
      var rest;
      rest, to := CallAlone(from, next);
      moves := [Produce(false)] + rest;
      assert moves[1..] == rest;
    }
  }

  lemma {:induction false} RunAppend<T>(a: State<T>, xs: seq<Move<T>>, b: State<T>, ys: seq<Move<T>>, c: State<T>)
    requires Run(a, xs, b) && Run(b, ys, c)
    ensures Run(a, xs + ys, c)
    decreases |xs|
  {
    if xs == [] {
      assert xs + ys == ys;
    } else {
      RunAppend(Step(a, xs[0]), xs[1..], b, ys, c);
      assert (xs + ys)[1..] == xs[1..] + ys;
    }
  }

  /** Only try_enqueue of x is called, and only its steps are made. */
  ghost predicate TriesOnly<T>(moves: seq<Move<T>>, x: T) {
    forall i :: 0 <= i < |moves| ==> moves[i] == Enqueue(x, false) || moves[i].Produce?
  }

  lemma {:induction false} FillUp<T>(from: State<T>, st: State<T>, x: T) returns (moves: seq<Move<T>>, to: State<T>)
    requires Alone(from, st) && st.p.PIdle?
    ensures Run(st, moves, to) && Alone(from, to) && to.p.PIdle? && TriesOnly(moves, x)
    ensures |Contents(to.h.l)| == Capacity(to)
    decreases Capacity(st) - |Contents(st.h.l)|
  {
    NeverOverfull(st);
    if HasRoom(st.q, st.h.l) {
      var begun := Step(st, Enqueue(x, false));
      Begins(st.q, st.h.l, st.p, st.c, begun.p, st.c);
      var call, mid := CallAlone(from, begun);
      UsableSame(from.q, st.q, st.h.l.ring, |st.h.l.ring|);
      UsableSame(from.q, mid.q, st.h.l.ring, |st.h.l.ring|);
      NeverOverfull(mid);
      var first := [Enqueue(x, false)] + call;
      assert first[1..] == call;
      var rest;
      rest, to := FillUp(from, mid, x);
      RunAppend(st, first, mid, rest, to);
      moves := first + rest;
    } else {
      NoRoomIsCapacity(st);
      moves, to := [], st;
    }
  }

  /** An idle empty queue takes exactly as many elements as max_capacity counts, by calls of try_enqueue and without a new
      block. */
  lemma CapacityAttained<T>(st: State<T>, x: T) returns (moves: seq<Move<T>>, to: State<T>)
    requires Inv(st) && st.p.PIdle? && st.c.CIdle? && Contents(st.h.l) == []
    ensures Run(st, moves, to) && TriesOnly(moves, x) && Inv(to) && SameBlocks(st.q, to.q)
    ensures |Contents(to.h.l)| == Capacity(to) == Capacity(st)
  {
    EmptyIsFirst(st);
    moves, to := FillUp(st, st, x);
    UsableSame(st.q, to.q, st.h.l.ring, |st.h.l.ring|);
  }

  lemma EmptyIsFirst<T>(st: State<T>)
    requires Inv(st) && Contents(st.h.l) == []
    ensures st.h.l.ti == 0
  {
    assert FillOk(st.q, st.h.l, st.p, st.h.l.ti);
  }
}
