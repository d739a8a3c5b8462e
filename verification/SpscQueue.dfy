/** The single-producer single-consumer queue as two step machines over shared
    memory, one atomic load or store per step. A block is a power-of-two ring with
    one slot kept free; the blocks form a circular list that grows but never shrinks. */
module SpscQueue {
  import opened Bits

  datatype Cell<T> = Raw | Full(value: T)

  /** front and localTail are written by the consumer only, tail, localFront and next by the producer only. */
  datatype Block<T> = Block(size: nat, front: nat, localTail: nat, tail: nat, localFront: nat, next: nat,
                            data: seq<Cell<T>>)

  /** Blocks are named by their position in `blocks`; max is MAX_BLOCK_SIZE and largest is largestBlockSize. */
  datatype Queue<T> = Queue(max: nat, blocks: seq<Block<T>>, frontBlock: nat, tailBlock: nat, largest: nat)

  // A program counter names the access that comes next, and carries the registers that are live there.

  /** inner_enqueue(x); can says whether it is CanAlloc. */
  datatype Producer<T> =
    | PIdle(ok: bool)
    | PTailBlock(x: T, can: bool)
    | PLocalFront(x: T, can: bool, tb: nat)
    | PTail(x: T, can: bool, tb: nat, bf: nat)
    | PFront(x: T, can: bool, tb: nat, bt: nat)
    | PConstruct(x: T, tb: nat, bt: nat)
    | PStoreTail(x: T, tb: nat, bt: nat)
    | PNext(x: T, can: bool, tb: nat)
    | PFrontBlock(x: T, can: bool, tb: nat, n: nat)
    | PNextAgain(x: T, tb: nat)
    | PNextFront(x: T, tn: nat)
    | PNextTail(x: T, tn: nat, nf: nat)
    | PNextConstruct(x: T, tn: nat, nt: nat)
    | PNextStoreTail(x: T, tn: nat, nt: nat)
    | PAlloc(x: T, tb: nat)
    | PNewNext(x: T, tb: nat, b: Block<T>)
    | PLink(x: T, tb: nat, b: Block<T>)
    | PPublish(x: T, tn: nat)

  datatype Op = Dequeue | Pop | Peek

  /** What a consumer call returned: nothing, the element it removed, or the element it points at. */
  datatype Outcome<T> = Nothing | Removed(value: T) | Seen(value: T)

  datatype Consumer<T> =
    | CIdle(result: Outcome<T>)
    | CFrontBlock(op: Op)
    | CLocalTail(op: Op, fb: nat)
    | CFront(op: Op, fb: nat, bt: nat)
    | CTail(op: Op, fb: nat, bf: nat)
    | CTailBlock(op: Op, fb: nat)
    | CFrontBlockAgain(op: Op)
    | CTailAgain(op: Op, fb: nat)
    | CFrontAgain(op: Op, fb: nat, bt: nat)
    | CNext(op: Op, fb: nat)
    | CNextFront(op: Op, nb: nat)
    | CNextTail(op: Op, nb: nat, nf: nat)
    | CAdvance(op: Op, nb: nat, nf: nat)
    | CTake(op: Op, fb: nat, bf: nat)
    | CStoreFront(op: Op, fb: nat, bf: nat, v: T)

  /** Where the elements are: ring lists the blocks from the front block on, ti is the position of
      the tail block in it, and items holds what each block contains. */
  datatype Layout<T> = Layout(ring: seq<nat>, ti: nat, items: seq<seq<T>>)

  /** History that no step reads. enqueued and dequeued log the elements in the order in which they were
      added and removed; wasEmpty says that the queue was empty at some instant of the current consumer
      call, and most is the largest length it had during the current producer call. */
  datatype History<T> = History(l: Layout<T>, enqueued: seq<T>, dequeued: seq<T>, wasEmpty: bool, most: nat)

  /** fault: undefined behaviour or a failed internal assertion has happened. */
  datatype State<T> = State(q: Queue<T>, p: Producer<T>, c: Consumer<T>, h: History<T>, fault: bool)

  datatype Move<T> = Enqueue(x: T, can: bool) | Produce(memory: bool) | Call(op: Op) | Consume

  /** `(i + 1) & sizeMask` */
  function NextIndex(size: nat, i: nat): nat
    requires size > 0
  {
    And(i + 1, size - 1)
  }

  function NewBlock<T>(size: nat, x: T): Block<T>
    requires size > 0
  {
    Block(size, 0, 1, 1, 0, 0, seq(size, i => if i == 0 then Full(x) else Raw))
  }

  function GrownSize<T>(q: Queue<T>): nat {
    if q.largest >= q.max then q.largest else 2 * q.largest
  }

  // inner_enqueue

  predicate Holds<T>(q: Queue<T>, id: nat) {
    id < |q.blocks| && q.blocks[id].size > 0
  }

  /** The memory location that is written next is unused. */
  predicate IsRaw<T>(q: Queue<T>, id: nat, i: nat) {
    Holds(q, id) && i < |q.blocks[id].data| && q.blocks[id].data[i].Raw?
  }

  predicate IsFull<T>(q: Queue<T>, id: nat, i: nat) {
    Holds(q, id) && i < |q.blocks[id].data| && q.blocks[id].data[i].Full?
  }

  /** The producer's next step has a meaning and its internal assertions hold. */
  predicate ProducerSound<T>(q: Queue<T>, p: Producer<T>) {
    match p
    case PIdle(_) => false
    case PTailBlock(_, _) => true
    case PLocalFront(_, _, tb) => Holds(q, tb)
    case PTail(_, _, tb, _) => Holds(q, tb)
    case PFront(_, _, tb, _) => Holds(q, tb)
    case PConstruct(_, tb, bt) => IsRaw(q, tb, bt)
    case PStoreTail(_, tb, _) => Holds(q, tb)
    case PNext(_, _, tb) => Holds(q, tb)
    case PFrontBlock(_, _, _, _) => true
    case PNextAgain(_, tb) => Holds(q, tb)
    case PNextFront(_, tn) => Holds(q, tn)
    case PNextTail(_, tn, nf) => Holds(q, tn) && nf == q.blocks[tn].tail
    case PNextConstruct(_, tn, nt) => IsRaw(q, tn, nt)
    case PNextStoreTail(_, tn, _) => Holds(q, tn)
    case PAlloc(_, _) => GrownSize(q) > 0
    case PNewNext(_, tb, _) => Holds(q, tb)
    case PLink(_, tb, _) => Holds(q, tb)
    case PPublish(_, _) => true
  }

  function WithBlock<T>(q: Queue<T>, id: nat, b: Block<T>): Queue<T>
    requires id < |q.blocks|
  {
    q.(blocks := q.blocks[id := b])
  }

  function ProducerStep<T>(q: Queue<T>, p: Producer<T>, memory: bool): (Queue<T>, Producer<T>)
    requires ProducerSound(q, p)
  {
    match p
    case PTailBlock(x, can) => (q, PLocalFront(x, can, q.tailBlock))
    case PLocalFront(x, can, tb) => (q, PTail(x, can, tb, q.blocks[tb].localFront))
    case PTail(x, can, tb, bf) =>
      var b := q.blocks[tb];
      (q, if NextIndex(b.size, b.tail) != bf then PConstruct(x, tb, b.tail) else PFront(x, can, tb, b.tail))
    case PFront(x, can, tb, bt) =>
      var b := q.blocks[tb];
      (WithBlock(q, tb, b.(localFront := b.front)),
       if NextIndex(b.size, bt) != b.front then PConstruct(x, tb, bt) else PNext(x, can, tb))
    case PConstruct(x, tb, bt) =>
      var b := q.blocks[tb];
      (WithBlock(q, tb, b.(data := b.data[bt := Full(x)])), PStoreTail(x, tb, bt))
    case PStoreTail(x, tb, bt) =>
      var b := q.blocks[tb];
      (WithBlock(q, tb, b.(tail := NextIndex(b.size, bt))), PIdle(true))
    case PNext(x, can, tb) => (q, PFrontBlock(x, can, tb, q.blocks[tb].next))
    case PFrontBlock(x, can, tb, n) =>
      (q, if n != q.frontBlock then PNextAgain(x, tb) else if can then PAlloc(x, tb) else PIdle(false))
    case PNextAgain(x, tb) => (q, PNextFront(x, q.blocks[tb].next))
    case PNextFront(x, tn) =>
      var b := q.blocks[tn];
      (WithBlock(q, tn, b.(localFront := b.front)), PNextTail(x, tn, b.front))
    case PNextTail(x, tn, nf) =>
      var b := q.blocks[tn];
      (WithBlock(q, tn, b.(localFront := nf)), PNextConstruct(x, tn, b.tail))
    case PNextConstruct(x, tn, nt) =>
      var b := q.blocks[tn];
      (WithBlock(q, tn, b.(data := b.data[nt := Full(x)])), PNextStoreTail(x, tn, nt))
    case PNextStoreTail(x, tn, nt) =>
      var b := q.blocks[tn];
      (WithBlock(q, tn, b.(tail := NextIndex(b.size, nt))), PPublish(x, tn))
    case PAlloc(x, tb) =>
      if memory then (q.(largest := GrownSize(q)), PNewNext(x, tb, NewBlock(GrownSize(q), x))) else (q, PIdle(false))
    case PNewNext(x, tb, b) => (q, PLink(x, tb, b.(next := q.blocks[tb].next)))
    case PLink(x, tb, b) =>
      var id := |q.blocks|;
      (q.(blocks := q.blocks[tb := q.blocks[tb].(next := id)] + [b]), PPublish(x, id))
    case PPublish(x, tn) => (q.(tailBlock := tn), PIdle(true))
  }

  // try_dequeue, pop and peek

  predicate ConsumerSound<T>(q: Queue<T>, c: Consumer<T>) {
    match c
    case CIdle(_) => false
    case CFrontBlock(_) => true
    case CLocalTail(_, fb) => Holds(q, fb)
    case CFront(_, fb, _) => Holds(q, fb)
    case CTail(_, fb, _) => Holds(q, fb)
    case CTailBlock(_, fb) => true
    case CFrontBlockAgain(_) => true
    case CTailAgain(_, fb) => Holds(q, fb)
    case CFrontAgain(_, fb, _) => Holds(q, fb)
    case CNext(_, fb) => Holds(q, fb)
    case CNextFront(_, nb) => Holds(q, nb)
    case CNextTail(op, nb, nf) => Holds(q, nb) && nf != q.blocks[nb].tail && (op.Peek? ==> IsFull(q, nb, nf))
    case CAdvance(_, _, _) => true
    case CTake(_, fb, bf) => IsFull(q, fb, bf)
    case CStoreFront(_, fb, _, _) => Holds(q, fb)
  }

  function ConsumerStep<T>(q: Queue<T>, c: Consumer<T>): (Queue<T>, Consumer<T>)
    requires ConsumerSound(q, c)
  {
    match c
    case CFrontBlock(op) => (q, CLocalTail(op, q.frontBlock))
    case CLocalTail(op, fb) => (q, CFront(op, fb, q.blocks[fb].localTail))
    case CFront(op, fb, bt) =>
      var b := q.blocks[fb];
      (q, if b.front != bt then CTake(op, fb, b.front) else CTail(op, fb, b.front))
    case CTail(op, fb, bf) =>
      var b := q.blocks[fb];
      (WithBlock(q, fb, b.(localTail := b.tail)), if bf != b.tail then CTake(op, fb, bf) else CTailBlock(op, fb))
    case CTailBlock(op, fb) => (q, if fb != q.tailBlock then CFrontBlockAgain(op) else CIdle(Nothing))
    case CFrontBlockAgain(op) => (q, CTailAgain(op, q.frontBlock))
    case CTailAgain(op, fb) =>
      var b := q.blocks[fb];
      (WithBlock(q, fb, b.(localTail := b.tail)), CFrontAgain(op, fb, b.tail))
    case CFrontAgain(op, fb, bt) =>
      var b := q.blocks[fb];
      (q, if b.front != bt then CTake(op, fb, b.front) else CNext(op, fb))
    case CNext(op, fb) => (q, CNextFront(op, q.blocks[fb].next))
    case CNextFront(op, nb) => (q, CNextTail(op, nb, q.blocks[nb].front))
    case CNextTail(op, nb, nf) =>
      var b := q.blocks[nb];
      if op.Peek? then (q, CIdle(Seen(b.data[nf].value)))
      else (WithBlock(q, nb, b.(localTail := b.tail)), CAdvance(op, nb, nf))
    case CAdvance(op, nb, nf) => (q.(frontBlock := nb), CTake(op, nb, nf))
    case CTake(op, fb, bf) =>
      var b := q.blocks[fb];
      var v := b.data[bf].value;
      if op.Peek? then (q, CIdle(Seen(v)))
      else (WithBlock(q, fb, b.(data := b.data[bf := Raw])), CStoreFront(op, fb, bf, v))
    case CStoreFront(op, fb, bf, v) =>
      var b := q.blocks[fb];
      (WithBlock(q, fb, b.(front := NextIndex(b.size, bf))), CIdle(Removed(v)))
  }

  // The history

  /** What the block at position k of the ring holds. */
  ghost function Slot<T>(ring: seq<nat>, items: seq<seq<T>>, k: nat): seq<T> {
    if k < |ring| && ring[k] < |items| then items[ring[k]] else []
  }

  /** The elements of the first n blocks of the ring, oldest first. */
  ghost function Upto<T>(ring: seq<nat>, items: seq<seq<T>>, n: nat): seq<T> {
    if n == 0 then [] else Upto(ring, items, n - 1) + Slot(ring, items, n - 1)
  }

  /** The sequence that the queue represents: the contents of the front block to the tail block. */
  ghost function Contents<T>(l: Layout<T>): seq<T> {
    Upto(l.ring, l.items, l.ti + 1)
  }

  ghost function ProducerLayout<T>(l: Layout<T>, p: Producer<T>): Layout<T> {
    match p
    case PStoreTail(x, tb, _) => if tb < |l.items| then l.(items := l.items[tb := l.items[tb] + [x]]) else l
    case PNextStoreTail(x, tn, _) => if tn < |l.items| then l.(items := l.items[tn := [x]]) else l
    case PLink(x, _, _) =>
      if l.ti < |l.ring|
      then Layout(l.ring[..l.ti + 1] + [|l.items|] + l.ring[l.ti + 1..], l.ti, l.items + [[x]])
      else l
    case PPublish(x, _) => l.(ti := l.ti + 1)
    case _ => l
  }

  ghost function ConsumerLayout<T>(l: Layout<T>, c: Consumer<T>): Layout<T> {
    match c
    case CAdvance(_, _, _) =>
      if 0 < l.ti < |l.ring| then Layout(l.ring[1..] + [l.ring[0]], l.ti - 1, l.items) else l
    case CStoreFront(_, fb, _, _) =>
      if fb < |l.items| && |l.items[fb]| > 0 then l.(items := l.items[fb := l.items[fb][1..]]) else l
    case _ => l
  }

  ghost function Observe<T>(h: History<T>): History<T> {
    var held := Contents(h.l);
    h.(wasEmpty := h.wasEmpty || held == [], most := if |held| > h.most then |held| else h.most)
  }

  ghost function ProducerNotes<T>(h: History<T>, p: Producer<T>): History<T> {
    h.(l := ProducerLayout(h.l, p),
       enqueued := if p.PStoreTail? || p.PPublish? then h.enqueued + [p.x] else h.enqueued)
  }

  ghost function ConsumerNotes<T>(h: History<T>, c: Consumer<T>): History<T> {
    h.(l := ConsumerLayout(h.l, c),
       dequeued := if c.CStoreFront? then h.dequeued + [c.v] else h.dequeued)
  }

  // Runs

  ghost predicate Runnable<T>(st: State<T>, m: Move<T>) {
    match m
    case Enqueue(_, _) => st.p.PIdle?
    case Produce(_) => !st.p.PIdle?
    case Call(_) => st.c.CIdle?
    case Consume => !st.c.CIdle?
  }

  ghost function Step<T>(st: State<T>, m: Move<T>): State<T>
    requires Runnable(st, m)
  {
    match m
    case Enqueue(x, can) =>
      st.(p := PTailBlock(x, can), h := st.h.(most := |Contents(st.h.l)|))
    case Produce(memory) =>
      if ProducerSound(st.q, st.p)
      then var r := ProducerStep(st.q, st.p, memory);
           st.(q := r.0, p := r.1, h := Observe(ProducerNotes(st.h, st.p)))
      else st.(fault := true)
    case Call(op) =>
      st.(c := CFrontBlock(op), h := st.h.(wasEmpty := Contents(st.h.l) == []))
    case Consume =>
      if ConsumerSound(st.q, st.c)
      then var r := ConsumerStep(st.q, st.c);
           st.(q := r.0, c := r.1, h := Observe(ConsumerNotes(st.h, st.c)))
      else st.(fault := true)
  }

  /** `to` is reached from `from` by the moves, in order. */
  ghost predicate Run<T>(from: State<T>, moves: seq<Move<T>>, to: State<T>)
    decreases |moves|
  {
    if moves == [] then from == to
    else Runnable(from, moves[0]) && Run(Step(from, moves[0]), moves[1..], to)
  }
}
