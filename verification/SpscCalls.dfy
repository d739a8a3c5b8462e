/** What the clients of the queue see: the calls they made, and how each of them was answered. A call is recorded when it
    begins; the records look at the queue's contents and at the answers, and not at how a step comes about. */
module SpscCalls {
  import opened Bits
  import opened SpscQueue
  import opened SpscBlocks
  import opened SpscInvariant
  import opened SpscProducer
  import opened SpscConsumer
  import opened SpscResults
  import opened SpscCapacity

  /** An element can be added without a new block: the tail block is not full, or another block is free. */
  ghost predicate HasRoom<T>(q: Queue<T>, l: Layout<T>) {
    || l.ti + 1 < |l.ring|
    || (q.tailBlock < |q.blocks| && q.tailBlock < |l.items| && |l.items[q.tailBlock]| + 1 < q.blocks[q.tailBlock].size)
  }

  /** enqueue(x) if can, otherwise try_enqueue(x). held, room, blocks and largest are what the call began with: the number of
      elements, whether there was room, the number of blocks, the size of the largest. starved: an allocation could have
      failed in the course of the call. fits: there was room when the element went in, or a
      block could be added. */
  datatype PushCall<T> =
    | NoPush
    | PushCall(x: T, can: bool, held: nat, room: bool, blocks: nat, largest: nat, starved: bool, fits: bool)

  /** empty: nothing was there when the call began. */
  datatype PullCall = NoPull | PullCall(op: Op, empty: bool)

  /** The latest call of either thread, the arguments of the insertions that were answered with true, and the results of the
      removals, in order. */
  datatype Client<T> = Client(push: PushCall<T>, pull: PullCall, accepted: seq<T>, returned: seq<T>)

  ghost function PushBegun<T>(st: State<T>, x: T, can: bool): PushCall<T> {
    PushCall(x, can, |Contents(st.h.l)|, HasRoom(st.q, st.h.l), |st.q.blocks|, st.q.largest, false, false)
  }

  /** A step of the call: in st' an element more may be there than in st. */
  ghost function PushGoesOn<T>(call: PushCall<T>, st: State<T>, memory: bool, st': State<T>): PushCall<T> {
    if call.NoPush? then call
    else call.(starved := call.starved || !memory,
               fits := if |Contents(st'.h.l)| > |Contents(st.h.l)| then HasRoom(st.q, st.h.l) || call.can else call.fits)
  }

  ghost function PullBegun<T>(st: State<T>, op: Op): PullCall {
    PullCall(op, Contents(st.h.l) == [])
  }

  ghost function Watch<T>(cl: Client<T>, st: State<T>, m: Move<T>): Client<T>
    requires Runnable(st, m)
  {
    var st' := Step(st, m);
    match m
    case Enqueue(x, can) => cl.(push := PushBegun(st, x, can))
    case Produce(memory) =>
      cl.(push := PushGoesOn(cl.push, st, memory, st'),
          accepted := if st'.p == PIdle(true) && cl.push.PushCall? then cl.accepted + [cl.push.x] else cl.accepted)
    case Call(op) => cl.(pull := PullBegun(st, op))
    case Consume =>
      cl.(returned := if st'.c.CIdle? && st'.c.result.Removed? then cl.returned + [st'.c.result.value] else cl.returned)
  }

  /** What the clients have seen at the end of a run. */
  ghost function Watched<T>(cl: Client<T>, from: State<T>, moves: seq<Move<T>>): Client<T>
    decreases |moves|
  {
    if moves == [] || !Runnable(from, moves[0]) then cl
    else Watched(Watch(cl, from, moves[0]), Step(from, moves[0]), moves[1..])
  }

  // The producer's call

  /** The registers of inner_enqueue still hold its arguments. */
  ghost predicate Argument<T>(p: Producer<T>, x: T, can: bool) {
    && !p.PIdle? && p.x == x
    && (p.PTailBlock? || p.PLocalFront? || p.PTail? || p.PFront? || p.PNext? || p.PFrontBlock? ==> p.can == can)
    && (p.PAlloc? ==> can)
  }

  lemma KeepsArgument<T>(st: State<T>, memory: bool, x: T, can: bool)
    requires Inv(st) && !st.p.PIdle? && Argument(st.p, x, can)
    ensures ProducerSound(st.q, st.p)
    ensures var st' := Step(st, Produce(memory));
      && (!st'.p.PIdle? ==> Argument(st'.p, x, can))
      && st'.h.most == (if |Contents(st'.h.l)| > st.h.most then |Contents(st'.h.l)| else st.h.most)
      && (st'.p == PIdle(false) ==> if can then st.p.PAlloc? else st.p.PFrontBlock?)
  {
    ProduceRefines(st, memory);
  }

  predicate Allocates<T>(p: Producer<T>) {
    p.PAlloc? || p.PNewNext? || p.PLink?
  }

  /** The producer will find the room that was there when it began. */
  ghost predicate RoomLeft<T>(q: Queue<T>, l: Layout<T>, p: Producer<T>) {
    && (p.PTailBlock? || p.PLocalFront? || p.PTail? || p.PFront? ==> HasRoom(q, l))
    && (p.PNext? || p.PFrontBlock? ==> l.ti + 1 < |l.ring|)
  }

  /** The latest producer's call is in order, whether it goes on or has ended. */
  ghost predicate PushOk<T>(st: State<T>, call: PushCall<T>, size: nat) {
    match call
    case NoPush => st.p == PIdle(true)
    case PushCall(x, can, held, room, blocks, largest, starved, fits) =>
      && (!st.p.PIdle? ==> Argument(st.p, x, can) && |Contents(st.h.l)| <= held && st.h.most <= held)
      && blocks <= |st.q.blocks| <= blocks + 1 && (!st.p.PIdle? && !st.p.PPublish? ==> |st.q.blocks| == blocks)
      && (!can || room ==> |st.q.blocks| == blocks && st.q.largest == largest && !Allocates(st.p))
      && (st.p == PIdle(false) || st.p.PAlloc? || st.p.PFrontBlock? ==> |st.q.blocks| == blocks && st.q.largest == largest)
      && (st.p.PTailBlock? || st.p.PLocalFront? || st.p.PTail? || st.p.PFront? || st.p.PNext? ==> st.q.largest == largest)
      && (room ==> RoomLeft(st.q, st.h.l, st.p))
      && (st.p == PIdle(false) ==> !room && if can then starved else size <= held)
      && (st.p == PIdle(true) ==> fits)
  }

  lemma BeginPush<T>(st: State<T>, x: T, can: bool, size: nat)
    requires Inv(st) && st.p.PIdle?
    ensures PushOk(Step(st, Enqueue(x, can)), PushBegun(st, x, can), size)
  {
  }

  /** A free block behind the tail block is not the front block. */
  lemma FreeIsNotFront<T>(q: Queue<T>, l: Layout<T>)
    requires RingOk(q, l) && l.ti + 1 < |l.ring|
    ensures q.blocks[q.tailBlock].next != q.frontBlock
  {
    assert Linked(q, l.ring, l.ti) && Apart(l.ring, 0, l.ti + 1);
  }

  /** The room that the producer has found is there. */
  lemma InsertsWhereRoomIs<T>(st: State<T>)
    requires Inv(st) && Appends(st.p)
    ensures HasRoom(st.q, st.h.l)
  {
    if st.p.PStoreTail? {
      assert BlockAt(st.q, st.h.l, st.p, st.c, st.p.tb);
    }
  }

  /** Blocks are added by one step only, and only by a call that may allocate. */
  lemma BlocksAdded<T>(st: State<T>, memory: bool)
    requires Inv(st) && !st.p.PIdle?
    ensures var st' := Step(st, Produce(memory));
      && |st'.q.blocks| == |st.q.blocks| + (if st.p.PLink? then 1 else 0)
      && (!st.p.PAlloc? || st'.p.PIdle? ==> st'.q.largest == st.q.largest)
      && (st'.p.PAlloc? ==> st.p.PFrontBlock? && st.p.can) && (Allocates(st'.p) ==> st'.p.PAlloc? || Allocates(st.p))
      && (st.p.PLink? <==> st'.p.PPublish? && !st.p.PNextStoreTail?)
  {
    ProduceRefines(st, memory);
  }

  lemma FullTailSeen<T>(st: State<T>, memory: bool)
    requires Inv(st) && st.p.PFront? && HasRoom(st.q, st.h.l)
    ensures var st' := Step(st, Produce(memory)); RoomLeft(st'.q, st'.h.l, st'.p) && (st'.p.PConstruct? || st'.p.PNext?)
  {
    ProduceRefines(st, memory);
    assert BlockAt(st.q, st.h.l, st.p, st.c, st.p.tb);
    NextIs(st.q.blocks[st.p.tb].size, st.p.bt);
    if Step(st, Produce(memory)).p.PNext? {
      NoRoomIsFull(st.q.blocks[st.p.tb], |st.h.l.items[st.p.tb]|);
    }
  }

  lemma RoomStays<T>(st: State<T>, memory: bool)
    requires Inv(st) && !st.p.PIdle? && RoomLeft(st.q, st.h.l, st.p) && !Allocates(st.p)
    ensures var st' := Step(st, Produce(memory));
      && RoomLeft(st'.q, st'.h.l, st'.p) && !Allocates(st'.p) && st'.p != PIdle(false)
      && |st'.q.blocks| == |st.q.blocks| && st'.q.largest == st.q.largest
  {
    ProduceRefines(st, memory);
    BlocksAdded(st, memory);
    if st.p.PFront? {
      FullTailSeen(st, memory);
    } else if st.p.PFrontBlock? {
      FreeIsNotFront(st.q, st.h.l);
    }
  }

  lemma ProduceCall<T>(st: State<T>, memory: bool, call: PushCall<T>, n: nat, m: nat, size: nat)
    requires Good(st, n, m) && Promises(n, m, size) && !st.p.PIdle? && PushOk(st, call, size)
    ensures var st' := Step(st, Produce(memory));
      && PushOk(st', PushGoesOn(call, st, memory, st'), size)
      && call.PushCall? && st.p.x == call.x
  {
    ProduceRefines(st, memory);
    KeepsArgument(st, memory, call.x, call.can);
    RefusalJustified(st, memory, n, m, size);
    BlocksAdded(st, memory);
    if call.room {
      RoomStays(st, memory);
    }
    if Appends(st.p) {
      InsertsWhereRoomIs(st);
    }
  }

  /** What the consumer does leaves the producer's call in order: it can only make room. */
  lemma ConsumeMakesRoom<T>(st: State<T>)
    requires Inv(st) && !st.c.CIdle?
    ensures var st' := Step(st, Consume);
      && |st'.q.blocks| == |st.q.blocks| && st'.q.largest == st.q.largest
      && (HasRoom(st.q, st.h.l) ==> HasRoom(st'.q, st'.h.l))
      && (st.h.l.ti + 1 < |st.h.l.ring| ==> st'.h.l.ti + 1 < |st'.h.l.ring|)
  {
    ConsumeRefines(st);
    assert Linked(st.q, st.h.l.ring, st.h.l.ti);
  }

  lemma ConsumeBesides<T>(st: State<T>, call: PushCall<T>, size: nat)
    requires Inv(st) && !st.c.CIdle? && PushOk(st, call, size)
    ensures PushOk(Step(st, Consume), call, size)
  {
    ConsumeRefines(st);
    ConsumeMakesRoom(st);
  }

  // The consumer's call

  /** The latest consumer's call is in order, whether it goes on or has ended. */
  ghost predicate PullOk<T>(st: State<T>, call: PullCall) {
    var held := Contents(st.h.l);
    match call
    case NoPull => st.c == CIdle(Nothing)
    case PullCall(op, empty) =>
      match st.c
      case CIdle(Nothing) => empty
      case CIdle(Removed(_)) => !op.Peek?
      case CIdle(Seen(v)) => op.Peek? && held != [] && v == held[0]
      case c => c.op == op && (st.h.wasEmpty || held == [] ==> empty)
  }

  lemma BeginPull<T>(st: State<T>, op: Op)
    requires Inv(st) && st.c.CIdle?
    ensures PullOk(Step(st, Call(op)), PullBegun(st, op))
  {
  }

  lemma ConsumeCall<T>(st: State<T>, call: PullCall)
    requires Inv(st) && !st.c.CIdle? && PullOk(st, call)
    ensures PullOk(Step(st, Consume), call)
  {
    ConsumeRefines(st);
    ConsumeReturns(st);
  }

  lemma ProduceBesides<T>(st: State<T>, memory: bool, call: PullCall)
    requires Inv(st) && !st.p.PIdle? && PullOk(st, call)
    ensures PullOk(Step(st, Produce(memory)), call)
  {
    ProduceRefines(st, memory);
  }

  // Runs

  ghost function NewClient<T>(): Client<T> {
    Client(NoPush, NoPull, [], [])
  }

  ghost predicate ClientOk<T>(st: State<T>, cl: Client<T>, n: nat, m: nat, size: nat) {
    && Good(st, n, m) && PushOk(st, cl.push, size) && PullOk(st, cl.pull)
    && cl.accepted == st.h.enqueued && cl.returned == st.h.dequeued
  }

  lemma StepWatched<T>(st: State<T>, move: Move<T>, cl: Client<T>, n: nat, m: nat, size: nat)
    requires ClientOk(st, cl, n, m, size) && Promises(n, m, size) && Runnable(st, move)
    ensures ClientOk(Step(st, move), Watch(cl, st, move), n, m, size)
  {
    StepGood(st, move, n, m);
    match move
    case Enqueue(x, can) => BeginPush(st, x, can, size);
    case Call(op) => BeginPull(st, op);
    case Produce(memory) =>
      ProduceRefines(st, memory);
      ProduceCall(st, memory, cl.push, n, m, size);
      ProduceBesides(st, memory, cl.pull);
    case Consume =>
      ConsumeRefines(st);
      ConsumeCall(st, cl.pull);
      ConsumeBesides(st, cl.push, size);
  }

  lemma {:induction false} RunWatched<T>(from: State<T>, moves: seq<Move<T>>, to: State<T>, cl: Client<T>, n: nat, m: nat, size: nat)
    requires ClientOk(from, cl, n, m, size) && Promises(n, m, size) && Run(from, moves, to)
    ensures ClientOk(to, Watched(cl, from, moves), n, m, size)
    decreases |moves|
  {
    if moves != [] {
      StepWatched(from, moves[0], cl, n, m, size);
      RunWatched(Step(from, moves[0]), moves[1..], to, Watch(cl, from, moves[0]), n, m, size);
    }
  }

  /** How the latest insertion was, or will be, answered. It adds no block if it is a try_enqueue, began with room or is
      refused, and one at most otherwise. If it began with room the answer is true; if the answer is true the element found room, or
      allocation was allowed. A try_enqueue is refused only if it began with at least `size` elements in the queue, an
      enqueue only if there was no memory. */
  ghost predicate PushAnswered<T>(st: State<T>, call: PushCall<T>, size: nat) {
    call.PushCall? ==>
      && call.blocks <= |st.q.blocks| <= call.blocks + 1
      && (!call.can || call.room ==> |st.q.blocks| == call.blocks && st.q.largest == call.largest)
      && (st.p.PIdle? && call.room ==> st.p.ok)
      && (st.p.PIdle? && st.p.ok ==> call.fits)
      && (st.p.PIdle? && !st.p.ok ==> |st.q.blocks| == call.blocks && st.q.largest == call.largest)
      && (st.p.PIdle? && !st.p.ok ==> if call.can then call.starved else size <= call.held)
  }

  /** How the latest removal or peek was answered: with nothing only if it began with an empty queue; peek points at the
      oldest element, and keeps doing so until the next call. */
  ghost predicate PullAnswered<T>(st: State<T>, call: PullCall) {
    call.PullCall? && st.c.CIdle? ==>
      match st.c.result
      case Nothing => call.empty
      case Removed(_) => !call.op.Peek?
      case Seen(v) => call.op.Peek? && Contents(st.h.l) != [] && v == Contents(st.h.l)[0]
  }

  /** For every constructor argument and every interleaving: the results of the removals, followed by the contents, are the
      arguments of the insertions that returned true, in order; and the latest call of either thread is answered as it
      should be. */
  lemma EveryCallAnswers<T>(max: nat, size: nat, moves: seq<Move<T>>, to: State<T>)
    requires 2 <= max && IsPow2(max) && 0 < size && Run(Init(max, size), moves, to)
    ensures var cl := Watched(NewClient(), Init(max, size), moves);
      && cl.returned + Contents(to.h.l) == cl.accepted
      && PushAnswered(to, cl.push, size) && PullAnswered(to, cl.pull)
  {
    InitInv<T>(max, size);
    CountSuffices(max, size);
    RunWatched(Init(max, size), moves, to, NewClient(), BlockCount(max, size), BlockSize(max, size), size);
  }
}
