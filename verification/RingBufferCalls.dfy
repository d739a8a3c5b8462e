/** What the clients of the ring buffer see: the calls they made, and how each of them was answered. */
module RingBufferCalls {
  import opened Bits
  import opened RingBuffer

  /** The latest push: its argument, the number of elements held when it began, and the steps it has made. */
  datatype PushCall<T> = NoPush | PushCall(x: T, held: nat, steps: nat)

  datatype PullCall = NoPull | PullCall(empty: bool, steps: nat)

  /** accepted lists the arguments of the pushes that returned true, returned the results of the pulls that were not 0. */
  datatype Clients<T> = Clients(push: PushCall<T>, pull: PullCall, accepted: seq<T>, returned: seq<T>)

  /** The elements held, oldest first. */
  function Held<T>(r: Ring<T>): seq<T>
    requires |r.pulled| <= |r.pushed|
  {
    r.pushed[|r.pulled|..]
  }

  function Count<T>(r: Ring<T>): nat {
    if |r.pulled| <= |r.pushed| then |r.pushed| - |r.pulled| else 0
  }

  ghost function Watch<T>(cl: Clients<T>, r: Ring<T>, m: Move<T>): Clients<T>
    requires Runnable(r, m)
  {
    var r' := Step(r, m);
    match m
    case BeginPush(x) => cl.(push := PushCall(x, Count(r), 0))
    case Pushing =>
      if cl.push.NoPush? then cl
      else cl.(push := cl.push.(steps := cl.push.steps + 1),
               accepted := if r'.p == PIdle(true) then cl.accepted + [cl.push.x] else cl.accepted)
    case BeginPull => cl.(pull := PullCall(Count(r) == 0, 0))
    case Pulling =>
      if cl.pull.NoPull? then cl
      else cl.(pull := cl.pull.(steps := cl.pull.steps + 1),
               returned := if r'.q.QIdle? && r'.q.value != r.zero then cl.returned + [r'.q.value] else cl.returned)
  }

  /** What the clients have seen at the end of a run. */
  ghost function Watched<T>(cl: Clients<T>, from: Ring<T>, moves: seq<Move<T>>): Clients<T>
    decreases |moves|
  {
    if moves == [] || !Runnable(from, moves[0]) then cl
    else Watched(Watch(cl, from, moves[0]), Step(from, moves[0]), moves[1..])
  }

  function PushRank<T>(p: Push<T>): nat {
    match p
    case PIdle(_) => 0
    case PCheck(_) => 3
    case PWrite(_) => 2
    case PBump(_) => 1
  }

  function PullRank<T>(q: Pull<T>): nat {
    match q
    case QIdle(_) => 0
    case QCheck => 3
    case QRead => 2
    case QBump(_) => 1
  }

  /** 0 is never pushed, so that the answer of a pull can be told from that on an empty buffer. */
  ghost predicate NeverZero<T>(moves: seq<Move<T>>, zero: T) {
    forall i :: 0 <= i < |moves| && moves[i].BeginPush? ==> moves[i].x != zero
  }

  ghost predicate PushOk<T>(r: Ring<T>, call: PushCall<T>) {
    match call
    case NoPush => r.p == PIdle(true)
    case PushCall(x, held, steps) =>
      && x != r.zero && steps + PushRank(r.p) <= 3
      && (!r.p.PIdle? ==> r.p.x == x && Count(r) <= held)
      && (r.p == PIdle(false) ==> held >= r.num)
  }

  ghost predicate PullOk<T>(r: Ring<T>, call: PullCall) {
    match call
    case NoPull => r.q == QIdle(r.zero)
    case PullCall(empty, steps) =>
      && steps + PullRank(r.q) <= 3
      && (!r.q.QIdle? && Count(r) == 0 ==> empty)
      && (r.q == QIdle(r.zero) ==> empty)
  }

  ghost predicate ClientsOk<T>(r: Ring<T>, cl: Clients<T>) {
    && RingOk(r) && r.zero !in r.pushed && PushOk(r, cl.push) && PullOk(r, cl.pull)
    && cl.accepted == r.pushed && cl.returned == r.pulled
  }

  lemma StepWatched<T>(r: Ring<T>, m: Move<T>, cl: Clients<T>)
    requires ClientsOk(r, cl) && Runnable(r, m) && (m.BeginPush? ==> m.x != r.zero)
    ensures ClientsOk(Step(r, m), Watch(cl, r, m))
  {
    match m
    case Pushing => PushKeeps(r);
    case Pulling => PullKeeps(r);
    case _ => BeginKeeps(r, m);
  }

  lemma {:induction false} RunWatched<T>(from: Ring<T>, moves: seq<Move<T>>, to: Ring<T>, cl: Clients<T>)
    requires ClientsOk(from, cl) && Run(from, moves, to) && NeverZero(moves, from.zero)
    ensures ClientsOk(to, Watched(cl, from, moves)) && to.zero == from.zero && to.num == from.num
    decreases |moves|
  {
    if moves != [] {
      StepWatched(from, moves[0], cl);
      assert Step(from, moves[0]).zero == from.zero && Step(from, moves[0]).num == from.num;
      RunWatched(Step(from, moves[0]), moves[1..], to, Watch(cl, from, moves[0]));
    }
  }

  /** For every power-of-two capacity and every interleaving in which 0 is not pushed: the results of the pulls other than 0,
      followed by the elements held, are the arguments of the pushes that returned true, in order. A push returns false only
      if the buffer was full when it began, a pull returns 0 only if it was empty when it began, and each of them takes at
      most three steps. */
  lemma EveryCallAnswers<T>(num: nat, word: nat, zero: T, buffer: seq<T>, moves: seq<Move<T>>, to: Ring<T>)
    requires IsPow2(num) && IsPow2(word) && 0 < num < word && |buffer| == num
    requires Run(NewRing(num, word, zero, buffer), moves, to) && NeverZero(moves, zero)
    ensures var cl := Watched(Clients(NoPush, NoPull, [], []), NewRing(num, word, zero, buffer), moves);
      && |to.pulled| <= |to.pushed| && cl.returned + Held(to) == cl.accepted
      && (cl.push.PushCall? ==> cl.push.steps <= 3 && (cl.push.steps == 3 ==> to.p.PIdle?))
      && (cl.push.PushCall? && to.p == PIdle(false) ==> cl.push.held >= num)
      && (cl.pull.PullCall? ==> cl.pull.steps <= 3 && (cl.pull.steps == 3 ==> to.q.QIdle?))
      && (cl.pull.PullCall? && to.q == QIdle(zero) ==> cl.pull.empty)
  {
    RunWatched(NewRing(num, word, zero, buffer), moves, to, Clients(NoPush, NoPull, [], []));
  }
}
