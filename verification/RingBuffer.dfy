/** The ring buffer between one producing and one consuming thread: two wrapping counters, and a
    power-of-two array indexed through a mask. One step is one access to shared memory. */
module RingBuffer {
  import opened Arithmetic
  import opened Bits

  /** What x unit increments leave in a counter of w values. */
  function Wrapped(x: nat, w: nat): (r: nat)
    requires 0 < w
    ensures r < w
    decreases x
  {
    if x < w then x else Wrapped(x - w, w)
  }

  lemma {:induction false} WrappedBump(x: nat, w: nat)
    requires 0 < w
    ensures Wrapped(x + 1, w) == Inc(w, Wrapped(x, w))
    decreases x
  {
    if x >= w {
      WrappedBump(x - w, w);
    }
  }

  /** The difference of the counters is the number of elements, across any number of wraps. */
  lemma {:induction false} WrappedBehind(x: nat, y: nat, w: nat)
    requires 0 < w && y <= x < y + w
    ensures Minus(Wrapped(x, w), Wrapped(y, w), w) == x - y
    decreases y
  {
    if y >= w {
      WrappedBehind(x - w, y - w, w);
    }
  }

  lemma {:induction false} WrappedOf(n: nat, q: nat, r: nat)
    requires r < n
    ensures Wrapped(q * n + r, n) == r
    decreases q
  {
    if q > 0 {
      Peel(q, n);
      WrappedOf(n, q - 1, r);
    }
  }

  lemma WrappedIsMod(x: nat, w: nat)
    requires 0 < w
    ensures Wrapped(x, w) == x % w
  {
    Divided(x, w);
    WrappedOf(w, x / w, x % w);
  }

  lemma {:induction false} WrappedTwice(x: nat, num: nat, q: nat)
    requires 0 < num && 0 < q
    ensures num * q > 0 && Wrapped(Wrapped(x, num * q), num) == Wrapped(x, num)
    decreases x
  {
    assert num * q > 0;
    if x >= num * q {
      WrappedTwice(x - num * q, num, q);
      WrappedLess(x, num, q);
    }
  }

  lemma {:induction false} WrappedLess(x: nat, num: nat, q: nat)
    requires 0 < num && num * q <= x
    ensures Wrapped(x, num) == Wrapped(x - num * q, num)
    decreases q
  {
    if q > 0 {
      assert num * q == num * (q - 1) + num;
      WrappedLess(x - num, num, q - 1);
    }
  }

  lemma {:induction false} WrappedApart(x: nat, y: nat, num: nat)
    requires 0 < num && x < y < x + num
    ensures Wrapped(x, num) != Wrapped(y, num)
    decreases x
  {
    if x >= num {
      WrappedApart(x - num, y - num, num);
    }
  }

  /** The array index that the counter of value c selects; for num = 0 the mask has all bits set. */
  function Index(c: nat, num: nat): nat {
    if num == 0 then c else And(c, num - 1)
  }

  lemma MaskIsWrapped(c: nat, num: nat)
    requires IsPow2(num)
    ensures 0 < num && Index(c, num) == Wrapped(c, num)
  {
    var e: nat :| num == Pow2(e);
    MaskIsMod(c, e);
    WrappedIsMod(c, num);
  }

  lemma Multiple(num: nat, w: nat) returns (q: nat)
    requires IsPow2(num) && IsPow2(w) && num <= w
    ensures 0 < num && 0 < q && w == num * q
  {
    var e: nat, n: nat :| num == Pow2(e) && w == Pow2(n);
    WordIsBlocks(e, n);
    Pow2Adds(e, n - e);
    q := Pow2(n - e);
  }

  /** Mask indexing stays consistent when the counter wraps. */
  lemma IndexIs(x: nat, num: nat, w: nat)
    requires IsPow2(num) && IsPow2(w) && num <= w
    ensures 0 < num && 0 < w && Index(Wrapped(x, w), num) == Wrapped(x, num)
  {
    var q := Multiple(num, w);
    WrappedTwice(x, num, q);
    MaskIsWrapped(Wrapped(x, w), num);
  }

  // The mask needs a power of two

  /** The counters of a window of num elements select different places. */
  ghost predicate Distinct(num: nat) {
    forall x: nat, y: nat :: DistinctAt(num, x, y)
  }

  ghost predicate DistinctAt(num: nat, x: nat, y: nat) {
    x < y < num ==> And(x, num - 1) != And(y, num - 1)
  }

  /** Two counters that a mask m which is not all ones confuses. */
  lemma {:induction false} Confused(m: nat) returns (x: nat, y: nat)
    requires !IsPow2(m + 1)
    ensures x < y <= m && And(x, m) == And(y, m)
    decreases m
  {
    if m % 2 == 0 {
      assert m != 0 by { assert 1 == Pow2(0); }
      x, y := 0, 1;
    } else {
      if IsPow2(m / 2 + 1) {
        DoublePow2(m / 2 + 1);
      }
      var a, b := Confused(m / 2);
      x, y := 2 * a, 2 * b;
    }
  }

  /** The capacities for which no two elements of a full buffer share a place are exactly the powers of two. */
  lemma PowersOfTwoExactly(num: nat)
    requires 0 < num
    ensures Distinct(num) <==> IsPow2(num)
  {
    if IsPow2(num) {
      forall x: nat, y: nat
        ensures DistinctAt(num, x, y)
      {
        if x < y < num {
          MaskWraps(num, x);
          MaskWraps(num, y);
        }
      }
    } else {
      var x, y := Confused(num - 1);
      assert !DistinctAt(num, x, y);
    }
  }

  // The two threads

  datatype Push<T> = PIdle(ok: bool) | PCheck(x: T) | PWrite(x: T) | PBump(x: T)
  datatype Pull<T> = QIdle(value: T) | QCheck | QRead | QBump(v: T)

  /** word is the number of values of a counter, and zero what a pull from an empty buffer returns. fault: the array was accessed out of bounds. History: pushed and pulled list
      the elements in order. */
  datatype Ring<T> = Ring(num: nat, word: nat, zero: T, produce: nat, consume: nat, buffer: seq<T>, p: Push<T>, q: Pull<T>,
                          pushed: seq<T>, pulled: seq<T>, fault: bool)

  datatype Move<T> = BeginPush(x: T) | Pushing | BeginPull | Pulling

  predicate Runnable<T>(r: Ring<T>, m: Move<T>) {
    match m
    case BeginPush(_) => r.p.PIdle?
    case Pushing => !r.p.PIdle?
    case BeginPull => r.q.QIdle?
    case Pulling => !r.q.QIdle?
  }

  /** `push` */
  function PushStep<T>(r: Ring<T>): Ring<T>
    requires !r.p.PIdle?
  {
    match r.p
    case PCheck(x) => r.(p := if Minus(r.produce, r.consume, r.word) == r.num then PIdle(false) else PWrite(x))
    case PWrite(x) =>
      var i := Index(r.produce, r.num);
      if i < |r.buffer| then r.(p := PBump(x), buffer := r.buffer[i := x]) else r.(fault := true)
    case PBump(x) => r.(p := PIdle(true), produce := Inc(r.word, r.produce), pushed := r.pushed + [x])
  }

  /** `pull` */
  function PullStep<T>(r: Ring<T>): Ring<T>
    requires !r.q.QIdle?
  {
    match r.q
    case QCheck => r.(q := if Minus(r.produce, r.consume, r.word) == 0 then QIdle(r.zero) else QRead)
    case QRead =>
      var i := Index(r.consume, r.num);
      if i < |r.buffer| then r.(q := QBump(r.buffer[i])) else r.(fault := true)
    case QBump(v) => r.(q := QIdle(v), consume := Inc(r.word, r.consume), pulled := r.pulled + [v])
  }

  /** Place of the x-th element ever pushed. */
  function Slot<T>(r: Ring<T>, x: nat): nat
    requires 0 < r.num
  {
    Wrapped(x, r.num)
  }

  ghost predicate Stored<T>(r: Ring<T>, x: nat)
    requires 0 < r.num
  {
    |r.pulled| <= x < |r.pushed| ==> Slot(r, x) < |r.buffer| && r.buffer[Slot(r, x)] == r.pushed[x]
  }

  ghost predicate RingOk<T>(r: Ring<T>) {
    && !r.fault && IsPow2(r.num) && IsPow2(r.word) && 0 < r.num < r.word && |r.buffer| == r.num
    && r.produce == Wrapped(|r.pushed|, r.word) && r.consume == Wrapped(|r.pulled|, r.word)
    && r.pulled <= r.pushed && |r.pushed| - |r.pulled| <= r.num
    && (forall x: nat :: Stored(r, x))
    && (r.p.PWrite? || r.p.PBump? ==> |r.pushed| - |r.pulled| < r.num)
    && (r.p.PBump? ==> r.buffer[Slot(r, |r.pushed|)] == r.p.x)
    && (r.q.QRead? || r.q.QBump? ==> |r.pulled| < |r.pushed|)
    && (r.q.QBump? ==> r.q.v == r.pushed[|r.pulled|])
  }

  lemma Indices<T>(r: Ring<T>)
    requires RingOk(r)
    ensures Index(r.produce, r.num) == Slot(r, |r.pushed|) < r.num && Index(r.consume, r.num) == Slot(r, |r.pulled|) < r.num
    ensures Minus(r.produce, r.consume, r.word) == |r.pushed| - |r.pulled|
  {
    IndexIs(|r.pushed|, r.num, r.word);
    IndexIs(|r.pulled|, r.num, r.word);
    WrappedBehind(|r.pushed|, |r.pulled|, r.word);
  }

  /** A push that returns true appends; one that returns false has met a full buffer. */
  lemma PushKeeps<T>(r: Ring<T>)
    requires RingOk(r) && !r.p.PIdle?
    ensures var r' := PushStep(r);
      && RingOk(r') && r'.pulled == r.pulled && r'.q == r.q
      && (r'.p == PIdle(true) ==> r'.pushed == r.pushed + [r.p.x])
      && (r'.p == PIdle(false) ==> |r.pushed| - |r.pulled| == r.num)
      && (r'.p != PIdle(true) ==> r'.pushed == r.pushed)
  {
    var r' := PushStep(r);
    Indices(r);
    WrappedBump(|r.pushed|, r.word);
    forall x: nat
      ensures Stored(r', x)
    {
      assert Stored(r, x);
      if r.p.PWrite? && |r.pulled| <= x < |r.pushed| {
        WrappedApart(x, |r.pushed|, r.num);
      }
    }
  }

  /** A pull either takes the oldest element and returns it, or has met an empty buffer and returns 0. */
  lemma PullKeeps<T>(r: Ring<T>)
    requires RingOk(r) && !r.q.QIdle?
    ensures var r' := PullStep(r);
      && RingOk(r') && r'.pushed == r.pushed && r'.p == r.p
      && (r'.pulled == r.pulled || (r'.q.QIdle? && |r.pulled| < |r.pushed| && r'.pulled == r.pulled + [r.pushed[|r.pulled|]]))
      && (r'.q.QIdle? && r'.pulled != r.pulled ==> r'.q.value == r.pushed[|r.pulled|])
      && (r'.q.QIdle? && r'.pulled == r.pulled ==> |r.pushed| == |r.pulled| && r'.q.value == r.zero)
      && (r'.q.QIdle? && r.zero !in r.pushed ==> (r'.q.value == r.zero <==> |r.pushed| == |r.pulled|))
  {
    Indices(r);
    var r' := PullStep(r);
    WrappedBump(|r.pulled|, r.word);
    assert Stored(r, |r.pulled|);
    forall x: nat
      ensures Stored(r', x)
    {
      assert Stored(r, x);
    }
  }

  ghost predicate Run<T>(from: Ring<T>, moves: seq<Move<T>>, to: Ring<T>)
    decreases |moves|
  {
    if moves == [] then from == to
    else
      && Runnable(from, moves[0])
      && Run(Step(from, moves[0]), moves[1..], to)
  }

  function Step<T>(r: Ring<T>, m: Move<T>): Ring<T>
    requires Runnable(r, m)
  {
    match m
    case BeginPush(x) => r.(p := PCheck(x))
    case Pushing => PushStep(r)
    case BeginPull => r.(q := QCheck)
    case Pulling => PullStep(r)
  }

  function NewRing<T>(num: nat, word: nat, zero: T, buffer: seq<T>): Ring<T> {
    Ring(num, word, zero, 0, 0, buffer, PIdle(true), QIdle(zero), [], [], false)
  }

  lemma {:induction false} RunKeeps<T>(from: Ring<T>, moves: seq<Move<T>>, to: Ring<T>)
    requires RingOk(from) && Run(from, moves, to)
    ensures RingOk(to) && to.num == from.num && to.word == from.word
    decreases |moves|
  {
    if moves != [] {
      match moves[0] {
        case Pushing => PushKeeps(from);
        case Pulling => PullKeeps(from);
        case _ => BeginKeeps(from, moves[0]);
      }
      RunKeeps(Step(from, moves[0]), moves[1..], to);
    }
  }

  lemma BeginKeeps<T>(r: Ring<T>, m: Move<T>)
    requires RingOk(r) && Runnable(r, m) && (m.BeginPush? || m.BeginPull?)
    ensures RingOk(Step(r, m))
  {
    forall x: nat
      ensures Stored(Step(r, m), x)
    {
      assert Stored(r, x);
    }
  }

  /** What has been pulled is the oldest part of what has been pushed, and no more than num elements are held. */
  ghost predicate BoundedFifo<T>(r: Ring<T>) {
    !r.fault && r.pulled <= r.pushed && |r.pushed| - |r.pulled| <= r.num
  }

  /** For every power-of-two capacity below the counters' range, and runs of any length: the buffer is a bounded queue,
      and is never accessed out of bounds. */
  lemma EveryRunIsBoundedFifo<T>(num: nat, word: nat, zero: T, buffer: seq<T>, moves: seq<Move<T>>, to: Ring<T>)
    requires IsPow2(num) && IsPow2(word) && 0 < num < word && |buffer| == num
    requires Run(NewRing(num, word, zero, buffer), moves, to)
    ensures BoundedFifo(to) && RingOk(to)
  {
    RunKeeps(NewRing(num, word, zero, buffer), moves, to);
  }
}
