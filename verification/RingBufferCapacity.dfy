/** The ring buffer is a queue exactly for the power-of-two capacities: for any other capacity a run that pulls a wrong
    element. */
module RingBufferCapacity {
  import opened Arithmetic
  import opened Bits
  import opened RingBuffer

  lemma {:induction false} AndBelow(x: nat, m: nat)
    ensures And(x, m) <= m
    decreases x
  {
    if x != 0 && m != 0 {
      AndBelow(x / 2, m / 2);
    }
  }

  lemma {:induction false} RunAppend<T>(from: Ring<T>, xs: seq<Move<T>>, mid: Ring<T>, ys: seq<Move<T>>, to: Ring<T>)
    requires Run(from, xs, mid) && Run(mid, ys, to)
    ensures Run(from, xs + ys, to)
    decreases |xs|
  {
    if xs == [] {
      assert xs + ys == ys;
    } else {
      RunAppend(Step(from, xs[0]), xs[1..], mid, ys, to);
      assert (xs + ys)[1..] == xs[1..] + ys;
    }
  }

  lemma Prepend<T>(from: Ring<T>, m: Move<T>, rest: seq<Move<T>>, to: Ring<T>) returns (moves: seq<Move<T>>)
    requires Runnable(from, m) && Run(Step(from, m), rest, to)
    ensures Run(from, moves, to)
  {
    moves := [m] + rest;
    assert moves[1..] == rest;
  }

  ghost predicate Idle<T>(r: Ring<T>) {
    r.p.PIdle? && r.q.QIdle? && !r.fault && 0 < r.num < r.word && |r.buffer| == r.num
  }

  /** A push from beginning to end. */
  lemma PushOne<T>(r: Ring<T>, x: T) returns (moves: seq<Move<T>>, to: Ring<T>)
    requires Idle(r) && Minus(r.produce, r.consume, r.word) != r.num
    ensures Index(r.produce, r.num) < r.num && Run(r, moves, to) && Idle(to)
    ensures to == r.(p := PIdle(true), buffer := r.buffer[Index(r.produce, r.num) := x], produce := Inc(r.word, r.produce),
                     pushed := r.pushed + [x])
  {
    AndBelow(r.produce, r.num - 1);
    var r1 := Step(r, BeginPush(x));
    var r2 := PushStep(r1);
    var r3 := PushStep(r2);
    to := PushStep(r3);
    assert Run(to, [], to);
    moves := Prepend(r3, Pushing, [], to);
    moves := Prepend(r2, Pushing, moves, to);
    moves := Prepend(r1, Pushing, moves, to);
    moves := Prepend(r, BeginPush(x), moves, to);
  }

  /** A pull from beginning to end. */
  lemma PullOne<T>(r: Ring<T>) returns (moves: seq<Move<T>>, to: Ring<T>)
    requires Idle(r) && Minus(r.produce, r.consume, r.word) != 0
    ensures Index(r.consume, r.num) < r.num && Run(r, moves, to) && Idle(to)
    ensures var v := r.buffer[Index(r.consume, r.num)];
      to == r.(q := QIdle(v), consume := Inc(r.word, r.consume), pulled := r.pulled + [v])
  {
    AndBelow(r.consume, r.num - 1);
    var r1 := Step(r, BeginPull);
    var r2 := PullStep(r1);
    var r3 := PullStep(r2);
    to := PullStep(r3);
    assert Run(to, [], to);
    moves := Prepend(r3, Pulling, [], to);
    moves := Prepend(r2, Pulling, moves, to);
    moves := Prepend(r1, Pulling, moves, to);
    moves := Prepend(r, BeginPull, moves, to);
  }

  /** k pushes of a have been made, and nothing else. */
  ghost predicate Filled<T>(r: Ring<T>, num: nat, word: nat, a: T, k: nat) {
    && Idle(r) && r.num == num && r.word == word && r.produce == k && r.consume == 0
    && r.pushed == seq(k, i => a) && r.pulled == []
  }

  lemma {:induction false} FillUp<T>(num: nat, word: nat, zero: T, buffer: seq<T>, a: T, k: nat) returns (moves: seq<Move<T>>, to: Ring<T>)
    requires 0 < num < word && |buffer| == num && k <= num
    ensures Run(NewRing(num, word, zero, buffer), moves, to) && Filled(to, num, word, a, k)
    decreases k
  {
    if k == 0 {
      moves, to := [], NewRing(num, word, zero, buffer);
    } else {
      var before, mid := FillUp(num, word, zero, buffer, a, k - 1);
      var last;
      last, to := PushOne(mid, a);
      RunAppend(NewRing(num, word, zero, buffer), before, mid, last, to);
      moves := before + last;
      assert to.pushed == seq(k, i => a);
    }
  }

  lemma {:induction false} Drain<T>(r: Ring<T>, k: nat) returns (moves: seq<Move<T>>, to: Ring<T>)
    requires Idle(r) && r.consume == 0 && r.pulled == [] && k < r.produce < r.word
    ensures Run(r, moves, to) && Idle(to) && |to.pulled| == k
    ensures to == r.(consume := k, q := to.q, pulled := to.pulled)
    decreases k
  {
    if k == 0 {
      moves, to := [], r;
    } else {
      var before, mid := Drain(r, k - 1);
      var last;
      last, to := PullOne(mid);
      RunAppend(r, before, mid, last, to);
      moves := before + last;
    }
  }

  /** With a capacity that is not a power of two: y pushes of a, one of b, and x + 1 pulls, the last of which returns b
      where a was pushed. */
  lemma WrongPull<T>(num: nat, word: nat, zero: T, buffer: seq<T>, a: T, b: T) returns (moves: seq<Move<T>>, to: Ring<T>)
    requires 0 < num < word && |buffer| == num && !IsPow2(num) && a != b
    ensures Run(NewRing(num, word, zero, buffer), moves, to) && !BoundedFifo(to)
  {
    var x, y := Confused(num - 1);
    var start := NewRing(num, word, zero, buffer);
    var fill, full := FillUp(num, word, zero, buffer, a, y);
    var push, pushed := PushOne(full, b);
    var drain, drained := Drain(pushed, x);
    var pull;
    pull, to := PullOne(drained);
    assert to.pulled[x] == b && to.pushed[x] == a;
    RunAppend(start, fill, full, push, pushed);
    RunAppend(start, fill + push, pushed, drain, drained);
    RunAppend(start, fill + push + drain, drained, pull, to);
    moves := fill + push + drain + pull;
  }

  ghost predicate RunIsFifo<T>(num: nat, word: nat, zero: T, buffer: seq<T>, moves: seq<Move<T>>, to: Ring<T>) {
    |buffer| == num && Run(NewRing(num, word, zero, buffer), moves, to) ==> BoundedFifo(to)
  }

  /** Every run of the buffer with this capacity, of whatever length, is a run of a bounded queue. */
  ghost predicate IsFifo<T(!new)>(num: nat, word: nat) {
    forall zero: T, buffer: seq<T>, moves: seq<Move<T>>, to: Ring<T> :: RunIsFifo(num, word, zero, buffer, moves, to)
  }

  /** For a type with two values, the capacities for which the buffer is a queue are exactly the powers of two. */
  lemma FifoExactly<T(!new)>(num: nat, word: nat, a: T, b: T)
    requires 0 < num < word && IsPow2(word) && a != b
    ensures IsFifo<T>(num, word) <==> IsPow2(num)
  {
    if IsPow2(num) {
      forall zero: T, buffer: seq<T>, moves: seq<Move<T>>, to: Ring<T>
        ensures RunIsFifo(num, word, zero, buffer, moves, to)
      {
        if |buffer| == num && Run(NewRing(num, word, zero, buffer), moves, to) {
          EveryRunIsBoundedFifo(num, word, zero, buffer, moves, to);
        }
      }
    } else {
      var buffer := seq(num, i => a);
      var moves, to := WrongPull(num, word, a, buffer, a, b);
      assert !RunIsFifo(num, word, a, buffer, moves, to);
    }
  }
}
