/** The lightweight semaphore: a counter in front of a kernel semaphore, used by one waiting
    and one signalling thread. One step is one atomic access or one kernel call. */
module Semaphore {

  /** signal(n): SAdd is before the fetch-and-add, SPost before the kernel is told. */
  datatype Signaller = SIdle | SAdd(n: nat) | SPost

  /** WIdle holds what the last call returned. WTry and WTryDec are tryWait, the rest is waitWithPartialSpinning:
      the spinning phase, the registration WDec, the two ways to wait, and the repair after a timeout. */
  datatype Waiter =
    | WIdle(ok: bool)
    | WTry(only: bool, timed: bool) | WTryDec
    | WSpin(spin: nat, timed: bool) | WDec(timed: bool)
    | WKernel | WTimed
    | WRestore | WRetake | WTryKernel

  /** count is m_count and kernel the tokens in the kernel semaphore. History: signalled adds up the counts of all
      signals, taken counts the waits that returned true. */
  datatype Sema = Sema(count: int, kernel: nat, s: Signaller, w: Waiter, initial: nat, signalled: nat, taken: nat)

  datatype SemaMove = Signal(n: nat) | Signalling | TryWait | Wait(timed: bool) | Waiting(timeout: bool)

  /** How a call waits: tryWait, wait(), wait(timeout). In the blocking wrapper: try_dequeue and pop, wait_dequeue,
      wait_dequeue_timed. */
  datatype Kind = Try | Forever | Timed

  const SPINS: nat := 10000

  function NewSema(initial: nat): Sema {
    Sema(initial, 0, SIdle, WIdle(false), initial, 0, 0)
  }

  predicate SemaRunnable(x: Sema, m: SemaMove) {
    match m
    case Signal(_) => x.s.SIdle?
    case Signalling => !x.s.SIdle?
    case TryWait => x.w.WIdle?
    case Wait(_) => x.w.WIdle?
    case Waiting(timeout) =>
      !x.w.WIdle? && (x.w.WKernel? ==> x.kernel > 0) && (x.w.WTimed? ==> timeout || x.kernel > 0)
  }

  function SignalStep(x: Sema): Sema
    requires !x.s.SIdle?
  {
    match x.s
    case SAdd(n) => x.(count := x.count + n, signalled := x.signalled + n, s := if x.count < 0 then SPost else SIdle)
    case SPost => x.(kernel := x.kernel + 1, s := SIdle)
  }

  function Granted(x: Sema): Sema {
    x.(w := WIdle(true), taken := x.taken + 1)
  }

  function WaitStep(x: Sema, timeout: bool): Sema
    requires SemaRunnable(x, Waiting(timeout))
  {
    match x.w
    case WTry(only, timed) =>
      x.(w := if x.count > 0 then WTryDec else if only then WIdle(false) else WSpin(SPINS, timed))
    case WTryDec => Granted(x.(count := x.count - 1))
    case WSpin(spin, timed) =>
      x.(w := if x.count > 0 then WTryDec else if spin <= 1 then WDec(timed) else WSpin(spin - 1, timed))
    case WDec(timed) =>
      var y := x.(count := x.count - 1);
      if x.count > 0 then Granted(y) else y.(w := if timed then WTimed else WKernel)
    case WKernel => Granted(x.(kernel := x.kernel - 1))
    case WTimed => if timeout then x.(w := WRestore) else Granted(x.(kernel := x.kernel - 1))
    case WRestore => x.(count := x.count + 1, w := if x.count < 0 then WIdle(false) else WRetake)
    case WRetake => x.(count := x.count - 1, w := if x.count > 0 then WTryKernel else WRestore)
    case WTryKernel => if x.kernel > 0 then Granted(x.(kernel := x.kernel - 1)) else x.(w := WRestore)
  }

  function SemaStep(x: Sema, m: SemaMove): Sema
    requires SemaRunnable(x, m)
  {
    match m
    case Signal(n) => x.(s := SAdd(n))
    case Signalling => SignalStep(x)
    case TryWait => x.(w := WTry(true, false))
    case Wait(timed) => x.(w := WTry(false, timed))
    case Waiting(timeout) => WaitStep(x, timeout)
  }

  ghost predicate SemaRun(from: Sema, moves: seq<SemaMove>, to: Sema)
    decreases |moves|
  {
    if moves == [] then from == to
    else SemaRunnable(from, moves[0]) && SemaRun(SemaStep(from, moves[0]), moves[1..], to)
  }

  // The invariant

  /** The permits that were given and not yet taken. */
  function Permits(x: Sema): int {
    x.initial + x.signalled - x.taken
  }

  /** The waiter has taken one off the counter and has not returned. */
  predicate Registered(x: Sema) {
    x.w.WKernel? || x.w.WTimed? || x.w.WRestore? || x.w.WTryKernel?
  }

  /** Kernel tokens, counting the one that the signaller is about to post. */
  function Tokens(x: Sema): nat {
    x.kernel + if x.s.SPost? then 1 else 0
  }

  ghost predicate SemaOk(x: Sema) {
    && x.count == Permits(x) - (if Registered(x) then 1 else 0)
    && Permits(x) >= 0
    && Tokens(x) == (if (Registered(x) && x.count >= 0) || x.w.WRetake? then 1 else 0)
    && (x.w.WTryDec? || x.w.WRetake? ==> x.count > 0)
    && (x.w.WTryKernel? ==> x.count >= 0)
    && (x.w.WSpin? ==> x.w.spin <= SPINS)
  }

  /** The signal of n keeps the books exactly if n is not 0, or nobody is registered without a permit. */
  lemma SignalKeeps(x: Sema)
    requires SemaOk(x) && x.s.SAdd?
    ensures SemaOk(SignalStep(x)) <==> x.s.n >= 1 || x.count >= 0
  {
    var y := SignalStep(x);
    if x.s.n == 0 && x.count < 0 {
      assert Tokens(y) == Tokens(x) + 1;
    }
  }

  /** The step does not add 0 to a counter below 0. */
  predicate Harmless(x: Sema, m: SemaMove) {
    m.Signalling? && x.s.SAdd? ==> x.s.n >= 1 || x.count >= 0
  }

  lemma SemaStepKeeps(x: Sema, m: SemaMove)
    requires SemaOk(x) && SemaRunnable(x, m)
    ensures SemaOk(SemaStep(x, m)) <==> Harmless(x, m)
  {
    if m.Signalling? && x.s.SAdd? {
      SignalKeeps(x);
    }
  }

  /** No step of the run adds 0 while the waiter is registered without a permit. */
  ghost predicate HarmlessRun(from: Sema, moves: seq<SemaMove>)
    decreases |moves|
  {
    moves != [] && SemaRunnable(from, moves[0]) ==>
      Harmless(from, moves[0]) && HarmlessRun(SemaStep(from, moves[0]), moves[1..])
  }

  /** The books are right in every state of the run. */
  ghost predicate BooksKept(from: Sema, moves: seq<SemaMove>)
    decreases |moves|
  {
    SemaOk(from) && (moves != [] && SemaRunnable(from, moves[0]) ==> BooksKept(SemaStep(from, moves[0]), moves[1..]))
  }

  lemma {:induction false} SemaRunKeeps(from: Sema, moves: seq<SemaMove>, to: Sema)
    requires SemaOk(from) && SemaRun(from, moves, to)
    ensures BooksKept(from, moves) <==> HarmlessRun(from, moves)
    ensures HarmlessRun(from, moves) ==> SemaOk(to)
    decreases |moves|
  {
    if moves != [] {
      SemaStepKeeps(from, moves[0]);
      if Harmless(from, moves[0]) {
        SemaRunKeeps(SemaStep(from, moves[0]), moves[1..], to);
      }
    }
  }

  /** For every interleaving: the books are right throughout if and only if no signal adds 0 to a counter below 0. Then the
      counter and the successful waits account for all signals, no kernel token is left over while the waiter is idle, and
      oldCount is never below -1. */
  lemma PermitsConserved(initial: nat, moves: seq<SemaMove>, x: Sema)
    requires SemaRun(NewSema(initial), moves, x)
    ensures BooksKept(NewSema(initial), moves) <==> HarmlessRun(NewSema(initial), moves)
    ensures HarmlessRun(NewSema(initial), moves) ==>
      && SemaOk(x) && x.taken <= initial + x.signalled && x.count >= -1
      && (x.w.WIdle? ==> x.count + x.taken == initial + x.signalled && Tokens(x) == 0)
  {
    SemaRunKeeps(NewSema(initial), moves, x);
    SemaRunInitial(NewSema(initial), moves, x);
  }

  lemma {:induction false} SemaRunInitial(from: Sema, moves: seq<SemaMove>, to: Sema)
    requires SemaRun(from, moves, to)
    ensures to.initial == from.initial
    decreases |moves|
  {
    if moves != [] {
      SemaRunInitial(SemaStep(from, moves[0]), moves[1..], to);
    }
  }

  /** A wait returns true by taking one permit that was there; it returns false, also after a timeout, only at an
      instant at which there was no permit, and leaves the counter at that value. */
  lemma WaitReturns(x: Sema, timeout: bool)
    requires SemaOk(x) && SemaRunnable(x, Waiting(timeout))
    ensures var y := WaitStep(x, timeout);
      && (y.w == WIdle(true) ==> Permits(x) >= 1 && Permits(y) == Permits(x) - 1 && y.count == Permits(y))
      && (y.w == WIdle(false) ==> Permits(x) == Permits(y) == y.count == 0 && Tokens(y) == 0)
      && (!y.w.WIdle? ==> Permits(y) == Permits(x))
  {
  }

  /** No wake-up is lost: a registered waiter for whom there is a permit finds a token, now or after the one step
      that the signaller still has to make. */
  lemma NoLostWakeup(x: Sema)
    requires SemaOk(x) && (x.w.WKernel? || x.w.WTimed?) && Permits(x) >= 1
    ensures x.kernel == 1 || (x.s.SPost? && SignalStep(x).kernel == 1)
  {
  }

  /** The repair loop after a timeout goes around again only while the signaller is between its two accesses. */
  lemma RepairSpinsOnlyForPost(x: Sema)
    requires SemaOk(x) && x.w.WTryKernel? && !x.s.SPost?
    ensures WaitStep(x, false).w == WIdle(true)
  {
  }

  lemma Prepend(x: Sema, m: SemaMove, rest: seq<SemaMove>, y: Sema) returns (moves: seq<SemaMove>)
    requires SemaRunnable(x, m) && SemaRun(SemaStep(x, m), rest, y)
    ensures SemaRun(x, moves, y)
  {
    moves := [m] + rest;
    assert moves[1..] == rest;
  }

  /** Spinning in vain. */
  lemma {:induction false} SpinsOut(x: Sema, rest: seq<SemaMove>, y: Sema) returns (moves: seq<SemaMove>)
    requires x.w.WSpin? && x.count <= 0 && SemaRun(x.(w := WDec(x.w.timed)), rest, y)
    ensures SemaRun(x, moves, y)
    decreases x.w.spin
  {
    moves := rest;
    if x.w.spin > 1 {
      moves := SpinsOut(x.(w := WSpin(x.w.spin - 1, x.w.timed)), rest, y);
    }
    moves := Prepend(x, Waiting(false), moves, y);
  }

  /** signal(0) while the waiter sleeps wakes it without a permit: a wait succeeds although nothing was signalled. */
  lemma ZeroSignalBreaks() returns (moves: seq<SemaMove>, y: Sema)
    ensures SemaRun(NewSema(0), moves, y)
    ensures y.w == WIdle(true) && y.taken == 1 && y.initial + y.signalled == 0
  {
    y := Sema(-1, 0, SIdle, WIdle(true), 0, 0, 1);
    assert SemaRun(y, [], y);
    moves := Prepend(Sema(-1, 1, SIdle, WKernel, 0, 0, 0), Waiting(false), [], y);
    moves := Prepend(Sema(-1, 0, SPost, WKernel, 0, 0, 0), Signalling, moves, y);
    moves := Prepend(Sema(-1, 0, SAdd(0), WKernel, 0, 0, 0), Signalling, moves, y);
    moves := Prepend(Sema(-1, 0, SIdle, WKernel, 0, 0, 0), Signal(0), moves, y);
    moves := Prepend(Sema(0, 0, SIdle, WDec(false), 0, 0, 0), Waiting(false), moves, y);
    moves := SpinsOut(Sema(0, 0, SIdle, WSpin(SPINS, false), 0, 0, 0), moves, y);
    moves := Prepend(Sema(0, 0, SIdle, WTry(false, false), 0, 0, 0), Waiting(false), moves, y);
    moves := Prepend(Sema(0, 0, SIdle, WIdle(false), 0, 0, 0), Wait(false), moves, y);
  }
}
