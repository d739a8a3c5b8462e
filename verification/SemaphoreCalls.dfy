/** What the users of the semaphore see: how a wait of each kind is answered, and after how many steps. */
module SemaphoreCalls {
  import opened Semaphore

  /** The latest wait. permits: those there when it began; steps: the steps it has made; expired: its timeout has passed. */
  datatype WaitCall = NoWait | WaitCall(kind: Kind, permits: int, steps: nat, expired: bool)

  /** granted counts the waits that were answered with true, given adds up the arguments of the signals that have begun. */
  datatype Users = Users(wait: WaitCall, granted: nat, given: nat)

  function WaitBegun(x: Sema, kind: Kind): WaitCall {
    WaitCall(kind, Permits(x), 0, false)
  }

  function WaitGoesOn(call: WaitCall, x: Sema, timeout: bool): WaitCall {
    if call.NoWait? then call
    else call.(steps := call.steps + 1, expired := call.expired || (timeout && x.w.WTimed?))
  }

  function Watch(u: Users, x: Sema, m: SemaMove): Users
    requires SemaRunnable(x, m)
  {
    match m
    case Signal(n) => u.(given := u.given + n)
    case Signalling => u
    case TryWait => u.(wait := WaitBegun(x, Try))
    case Wait(timed) => u.(wait := WaitBegun(x, if timed then Timed else Forever))
    case Waiting(timeout) =>
      u.(wait := WaitGoesOn(u.wait, x, timeout), granted := u.granted + if SemaStep(x, m).w == WIdle(true) then 1 else 0)
  }

  /** What the users have seen at the end of a run. */
  ghost function Watched(u: Users, from: Sema, moves: seq<SemaMove>): Users
    decreases |moves|
  {
    if moves == [] || !SemaRunnable(from, moves[0]) then u
    else Watched(Watch(u, from, moves[0]), SemaStep(from, moves[0]), moves[1..])
  }

  // The stages of a call

  /** The stages that a wait of this kind goes through. A tryWait neither spins nor registers nor sleeps. */
  predicate InCall(kind: Kind, w: Waiter) {
    match w
    case WIdle(ok) => kind.Forever? ==> ok
    case WTry(only, timed) => only == kind.Try? && (!only ==> timed == kind.Timed?)
    case WTryDec => true
    case WSpin(_, timed) => !kind.Try? && timed == kind.Timed?
    case WDec(timed) => !kind.Try? && timed == kind.Timed?
    case WKernel => kind.Forever?
    case _ => kind.Timed?
  }

  /** The timeout of the call has passed. */
  predicate TimedOut(w: Waiter) {
    w.WRestore? || w.WRetake? || w.WTryKernel?
  }

  /** An upper bound on the steps that a tryWait still makes. */
  function TryRank(w: Waiter): nat {
    match w
    case WTry(_, _) => 2
    case WTryDec => 1
    case _ => 0
  }

  /** The latest wait is in order, whether it goes on or has returned. */
  predicate WaitOk(x: Sema, call: WaitCall) {
    match call
    case NoWait => x.w.WIdle?
    case WaitCall(kind, permits, steps, expired) =>
      && InCall(kind, x.w)
      && (!x.w.WIdle? ==> permits <= Permits(x))
      && (TimedOut(x.w) ==> expired)
      && (x.w == WIdle(false) ==> permits <= 0 && (kind.Timed? ==> expired))
      && (kind.Try? ==> steps + TryRank(x.w) <= 2)
  }

  lemma WaitStays(x: Sema, timeout: bool, call: WaitCall)
    requires SemaOk(x) && SemaRunnable(x, Waiting(timeout)) && WaitOk(x, call)
    ensures WaitOk(WaitStep(x, timeout), WaitGoesOn(call, x, timeout))
  {
    WaitReturns(x, timeout);
  }

  /** The answer of tryWait is decided by its first step: false if there is no permit, and true, one step later, if there is
      one, which nobody else can take. */
  lemma TryWaitDecides(x: Sema, timed: bool, timeout: bool, timeout': bool, y: Sema)
    requires SemaOk(x) && x.w == WTry(true, timed) && SemaOk(y) && y.w == WaitStep(x, timeout).w
    ensures WaitStep(x, timeout).w == WIdle(false) <==> Permits(x) == 0
    ensures Permits(x) > 0 ==> WaitStep(x, timeout).w.WTryDec? && WaitStep(y, timeout').w == WIdle(true)
  {
  }

  // How long a call takes

  /** A bound on the steps that a wait still makes, once it is awake. */
  function WaitRank(w: Waiter): nat {
    match w
    case WIdle(_) => 0
    case WTryDec => 1
    case WKernel => 1
    case WTryKernel => 2
    case WRetake => 3
    case WRestore => 4
    case WTimed => 5
    case WDec(_) => 6
    case WSpin(spin, _) => 7 + spin
    case WTry(_, _) => 8 + SPINS
  }

  /** Every step of a wait brings it nearer to its end, but for the repair after a timeout while the signaller is between
      its two accesses. */
  lemma WaitAdvances(x: Sema, timeout: bool)
    requires SemaOk(x) && SemaRunnable(x, Waiting(timeout))
    ensures WaitRank(WaitStep(x, timeout).w) < WaitRank(x.w) || (x.w.WTryKernel? && x.s.SPost?)
  {
  }

  /** A tryWait can always go on, and so can a timed wait whose timeout passes; a wait without timeout can go on when there is
      a permit for it, now or after one step of the signaller. */
  lemma WaitCanGoOn(x: Sema, call: WaitCall)
    requires SemaOk(x) && WaitOk(x, call) && !x.w.WIdle?
    ensures call.WaitCall? && (!call.kind.Forever? ==> SemaRunnable(x, Waiting(true)))
    ensures call.kind.Try? ==> SemaRunnable(x, Waiting(false))
    ensures call.kind.Forever? && !SemaRunnable(x, Waiting(false)) ==>
      Permits(x) == 0 || (x.s.SPost? && SemaRunnable(SignalStep(x), Waiting(false)))
  {
  }

  /** Wherever a timed wait is once it sleeps or repairs, it returns when its timeout passes and the signaller has made the
      step that it may still have to make. */
  lemma {:induction false} TimeoutReturns(x: Sema) returns (moves: seq<SemaMove>, y: Sema)
    requires SemaOk(x) && (x.w.WTimed? || TimedOut(x.w))
    ensures SemaRun(x, moves, y) && y.w.WIdle? && |moves| <= 6
    ensures forall i :: 0 <= i < |moves| ==> moves[i] == Waiting(true) || (i == 0 && moves[i] == Signalling && x.s.SPost?)
  {
    if x.s.SPost? {
      SemaStepKeeps(x, Signalling);
      var rest;
      rest, y := AwakeReturns(SignalStep(x));
      moves := [Signalling] + rest;
      assert moves[1..] == rest;
    } else {
      moves, y := AwakeReturns(x);
    }
  }

  lemma {:induction false} AwakeReturns(x: Sema) returns (moves: seq<SemaMove>, y: Sema)
    requires SemaOk(x) && (x.w.WIdle? || x.w.WTimed? || TimedOut(x.w)) && !x.s.SPost?
    ensures SemaRun(x, moves, y) && y.w.WIdle? && |moves| <= WaitRank(x.w)
    ensures forall i :: 0 <= i < |moves| ==> moves[i] == Waiting(true)
    decreases WaitRank(x.w)
  {
    if x.w.WIdle? {
      moves, y := [], x;
    } else {
      SemaStepKeeps(x, Waiting(true));
      WaitAdvances(x, true);
      var rest;
      rest, y := AwakeReturns(WaitStep(x, true));
      moves := [Waiting(true)] + rest;
      assert moves[1..] == rest;
    }
  }

  // Runs

  predicate UsersOk(x: Sema, u: Users) {
    && WaitOk(x, u.wait) && u.granted == x.taken
    && u.given == x.signalled + if x.s.SAdd? then x.s.n else 0
  }

  lemma StepWatched(x: Sema, m: SemaMove, u: Users)
    requires SemaOk(x) && SemaRunnable(x, m) && Harmless(x, m) && UsersOk(x, u)
    ensures SemaOk(SemaStep(x, m)) && UsersOk(SemaStep(x, m), Watch(u, x, m))
  {
    SemaStepKeeps(x, m);
    if m.Waiting? {
      WaitStays(x, m.timeout, u.wait);
      WaitReturns(x, m.timeout);
    }
  }

  lemma {:induction false} RunWatched(from: Sema, moves: seq<SemaMove>, to: Sema, u: Users)
    requires SemaOk(from) && SemaRun(from, moves, to) && HarmlessRun(from, moves) && UsersOk(from, u)
    ensures SemaOk(to) && UsersOk(to, Watched(u, from, moves))
    decreases |moves|
  {
    if moves != [] {
      StepWatched(from, moves[0], u);
      RunWatched(SemaStep(from, moves[0]), moves[1..], to, Watch(u, from, moves[0]));
    }
  }

  /** How the latest wait is answered. A tryWait returns after at most two steps of its own, and does not sleep; a wait
      without timeout does not return false; a timed wait returns false only after its timeout. No wait returns false that
      began with a permit. */
  predicate WaitAnswered(x: Sema, call: WaitCall) {
    call.WaitCall? ==>
      && (call.kind.Try? ==> call.steps <= 2 && (call.steps == 2 ==> x.w.WIdle?) && !x.w.WKernel? && !x.w.WTimed?)
      && (x.w == WIdle(false) ==> !call.kind.Forever? && (call.kind.Timed? ==> call.expired) && call.permits <= 0)
  }

  /** For every interleaving in which no signal adds 0 to a counter below 0: the waits are answered as they should be, and
      when none is going on, the counter is the initial count and the signals less the waits that returned true. */
  lemma EveryWaitAnswers(initial: nat, moves: seq<SemaMove>, x: Sema)
    requires SemaRun(NewSema(initial), moves, x) && HarmlessRun(NewSema(initial), moves)
    ensures var u := Watched(Users(NoWait, 0, 0), NewSema(initial), moves);
      && WaitAnswered(x, u.wait)
      && (x.w.WIdle? && x.s.SIdle? ==> x.count == initial + u.given - u.granted)
  {
    RunWatched(NewSema(initial), moves, x, Users(NoWait, 0, 0));
    SemaRunInitial(NewSema(initial), moves, x);
  }
}
