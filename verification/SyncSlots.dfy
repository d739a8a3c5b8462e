/** The dependency counter behind every codelet (32-bit, unsigned). */
module SyncSlots {

  const MAX_COUNT: nat := 0xFFFF_FFFF

  /** What one decrement leaves in the counter; 0 wraps around. */
  function Dec(counter: nat): nat {
    if counter == 0 then MAX_COUNT else counter - 1
  }

  /** A decrement enables the codelet exactly when it takes the counter from 1 to 0. */
  predicate Fires(counter: nat) {
    counter == 1
  }

  /** The counter after k decrements from n. */
  function CounterAfter(n: nat, k: nat): nat {
    if k == 0 then n else Dec(CounterAfter(n, k - 1))
  }

  lemma {:induction false} CounterAfterIs(n: nat, k: nat)
    requires n <= MAX_COUNT
    ensures CounterAfter(n, k) == (n - k) % (MAX_COUNT + 1)
  {
    if k > 0 {
      CounterAfterIs(n, k - 1);
    }
  }

  /** Of any n decrements from n, exactly the last one enables the codelet; then it takes 2^32 more until the next one. */
  lemma EnablesOnLast(n: nat, k: nat)
    requires n <= MAX_COUNT
    ensures Fires(CounterAfter(n, k)) <==> (k + 1) % (MAX_COUNT + 1) == n
    ensures 1 <= k + 1 <= n ==> (Fires(CounterAfter(n, k)) <==> k + 1 == n)
  {
    CounterAfterIs(n, k);
  }

  /** start is the value with which the current round of decrements began, since the number of decrements in it. */
  class SyncSlot {
    var counter: nat
    var reset: nat
    ghost var start: nat
    ghost var since: nat

    ghost predicate Valid()
      reads this
    {
      start <= MAX_COUNT && reset <= MAX_COUNT && counter == CounterAfter(start, since)
    }

    constructor (dep: nat, res: nat)
      requires dep <= MAX_COUNT && res <= MAX_COUNT
      ensures Valid() && start == dep && reset == res && since == 0
    {
      counter := dep;
      reset := res;
      start := dep;
      since := 0;
    }

    /** The last of `start` decrements returns true, and those before it return false. */
    method DecCounter() returns (fires: bool)
      requires Valid()
      modifies `counter, `since
      ensures Valid() && since == old(since) + 1 && fires == Fires(old(counter))
      ensures fires <==> since % (MAX_COUNT + 1) == start
      ensures since <= start ==> (fires <==> since == start)
    {
      EnablesOnLast(start, since);
      fires := counter == 1;
      counter := if counter == 0 then MAX_COUNT else counter - 1;
      since := since + 1;
    }

    /** A new round begins, of `reset` decrements. */
    method ResetCounter()
      requires Valid()
      modifies `counter, `start, `since
      ensures Valid() && start == reset && since == 0
    {
      counter := reset;
      start := reset;
      since := 0;
    }

    /** The counter is 0 before the end of a round only if all its decrements have been made. */
    method Ready() returns (zero: bool)
      requires Valid()
      ensures zero <==> since % (MAX_COUNT + 1) == start
      ensures since <= start ==> (zero <==> since == start)
    {
      CounterAfterIs(start, since);
      zero := counter == 0;
    }
  }

  /** Number of entries equal to v. */
  ghost function Count<T>(s: seq<T>, v: T): (c: nat)
    ensures c <= |s|
  {
    if s == [] then 0 else Count(s[..|s| - 1], v) + if s[|s| - 1] == v then 1 else 0
  }

  lemma {:induction false} CountUpdate<T>(s: seq<T>, v: T, i: nat, x: T)
    requires i < |s|
    ensures Count(s[i := x], v) == Count(s, v) - (if s[i] == v then 1 else 0) + (if x == v then 1 else 0)
  {
    var n := |s| - 1;
    if i == n {
      assert s[i := x][..n] == s[..n];
    } else {
      assert s[i := x][..n] == s[..n][i := x];
      CountUpdate(s[..n], v, i, x);
    }
  }

  lemma {:induction false} CountAll<T>(s: seq<T>, v: T)
    ensures Count(s, v) == |s| <==> forall i :: 0 <= i < |s| ==> s[i] == v
  {
    if s != [] {
      var n := |s| - 1;
      CountAll(s[..n], v);
      if forall i :: 0 <= i < n ==> s[..n][i] == v {
        assert forall i :: 0 <= i < n ==> s[i] == s[..n][i];
      } else {
        assert exists i :: 0 <= i < n && s[..n][i] != v;
      }
    }
  }

  lemma {:induction false} CountNone<T>(s: seq<T>, v: T)
    requires forall i :: 0 <= i < |s| ==> s[i] != v
    ensures Count(s, v) == 0
  {
    if s != [] {
      CountNone(s[..|s| - 1], v);
    }
  }
}
