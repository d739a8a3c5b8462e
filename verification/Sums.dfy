/** Finite sums over any commutative monoid, shared by the matrix products
    (real numbers) and by the Fourier transform (complex numbers). */
module Sums {

  datatype Monoid<!T> = Monoid(zero: T, plus: (T, T) -> T)

  ghost predicate Unit<T>(m: Monoid<T>, x: T) {
    m.plus(m.zero, x) == x && m.plus(x, m.zero) == x
  }

  ghost predicate Commutes<T>(m: Monoid<T>, x: T, y: T) {
    m.plus(x, y) == m.plus(y, x)
  }

  ghost predicate Associates<T>(m: Monoid<T>, x: T, y: T, z: T) {
    m.plus(m.plus(x, y), z) == m.plus(x, m.plus(y, z))
  }

  /** The laws of a commutative monoid. They are stated through named instances,
      so that a proof says which instance it uses. */
  ghost predicate Lawful<T(!new)>(m: Monoid<T>) {
    && (forall x :: Unit(m, x))
    && (forall x, y :: Commutes(m, x, y))
    && (forall x, y, z :: Associates(m, x, y, z))
  }

  /** f(lo) + ... + f(hi - 1), added from the left as an accumulating loop does. */
  ghost function Sum<T>(m: Monoid<T>, f: nat -> T, lo: nat, hi: nat): T
    requires lo <= hi
    decreases hi - lo
  {
    if lo == hi then m.zero else m.plus(Sum(m, f, lo, hi - 1), f(hi - 1))
  }

  lemma {:induction false} SumExt<T>(m: Monoid<T>, f: nat -> T, g: nat -> T, lo: nat, hi: nat)
    requires lo <= hi
    requires forall k :: lo <= k < hi ==> f(k) == g(k)
    ensures Sum(m, f, lo, hi) == Sum(m, g, lo, hi)
    decreases hi - lo
  {
    if lo < hi {
      SumExt(m, f, g, lo, hi - 1);
    }
  }

  lemma {:induction false} SumSplit<T(!new)>(m: Monoid<T>, f: nat -> T, lo: nat, mid: nat, hi: nat)
    requires Lawful(m) && lo <= mid <= hi
    ensures Sum(m, f, lo, hi) == m.plus(Sum(m, f, lo, mid), Sum(m, f, mid, hi))
    decreases hi - mid
  {
    if mid < hi {
      SumSplit(m, f, lo, mid, hi - 1);
      assert Associates(m, Sum(m, f, lo, mid), Sum(m, f, mid, hi - 1), f(hi - 1));
    } else {
      assert Unit(m, Sum(m, f, lo, mid));
    }
  }

  lemma SumFirst<T(!new)>(m: Monoid<T>, f: nat -> T, lo: nat, hi: nat)
    requires Lawful(m) && lo < hi
    ensures Sum(m, f, lo, hi) == m.plus(f(lo), Sum(m, f, lo + 1, hi))
  {
    SumSplit(m, f, lo, lo + 1, hi);
    assert Sum(m, f, lo, lo) == m.zero;
    assert Unit(m, f(lo));
  }

  lemma {:induction false} SumShift<T>(m: Monoid<T>, f: nat -> T, g: nat -> T, n: nat, d: nat)
    requires forall k :: 0 <= k < n ==> f(k) == g(d + k)
    ensures Sum(m, f, 0, n) == Sum(m, g, d, d + n)
  {
    if n > 0 {
      SumShift(m, f, g, n - 1, d);
    }
  }

  lemma Exchange<T(!new)>(m: Monoid<T>, a: T, b: T, c: T, d: T)
    requires Lawful(m)
    ensures m.plus(m.plus(a, b), m.plus(c, d)) == m.plus(m.plus(a, c), m.plus(b, d))
  {
    assert Associates(m, a, b, m.plus(c, d)) && Associates(m, b, c, d);
    assert Associates(m, a, c, m.plus(b, d)) && Associates(m, c, b, d);
    assert Commutes(m, b, c);
  }

  lemma {:induction false} SumPlus<T(!new)>(m: Monoid<T>, f: nat -> T, g: nat -> T, n: nat)
    requires Lawful(m)
    ensures Sum(m, (k: nat) => m.plus(f(k), g(k)), 0, n) == m.plus(Sum(m, f, 0, n), Sum(m, g, 0, n))
  {
    if n > 0 {
      SumPlus(m, f, g, n - 1);
      Exchange(m, Sum(m, f, 0, n - 1), f(n - 1), Sum(m, g, 0, n - 1), g(n - 1));
    } else {
      assert Unit(m, m.zero);
    }
  }

  lemma {:induction false} SumZeros<T(!new)>(m: Monoid<T>, f: nat -> T, n: nat)
    requires Lawful(m)
    requires forall k :: 0 <= k < n ==> f(k) == m.zero
    ensures Sum(m, f, 0, n) == m.zero
  {
    if n > 0 {
      SumZeros(m, f, n - 1);
      assert Unit(m, m.zero);
    }
  }

  /** j |-> f(i, j) */
  ghost function Slice<T>(f: (nat, nat) -> T, i: nat): nat -> T {
    (j: nat) => f(i, j)
  }

  /** i |-> f(i, 0) + ... + f(i, w - 1) */
  ghost function Inner<T>(m: Monoid<T>, f: (nat, nat) -> T, w: nat): nat -> T {
    (i: nat) => Sum(m, Slice(f, i), 0, w)
  }

  /** A sum of n * w terms, taken in n consecutive blocks of w. */
  lemma {:induction false} SumBlocks<T(!new)>(m: Monoid<T>, f: nat -> T, h: (nat, nat) -> T, n: nat, w: nat)
    requires Lawful(m)
    requires forall k: nat, u: nat :: k < n && u < w ==> h(k, u) == f(k * w + u)
    ensures Sum(m, f, 0, n * w) == Sum(m, Inner(m, h, w), 0, n)
  {
    if n > 0 {
      SumBlocks(m, f, h, n - 1, w);
      SumShift(m, Slice(h, n - 1), f, w, (n - 1) * w);
      assert n * w == (n - 1) * w + w;
      SumSplit(m, f, 0, (n - 1) * w, n * w);
    }
  }

  /** A double sum may be taken in either order. */
  lemma {:induction false} SumSwap<T(!new)>(m: Monoid<T>, f: (nat, nat) -> T, g: (nat, nat) -> T, a: nat, b: nat)
    requires Lawful(m)
    requires forall i: nat, j: nat :: i < a && j < b ==> f(i, j) == g(j, i)
    ensures Sum(m, Inner(m, f, b), 0, a) == Sum(m, Inner(m, g, a), 0, b)
  {
    if a == 0 {
      SumZeros(m, Inner(m, g, 0), b);
    } else {
      SumSwap(m, f, g, a - 1, b);
      var head, last := Inner(m, g, a - 1), (j: nat) => g(j, a - 1);
      SumPlus(m, head, last, b);
      SumExt(m, (j: nat) => m.plus(head(j), last(j)), Inner(m, g, a), 0, b);
      SumExt(m, Slice(f, a - 1), last, 0, b);
    }
  }

  /** (k0 - t) mod s, for 0 <= t <= s. */
  function Back(s: nat, k0: nat, t: nat): (r: nat)
    requires k0 < s && t <= s
    ensures r < s
  {
    if t <= k0 then k0 - t else k0 + s - t
  }

  /** g(Back(k0, 0)) + ... + g(Back(k0, t - 1)) */
  ghost function BackSum<T>(m: Monoid<T>, g: nat -> T, s: nat, k0: nat, t: nat): T
    requires k0 < s && t <= s
  {
    if t == 0 then m.zero else m.plus(BackSum(m, g, s, k0, t - 1), g(Back(s, k0, t - 1)))
  }

  /** The first t steps of a walk backwards from k0 cover [k0 + 1 - t, k0], and then the top of the range. */
  lemma {:induction false} BackSumRange<T(!new)>(m: Monoid<T>, g: nat -> T, s: nat, k0: nat, t: nat)
    requires Lawful(m) && k0 < s && t <= s
    ensures t <= k0 + 1 ==> BackSum(m, g, s, k0, t) == Sum(m, g, k0 + 1 - t, k0 + 1)
    ensures t > k0 ==> BackSum(m, g, s, k0, t) == m.plus(Sum(m, g, 0, k0 + 1), Sum(m, g, k0 + 1 + s - t, s))
  {
    if t > 0 {
      BackSumRange(m, g, s, k0, t - 1);
      var k := Back(s, k0, t - 1);
      if t <= k0 + 1 {
        SumFirst(m, g, k, k0 + 1);
        assert Commutes(m, BackSum(m, g, s, k0, t - 1), g(k));
      } else {
        SumFirst(m, g, k, s);
        assert Associates(m, Sum(m, g, 0, k0 + 1), Sum(m, g, k + 1, s), g(k));
        assert Commutes(m, Sum(m, g, k + 1, s), g(k));
      }
    }
    if t == k0 + 1 {
      assert Unit(m, Sum(m, g, 0, k0 + 1));
    }
  }

  /** Walking once around the cycle backwards, from any k0, adds every index exactly once. */
  lemma BackSumCycle<T(!new)>(m: Monoid<T>, g: nat -> T, s: nat, k0: nat)
    requires Lawful(m) && k0 < s
    ensures BackSum(m, g, s, k0, s) == Sum(m, g, 0, s)
  {
    BackSumRange(m, g, s, k0, s);
    SumSplit(m, g, 0, k0 + 1, s);
  }
}
