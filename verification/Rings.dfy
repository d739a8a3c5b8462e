/** Commutative rings as far as a Fourier transform needs them, and tables of the powers of a root of one. */
module Rings {
  import opened Sums

  datatype Ring<!T> = Ring(sum: Monoid<T>, one: T, mul: (T, T) -> T)

  ghost predicate Unital<T>(c: Ring<T>, x: T) {
    c.mul(x, c.one) == x && c.mul(c.sum.zero, x) == c.sum.zero
  }

  ghost predicate Distributes<T>(c: Ring<T>, x: T, y: T, z: T) {
    c.mul(c.sum.plus(x, y), z) == c.sum.plus(c.mul(x, z), c.mul(y, z))
  }

  ghost predicate Multiplies<T>(c: Ring<T>, x: T, y: T, z: T) {
    c.mul(c.mul(x, y), z) == c.mul(x, c.mul(y, z))
  }

  ghost predicate LawfulRing<T(!new)>(c: Ring<T>) {
    && Lawful(c.sum)
    && (forall x :: Unital(c, x))
    && (forall x, y, z :: Distributes(c, x, y, z))
    && (forall x, y, z :: Multiplies(c, x, y, z))
  }

  /** A common factor may be taken out of a sum. */
  lemma {:induction false} SumScale<T(!new)>(c: Ring<T>, f: nat -> T, g: nat -> T, factor: T, n: nat)
    requires LawfulRing(c)
    requires forall k: nat :: k < n ==> f(k) == c.mul(g(k), factor)
    ensures Sum(c.sum, f, 0, n) == c.mul(Sum(c.sum, g, 0, n), factor)
  {
    if n > 0 {
      SumScale(c, f, g, factor, n - 1);
      assert Distributes(c, Sum(c.sum, g, 0, n - 1), g(n - 1), factor);
    } else {
      assert Unital(c, factor);
    }
  }

  ghost predicate PowersAdd<T>(c: Ring<T>, w: seq<T>, n: nat, a: nat, b: nat) {
    0 < n < |w| && a < n && b < n ==> c.mul(w[a], w[b]) == w[if a + b < n then a + b else a + b - n]
  }

  /** w holds the powers of an n-th root of one, with the 0-th power stored at both ends. */
  ghost predicate Table<T>(c: Ring<T>, w: seq<T>, n: nat) {
    && 0 < n && |w| == n + 1 && w[0] == c.one && w[n] == c.one
    && (forall a: nat, b: nat :: PowersAdd(c, w, n, a, b))
  }

  /** The e-th power of the root, for any e: entry e mod n of the table. */
  ghost function Root<T>(w: seq<T>, n: nat, e: nat): T
    requires 0 < n < |w|
    decreases e
  {
    if e < n then w[e] else Root(w, n, e - n)
  }

  lemma {:induction false} RootAdds<T>(c: Ring<T>, w: seq<T>, n: nat, a: nat, b: nat)
    requires Table(c, w, n)
    ensures c.mul(Root(w, n, a), Root(w, n, b)) == Root(w, n, a + b)
    decreases a + b
  {
    if a >= n {
      RootAdds(c, w, n, a - n, b);
    } else if b >= n {
      RootAdds(c, w, n, a, b - n);
    } else {
      assert PowersAdd(c, w, n, a, b);
    }
  }

  /** Whole turns do not matter. */
  lemma {:induction false} RootTurns<T>(w: seq<T>, n: nat, e: nat, turns: nat)
    requires 0 < n < |w|
    ensures Root(w, n, e + n * turns) == Root(w, n, e)
    decreases turns
  {
    if turns > 0 {
      RootTurns(w, n, e, turns - 1);
      assert n * turns == n * (turns - 1) + n;
    }
  }

  lemma RootAt<T>(c: Ring<T>, w: seq<T>, n: nat, e: nat)
    requires Table(c, w, n) && e <= n
    ensures Root(w, n, e) == w[e]
  {
  }
}
