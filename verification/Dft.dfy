/** The discrete Fourier transform over a commutative ring, and its mixed-radix decomposition. */
module Dft {
  import opened Arithmetic
  import opened Sums
  import opened Rings

  function At<T>(s: seq<T>, i: nat, none: T): T {
    if i < |s| then s[i] else none
  }

  /** The exponent of the root in term i of entry k. */
  function Exp(d: nat, i: nat, k: nat): nat {
    d * i * k
  }

  /** A signal: s[base], s[base + step], ... */
  ghost function Strided<T>(c: Ring<T>, s: seq<T>, base: nat, step: nat): nat -> T {
    (i: nat) => At(s, base + Place(step, i, 0), c.sum.zero)
  }

  /** i |-> x(i) * root^(d * i * k) */
  ghost function Turned<T>(c: Ring<T>, w: seq<T>, nW: nat, x: nat -> T, d: nat, k: nat): nat -> T
    requires 0 < nW < |w|
  {
    (i: nat) => c.mul(x(i), Root(w, nW, Exp(d, i, k)))
  }

  /** Entry k of the n-point transform of x; d is nW / n. */
  ghost function Spectrum<T>(c: Ring<T>, w: seq<T>, nW: nat, x: nat -> T, n: nat, d: nat, k: nat): T
    requires 0 < nW < |w|
  {
    Sum(c.sum, Turned(c, w, nW, x, d, k), 0, n)
  }

  /** i |-> x(i * r + j) */
  ghost function Interleaved<T>(x: nat -> T, r: nat, j: nat): nat -> T {
    (i: nat) => x(Place(r, i, j))
  }

  /** j |-> entry q of the m-point transform of the j-th of r interleaved subsequences */
  ghost function Parts<T>(c: Ring<T>, w: seq<T>, nW: nat, x: nat -> T, r: nat, m: nat, d: nat, q: nat): nat -> T
    requires 0 < nW < |w|
  {
    (j: nat) => Spectrum(c, w, nW, Interleaved(x, r, j), m, d * r, q)
  }

  lemma Exponents(d: nat, r: nat, m: nat, i: nat, j: nat, q: nat, k: nat)
    ensures Exp(d, Place(r, i, j), q + m * k) == (Exp(d * r, i, q) + Exp(d, j, q + m * k)) + (d * r * m) * (i * k)
  {
    assert d * (i * r + j) * (q + m * k) == d * (i * r) * (q + m * k) + d * j * (q + m * k);
    assert d * (i * r) * (q + m * k) == d * (i * r) * q + d * (i * r) * (m * k);
    assert d * (i * r) * q == (d * r) * i * q;
    assert d * (i * r) * (m * k) == (d * r * m) * (i * k);
  }

  lemma RootSplits<T>(c: Ring<T>, w: seq<T>, nW: nat, r: nat, m: nat, d: nat, i: nat, j: nat, q: nat, k: nat, entry: nat)
    requires Table(c, w, nW) && nW == d * r * m && entry == q + m * k
    ensures Root(w, nW, Exp(d, Place(r, i, j), entry)) == c.mul(Root(w, nW, Exp(d * r, i, q)), Root(w, nW, Exp(d, j, entry)))
  {
    var a, b, turns: nat := Exp(d * r, i, q), Exp(d, j, entry), i * k;
    assert Exp(d, Place(r, i, j), entry) == (a + b) + nW * turns by { Exponents(d, r, m, i, j, q, k); }
    RootTurns(w, nW, a + b, turns);
    RootAdds(c, w, nW, a, b);
  }

  /** One term of the transform is a term of the j-th part times a twiddle factor. */
  lemma TermSplits<T(!new)>(c: Ring<T>, w: seq<T>, nW: nat, x: nat -> T, r: nat, m: nat, d: nat, i: nat, j: nat, q: nat, k: nat,
                            entry: nat)
    requires LawfulRing(c) && Table(c, w, nW) && nW == d * r * m && entry == q + m * k
    ensures Turned(c, w, nW, x, d, entry)(Place(r, i, j))
         == c.mul(Turned(c, w, nW, Interleaved(x, r, j), d * r, q)(i), Root(w, nW, Exp(d, j, entry)))
  {
    RootSplits(c, w, nW, r, m, d, i, j, q, k, entry);
    assert Multiplies(c, x(Place(r, i, j)), Root(w, nW, Exp(d * r, i, q)), Root(w, nW, Exp(d, j, entry)));
  }

  /** (i, j) |-> term i * r + j of the transform */
  ghost function ByRows<T>(f: nat -> T, r: nat): (nat, nat) -> T {
    (i: nat, j: nat) => f(Place(r, i, j))
  }

  ghost function ByColumns<T>(f: nat -> T, r: nat): (nat, nat) -> T {
    (j: nat, i: nat) => f(Place(r, i, j))
  }

  lemma PartOf<T(!new)>(c: Ring<T>, w: seq<T>, nW: nat, x: nat -> T, r: nat, m: nat, d: nat, q: nat, k: nat, entry: nat, j: nat)
    requires LawfulRing(c) && Table(c, w, nW) && nW == d * r * m && entry == q + m * k
    ensures Inner(c.sum, ByColumns(Turned(c, w, nW, x, d, entry), r), m)(j)
         == Turned(c, w, nW, Parts(c, w, nW, x, r, m, d, q), d, entry)(j)
  {
    var f, part := Turned(c, w, nW, x, d, entry), Turned(c, w, nW, Interleaved(x, r, j), d * r, q);
    forall i: nat | i < m
      ensures Slice(ByColumns(f, r), j)(i) == c.mul(part(i), Root(w, nW, Exp(d, j, entry)))
    {
      TermSplits(c, w, nW, x, r, m, d, i, j, q, k, entry);
    }
    SumScale(c, Slice(ByColumns(f, r), j), part, Root(w, nW, Exp(d, j, entry)), m);
  }

  lemma RowsCover<T>(f: nat -> T, r: nat, m: nat)
    ensures forall i: nat, j: nat :: i < m && j < r ==> ByRows(f, r)(i, j) == f(i * r + j)
  {
    forall i: nat, j: nat | i < m && j < r
      ensures ByRows(f, r)(i, j) == f(i * r + j)
    {
      assert Place(r, i, j) == i * r + j;
    }
  }

  /** Mixed radix: entry q + m * k of an (m * r)-point transform is the k-th entry of an r-point transform of the
      q-th entries of the r transforms of the interleaved subsequences, each turned by its twiddle factor. */
  lemma MixedRadix<T(!new)>(c: Ring<T>, w: seq<T>, nW: nat, x: nat -> T, r: nat, m: nat, d: nat, q: nat, k: nat, entry: nat)
    requires LawfulRing(c) && Table(c, w, nW) && nW == d * r * m && entry == q + m * k
    ensures Sum(c.sum, Turned(c, w, nW, Parts(c, w, nW, x, r, m, d, q), d, entry), 0, r)
         == Spectrum(c, w, nW, x, m * r, d, entry)
  {
    var f := Turned(c, w, nW, x, d, entry);
    RowsCover(f, r, m);
    SumBlocks(c.sum, f, ByRows(f, r), m, r);
    SumSwap(c.sum, ByRows(f, r), ByColumns(f, r), m, r);
    forall j: nat | j < r
      ensures Inner(c.sum, ByColumns(f, r), m)(j)
           == Turned(c, w, nW, Parts(c, w, nW, x, r, m, d, q), d, entry)(j)
    {
      PartOf(c, w, nW, x, r, m, d, q, k, entry, j);
    }
    SumExt(c.sum, Inner(c.sum, ByColumns(f, r), m),
           Turned(c, w, nW, Parts(c, w, nW, x, r, m, d, q), d, entry), 0, r);
  }
}
