/** The recursive mixed-radix transform, in which source and destination change roles at every level. */
module Fft {
  import opened Arithmetic
  import opened Bits
  import opened Sums
  import opened Rings
  import opened Complexes
  import opened Dft
  import opened FftKernels
  import opened FftButterflies

  ghost predicate Setting(c: Ring<Complex>, w: seq<Complex>, nW: nat) {
    LawfulRing(c) && IsComplex(c) && Coefficients(c, w, nW)
  }

  /** dst holds, from o on, the n-point transform of what src holds there. */
  ghost predicate Transformed(c: Ring<Complex>, src: seq<Complex>, dst: seq<Complex>, w: seq<Complex>, nW: nat, o: nat, n: nat, d: nat)
    requires 0 < nW < |w|
  {
    forall e: nat :: e < n ==> Get(dst, o + e) == Spectrum(c, w, nW, Strided(c, src, o, 1), n, d, e)
  }

  /** A transform depends on the first n elements of its signal only. */
  lemma SpectrumExt(c: Ring<Complex>, w: seq<Complex>, nW: nat, x: nat -> Complex, y: nat -> Complex, n: nat, d: nat, e: nat)
    requires 0 < nW < |w|
    requires forall i: nat :: i < n ==> x(i) == y(i)
    ensures Spectrum(c, w, nW, x, n, d, e) == Spectrum(c, w, nW, y, n, d, e)
  {
    SumExt(c.sum, Turned(c, w, nW, x, d, e), Turned(c, w, nW, y, d, e), 0, n);
  }

  // From the unshuffled rows to the transform

  /** Row j is the j-th interleaved subsequence. */
  lemma RowIsPart(c: Ring<Complex>, src: seq<Complex>, u: seq<Complex>, o: nat, r: nat, m: nat, j: nat, i: nat)
    requires IsComplex(c) && Moved(src, u, o, r, m, 0, m, 0) && j < r && i < m
    ensures Strided(c, u, o + Place(m, j, 0), 1)(i) == Interleaved(Strided(c, src, o, 1), r, j)(i)
  {
    assert Place(m, j, 0) + Place(1, i, 0) == Place(m, j, i);
    assert Place(1, Place(r, i, j), 0) == Place(r, i, j);
  }

  lemma RowSpectrum(c: Ring<Complex>, src: seq<Complex>, u: seq<Complex>, rows: seq<Complex>, w: seq<Complex>, nW: nat, o: nat,
                    r: nat, m: nat, d: nat, j: nat, q: nat)
    requires IsComplex(c) && 0 < nW < |w| && Moved(src, u, o, r, m, 0, m, 0) && j < r && q < m
    requires Transformed(c, u, rows, w, nW, o + Place(m, j, 0), m, d * r)
    ensures ColumnOf(c, rows, o, m, q)(j) == Parts(c, w, nW, Strided(c, src, o, 1), r, m, d, q)(j)
  {
    forall i: nat | i < m
      ensures Strided(c, u, o + Place(m, j, 0), 1)(i) == Interleaved(Strided(c, src, o, 1), r, j)(i)
    {
      RowIsPart(c, src, u, o, r, m, j, i);
    }
    SpectrumExt(c, w, nW, Strided(c, u, o + Place(m, j, 0), 1), Interleaved(Strided(c, src, o, 1), r, j), m, d * r, q);
    assert Get(rows, o + Place(m, j, 0) + q) == Spectrum(c, w, nW, Strided(c, u, o + Place(m, j, 0), 1), m, d * r, q);
    ColumnAt(c, rows, o, m, q, j);
    assert Place(m, j, q) == Place(m, j, 0) + q;
  }

  ghost predicate RowDone(c: Ring<Complex>, u: seq<Complex>, rows: seq<Complex>, w: seq<Complex>, nW: nat, o: nat, m: nat, d: nat, j: nat)
    requires 0 < nW < |w|
  {
    Transformed(c, u, rows, w, nW, o + Place(m, j, 0), m, d)
  }

  ghost predicate RowsTo(c: Ring<Complex>, u: seq<Complex>, rows: seq<Complex>, w: seq<Complex>, nW: nat, o: nat, m: nat, d: nat, j: nat)
    requires 0 < nW < |w|
  {
    forall i: nat :: i < j ==> RowDone(c, u, rows, w, nW, o, m, d, i)
  }

  /** Nothing from k on, or before o, has changed. */
  ghost predicate Beyond(s: seq<Complex>, t: seq<Complex>, o: nat, k: nat) {
    |s| == |t| && forall p: nat :: p < o || k <= p ==> Get(s, p) == Get(t, p)
  }

  /** The rows' transforms, combined by the butterflies, are the whole transform. */
  lemma EntryCombines(c: Ring<Complex>, src: seq<Complex>, u: seq<Complex>, rows: seq<Complex>, dst: seq<Complex>, w: seq<Complex>,
                      nW: nat, o: nat, r: nat, m: nat, d: nat, q: nat, k: nat)
    requires Setting(c, w, nW) && nW == d * r * m && q < m && k < r
    requires Moved(src, u, o, r, m, 0, m, 0)
    requires RowsTo(c, u, rows, w, nW, o, m, d * r, r)
    requires ColumnDone(c, rows, dst, w, nW, o, r, m, d, q, k)
    ensures Get(dst, o + Place(m, k, q)) == Spectrum(c, w, nW, Strided(c, src, o, 1), m * r, d, Place(m, k, q))
  {
    var x := Strided(c, src, o, 1);
    forall j: nat | j < r
      ensures ColumnOf(c, rows, o, m, q)(j) == Parts(c, w, nW, x, r, m, d, q)(j)
    {
      assert RowDone(c, u, rows, w, nW, o, m, d * r, j);
      RowSpectrum(c, src, u, rows, w, nW, o, r, m, d, j, q);
    }
    SpectrumExt(c, w, nW, ColumnOf(c, rows, o, m, q), Parts(c, w, nW, x, r, m, d, q), r, d, Place(m, k, q));
    MixedRadix(c, w, nW, x, r, m, d, q, k, Place(m, k, q));
  }

  lemma Coordinates(e: nat, n: nat, r: nat, m: nat) returns (k: nat, q: nat)
    requires 0 < m && n == m * r && e < n
    ensures k < r && q < m && e == Place(m, k, q)
  {
    k, q := e / m, e % m;
    Divided(e, m);
    MulMono(r, k, m);
  }

  lemma Combined(c: Ring<Complex>, src: seq<Complex>, u: seq<Complex>, rows: seq<Complex>, dst: seq<Complex>, w: seq<Complex>,
                 nW: nat, o: nat, n: nat, r: nat, m: nat, d: nat)
    requires Setting(c, w, nW) && nW == d * r * m && n == m * r && 0 < m
    requires Moved(src, u, o, r, m, 0, m, 0)
    requires RowsTo(c, u, rows, w, nW, o, m, d * r, r)
    requires ColumnsDone(c, rows, dst, w, nW, o, r, m, d, 0, m)
    ensures Transformed(c, src, dst, w, nW, o, n, d)
  {
    forall e: nat | e < n
      ensures Get(dst, o + e) == Spectrum(c, w, nW, Strided(c, src, o, 1), n, d, e)
    {
      var k, q := Coordinates(e, n, r, m);
      assert ColumnTo(c, rows, dst, w, nW, o, r, m, d, q, r);
      assert ColumnDone(c, rows, dst, w, nW, o, r, m, d, q, k);
      EntryCombines(c, src, u, rows, dst, w, nW, o, r, m, d, q, k);
    }
  }

  /** A single butterfly over the whole of the input. */
  lemma OneColumn(c: Ring<Complex>, src: seq<Complex>, dst: seq<Complex>, w: seq<Complex>, nW: nat, o: nat, n: nat, d: nat)
    requires Setting(c, w, nW) && ColumnsDone(c, src, dst, w, nW, o, n, 1, d, 0, 1)
    ensures Transformed(c, src, dst, w, nW, o, n, d)
  {
    forall e: nat | e < n
      ensures Get(dst, o + e) == Spectrum(c, w, nW, Strided(c, src, o, 1), n, d, e)
    {
      assert ColumnTo(c, src, dst, w, nW, o, n, 1, d, 0, n);
      assert ColumnDone(c, src, dst, w, nW, o, n, 1, d, 0, e);
      assert Place(1, e, 0) == e;
    }
  }

  // The recursion

  predicate IsBase(n: nat) {
    n == 2 || n == 4 || n == 8 || n == 16 || n == 32
  }

  /** factors, from its head on, are the radices for n. */
  ghost predicate Factors(factors: seq<nat>, n: nat)
    decreases |factors|
  {
    IsBase(n)
    || (|factors| > 0 && 0 < factors[0] && n % factors[0] == 0 && (factors[0] == 1 ==> n == 1)
        && (factors[0] < n ==> Factors(factors[1..], n / factors[0])))
  }

  lemma Quotient(nW: nat, d: nat, n: nat)
    requires 0 < n && nW == d * n
    ensures nW / n == d
  {
    DivMod(n, d, 0);
  }

  lemma RadixOf(factors: seq<nat>, n: nat)
    requires 0 < n && Factors(factors, n) && !IsBase(n)
    ensures |factors| > 0 && 0 < factors[0]
    ensures var r, m := factors[0], n / factors[0];
      && 0 < m && n == m * r
      && (r < n ==> 2 <= r && m < n && Factors(factors[1..], m))
      && (r >= n ==> r == n && m == 1)
  {
    Divided(n, factors[0]);
    RadixCases(n, factors[0], n / factors[0]);
  }

  lemma RadixCases(n: nat, r: nat, m: nat)
    requires 0 < n == m * r
    ensures 0 < m && (r >= n ==> r == n && m == 1) && (2 <= r ==> m < n)
  {
    MulMono(2, m, r);
    MulMono(2, r, m);
  }

  /** The r rows of m elements lie within the n = r * m elements. */
  lemma RowFits(n: nat, r: nat, m: nat, j: nat)
    requires 0 < m && n == m * r && j <= r
    ensures Place(m, j, 0) < n <==> j < r
    ensures j < r ==> Place(m, j, 0) + m <= n && Place(m, j, 0) + m == Place(m, j + 1, 0)
  {
    MulMono(j + 1, r, m);
  }

  lemma RowsKept(c: Ring<Complex>, u: seq<Complex>, rows: seq<Complex>, rows': seq<Complex>, w: seq<Complex>, nW: nat, o: nat,
                 m: nat, d: nat, j: nat)
    requires 0 < nW < |w| && RowsTo(c, u, rows, w, nW, o, m, d, j) && Outside(rows, rows', o + Place(m, j, 0), m)
    requires RowDone(c, u, rows', w, nW, o, m, d, j)
    ensures RowsTo(c, u, rows', w, nW, o, m, d, j + 1)
  {
    forall i: nat | i < j
      ensures RowDone(c, u, rows', w, nW, o, m, d, i)
    {
      RowKept(c, u, rows, rows', w, nW, o, m, d, j, i);
    }
  }

  /** Row j, transformed by a call on rows from o + k on, with the earlier rows untouched. */
  lemma RowKept(c: Ring<Complex>, u: seq<Complex>, rows: seq<Complex>, rows': seq<Complex>, w: seq<Complex>, nW: nat, o: nat,
                m: nat, d: nat, j: nat, i: nat)
    requires 0 < nW < |w| && i < j && RowDone(c, u, rows, w, nW, o, m, d, i) && Outside(rows, rows', o + Place(m, j, 0), m)
    ensures RowDone(c, u, rows', w, nW, o, m, d, i)
  {
    var at := o + Place(m, i, 0);
    forall e: nat | e < m
      ensures Get(rows', at + e) == Spectrum(c, w, nW, Strided(c, u, at, 1), m, d, e)
    {
      PlaceOrder(m, j, i, e);
      assert Get(rows', at + e) == Get(rows, at + e);
    }
  }

  lemma RowFromRest(c: Ring<Complex>, u: seq<Complex>, b: seq<Complex>, rows: seq<Complex>, w: seq<Complex>, nW: nat, o: nat,
                    m: nat, d: nat, j: nat)
    requires 0 < nW < |w| && Transformed(c, b, rows, w, nW, o + Place(m, j, 0), m, d)
    requires Beyond(u, b, o, o + Place(m, j, 0)) && c.sum.zero == ZERO
    ensures RowDone(c, u, rows, w, nW, o, m, d, j)
  {
    var at := o + Place(m, j, 0);
    forall e: nat | e < m
      ensures Get(rows, at + e) == Spectrum(c, w, nW, Strided(c, u, at, 1), m, d, e)
    {
      forall i: nat | i < m
        ensures Strided(c, b, at, 1)(i) == Strided(c, u, at, 1)(i)
      {
        assert Get(b, at + Place(1, i, 0)) == Get(u, at + Place(1, i, 0));
      }
      SpectrumExt(c, w, nW, Strided(c, b, at, 1), Strided(c, u, at, 1), m, d, e);
    }
  }

  /** `fft_aux`: b receives the transform of a, from o on; a serves as scratch space. */
  method FftAux(ghost c: Ring<Complex>, n: nat, a: array<Complex>, b: array<Complex>, o: nat, factors: seq<nat>, w: seq<Complex>,
                nW: nat, ghost d: nat)
    requires Setting(c, w, nW) && 0 < n && nW == d * n && Factors(factors, n)
    requires a != b && o + n <= a.Length && o + n <= b.Length
    modifies a, b
    ensures Transformed(c, old(a[..]), b[..], w, nW, o, n, d)
    ensures Outside(old(a[..]), a[..], o, n) && Outside(old(b[..]), b[..], o, n)
    decreases n, 2
  {
    Quotient(nW, d, n);
    if IsBase(n) {
      FftBase(c, n, a, b, o, w, nW, nW / n);
    } else {
      RadixOf(factors, n);
      var r := factors[0];
      var m := n / r;
      if r < n {
        FftSplit(c, n, r, m, a, b, o, factors[1..], w, nW, nW / n);
      } else {
        Twiddle(c, n, 1, a, b, o, w, nW, nW / n);
        OneColumn(c, a[..], b[..], w, nW, o, n, d);
      }
    }
  }

  /** The special cases of `fft_aux`. The generated kernels for 8, 16 and 32 are taken at what a butterfly computes. */
  method FftBase(ghost c: Ring<Complex>, n: nat, a: array<Complex>, b: array<Complex>, o: nat, w: seq<Complex>, nW: nat, d: nat)
    requires Setting(c, w, nW) && IsBase(n) && nW == d * n
    requires a != b && o + n <= a.Length && o + n <= b.Length
    modifies b
    ensures Transformed(c, a[..], b[..], w, nW, o, n, d) && Outside(old(b[..]), b[..], o, n)
  {
    if n == 4 {
      Base4(c, a, b, w, nW, o, d);
    } else if n == 2 {
      Base2(c, a, b, w, nW, o, d);
    } else {
      TwiddleGen(c, 0, 1, a, b, w, nW, d, o, n, 1);
    }
    OneColumn(c, a[..], b[..], w, nW, o, n, d);
  }

  /** The final step of `fft_aux`: the butterflies of radix r over all m columns. */
  method Twiddle(ghost c: Ring<Complex>, r: nat, m: nat, a: array<Complex>, b: array<Complex>, o: nat, w: seq<Complex>, nW: nat,
                 d: nat)
    requires Setting(c, w, nW) && nW == d * (r * m) && 0 < m
    requires a != b && o + r * m <= a.Length && o + r * m <= b.Length
    modifies b
    ensures ColumnsDone(c, a[..], b[..], w, nW, o, r, m, d, 0, m) && Outside(old(b[..]), b[..], o, r * m)
  {
    if r == 2 {
      Twiddle2(c, 0, m, a, b, w, nW, d, o, m);
    } else if r == 4 {
      Twiddle4(c, 0, m, a, b, w, nW, d, o, m);
    } else {
      TwiddleGen(c, 0, m, a, b, w, nW, d, o, r, m);
    }
  }

  /** The unshuffling step of `fft_aux`. */
  method UnshuffleBy(r: nat, m: nat, a: array<Complex>, b: array<Complex>, o: nat)
    requires a != b && o + r * m <= a.Length && o + r * m <= b.Length
    modifies b
    ensures Moved(a[..], b[..], o, r, m, 0, m, 0) && Outside(old(b[..]), b[..], o, r * m)
  {
    if r == 4 {
      Unshuffle4(0, m, a, b, o, m);
    } else if r == 2 {
      Unshuffle2(0, m, a, b, o, m);
    } else {
      Unshuffle(0, m, a, b, o, r, m);
    }
  }

  lemma Regroup(d: nat, r: nat, m: nat)
    ensures d * (m * r) == d * (r * m) == (d * r) * m && r * m == m * r
  {
  }

  /** The case r < n of `fft_aux`: unshuffle, transform the r rows with the roles of the arrays exchanged, combine. */
  method FftSplit(ghost c: Ring<Complex>, n: nat, r: nat, m: nat, a: array<Complex>, b: array<Complex>, o: nat,
                  factors: seq<nat>, w: seq<Complex>, nW: nat, d: nat)
    requires Setting(c, w, nW) && 0 < m < n && n == m * r && nW == d * n && Factors(factors, m)
    requires a != b && o + n <= a.Length && o + n <= b.Length
    modifies a, b
    ensures Transformed(c, old(a[..]), b[..], w, nW, o, n, d)
    ensures Outside(old(a[..]), a[..], o, n) && Outside(old(b[..]), b[..], o, n)
    decreases n, 1
  {
    ghost var src := a[..];
    Regroup(d, r, m);
    UnshuffleBy(r, m, a, b, o);
    ghost var u := b[..];
    FftRows(c, n, r, m, a, b, o, factors, w, nW, d * r);
    Twiddle(c, r, m, a, b, o, w, nW, d);
    Combined(c, src, u, a[..], b[..], w, nW, o, n, r, m, d);
  }

  method FftRows(ghost c: Ring<Complex>, n: nat, ghost r: nat, m: nat, a: array<Complex>, b: array<Complex>, o: nat,
                 factors: seq<nat>, w: seq<Complex>, nW: nat, ghost d: nat)
    requires Setting(c, w, nW) && 0 < m < n && n == m * r && nW == d * m && Factors(factors, m)
    requires a != b && o + n <= a.Length && o + n <= b.Length
    modifies a, b
    ensures RowsTo(c, old(b[..]), a[..], w, nW, o, m, d, r)
    ensures Outside(old(a[..]), a[..], o, n) && Outside(old(b[..]), b[..], o, n)
    decreases n, 0
  {
    ghost var u, src := b[..], a[..];
    var k: nat := 0;
    ghost var j: nat := 0;
    RowFits(n, r, m, 0);
    while k < n
      invariant k == Place(m, j, 0) && j <= r && (k < n <==> j < r)
      invariant RowsTo(c, u, a[..], w, nW, o, m, d, j)
      invariant Beyond(u, b[..], o, o + k)
      invariant Outside(src, a[..], o, n)
      decreases n - k
    {
      RowFits(n, r, m, j);
      FftRow(c, n, m, a, b, o, k, factors, w, nW, d, u, src, j);
      k, j := k + m, j + 1;
      RowFits(n, r, m, j);
    }
  }

  /** One turn of the loop: row j, which starts k elements behind o. */
  method FftRow(ghost c: Ring<Complex>, ghost n: nat, m: nat, a: array<Complex>, b: array<Complex>, o: nat, k: nat,
                factors: seq<nat>, w: seq<Complex>, nW: nat, ghost d: nat, ghost u: seq<Complex>, ghost src: seq<Complex>, ghost j: nat)
    requires Setting(c, w, nW) && 0 < m < n && k == Place(m, j, 0) && k + m <= n && nW == d * m && Factors(factors, m)
    requires a != b && o + n <= a.Length && o + n <= b.Length
    requires RowsTo(c, u, a[..], w, nW, o, m, d, j) && Beyond(u, b[..], o, o + k) && Outside(src, a[..], o, n)
    modifies a, b
    ensures RowsTo(c, u, a[..], w, nW, o, m, d, j + 1) && Beyond(u, b[..], o, o + k + m) && Outside(src, a[..], o, n)
    decreases m, 3
  {
    ghost var rest, rows := b[..], a[..];
    FftAux(c, m, b, a, o + k, factors, w, nW, d);
    RowFromRest(c, u, rest, a[..], w, nW, o, m, d, j);
    RowsKept(c, u, rows, a[..], w, nW, o, m, d, j);
  }
}
