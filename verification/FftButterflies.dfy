/** Radix 2 and radix 4: the butterflies that the source writes out by hand. */
module FftButterflies {
  import opened Arithmetic
  import opened Sums
  import opened Rings
  import opened Complexes
  import opened Dft
  import opened FftKernels

  /** y times the t-th power of -i */
  function Quarters(y: Complex, t: nat): Complex {
    if t == 0 then y else if t == 1 then Complex(y.im, -y.re) else if t == 2 then Complex(-y.re, -y.im) else Complex(-y.im, y.re)
  }

  lemma HalfTurn(c: Ring<Complex>, w: seq<Complex>, nW: nat, y: Complex)
    requires IsComplex(c) && Coefficients(c, w, nW) && nW % 2 == 0
    ensures c.mul(y, Root(w, nW, nW / 2)) == Quarters(y, 2)
  {
    Turns(y);
    assert Times(c, y, MINUS_ONE);
  }

  lemma QuarterRoots(c: Ring<Complex>, w: seq<Complex>, nW: nat, h: nat)
    requires Coefficients(c, w, nW) && c.one == ONE && nW == 4 * h
    ensures Root(w, nW, 0) == ONE && Root(w, nW, h) == MINUS_I && Root(w, nW, 2 * h) == MINUS_ONE
  {
    assert nW / 4 == h && nW / 2 == 2 * h;
    RootAt(c, w, nW, 0);
    RootAt(c, w, nW, h);
    RootAt(c, w, nW, 2 * h);
  }

  lemma ThreeQuarters(c: Ring<Complex>, w: seq<Complex>, nW: nat, h: nat)
    requires IsComplex(c) && Coefficients(c, w, nW) && nW == 4 * h
    ensures Root(w, nW, 3 * h) == I
  {
    QuarterRoots(c, w, nW, h);
    RootAdds(c, w, nW, h, 2 * h);
    HalfTurn(c, w, nW, MINUS_I);
    assert nW / 2 == 2 * h;
  }

  lemma QuarterTurn(c: Ring<Complex>, w: seq<Complex>, nW: nat, h: nat, y: Complex, t: nat, turns: nat)
    requires IsComplex(c) && Coefficients(c, w, nW) && nW == 4 * h && t < 4
    ensures c.mul(y, Root(w, nW, h * (t + 4 * turns))) == Quarters(y, t)
  {
    QuarterRoots(c, w, nW, h);
    ThreeQuarters(c, w, nW, h);
    assert h * (t + 4 * turns) == h * t + nW * turns;
    RootTurns(w, nW, h * t, turns);
    Turns(y);
    assert Times(c, y, ONE) && Times(c, y, MINUS_I) && Times(c, y, MINUS_ONE) && Times(c, y, I);
  }

  /** A term of entry q + m * k is the term of entry q, turned by j * k steps of the r-th root. */
  lemma TermTurns(c: Ring<Complex>, w: seq<Complex>, nW: nat, x: Complex, d: nat, m: nat, q: nat, j: nat, k: nat)
    requires LawfulRing(c) && Table(c, w, nW)
    ensures c.mul(x, Root(w, nW, Exp(d, j, Place(m, k, q)))) == c.mul(c.mul(x, Root(w, nW, Exp(d, j, q))), Root(w, nW, (d * m) * (j * k)))
  {
    assert d * j * (k * m + q) == d * j * q + d * j * (k * m);
    assert d * j * (k * m) == (d * m) * (j * k);
    RootAdds(c, w, nW, Exp(d, j, q), (d * m) * (j * k));
    assert Multiplies(c, x, Root(w, nW, Exp(d, j, q)), Root(w, nW, (d * m) * (j * k)));
  }

  /** x(j) times its twiddle factor in column q. */
  ghost function Twisted(c: Ring<Complex>, w: seq<Complex>, nW: nat, x: nat -> Complex, d: nat, q: nat, j: nat): Complex
    requires 0 < nW < |w|
  {
    c.mul(x(j), Root(w, nW, Exp(d, j, q)))
  }

  lemma FirstTerm(c: Ring<Complex>, w: seq<Complex>, nW: nat, x: nat -> Complex, d: nat, entry: nat)
    requires LawfulRing(c) && Table(c, w, nW)
    ensures Spectrum(c, w, nW, x, 1, d, entry) == x(0)
  {
    SpectrumNext(c, w, nW, x, 0, d, entry);
    RootAt(c, w, nW, 0);
    assert Exp(d, 0, entry) == 0;
    assert Unital(c, x(0)) && Unit(c.sum, x(0));
  }

  lemma Radix2(c: Ring<Complex>, w: seq<Complex>, nW: nat, x: nat -> Complex, d: nat, m: nat, q: nat)
    requires LawfulRing(c) && IsComplex(c) && Coefficients(c, w, nW) && nW == d * (2 * m)
    ensures Spectrum(c, w, nW, x, 2, d, Place(m, 0, q)) == Add(x(0), Twisted(c, w, nW, x, d, q, 1))
    ensures Spectrum(c, w, nW, x, 2, d, Place(m, 1, q)) == Sub(x(0), Twisted(c, w, nW, x, d, q, 1))
  {
    var y := Twisted(c, w, nW, x, d, q, 1);
    FirstTerm(c, w, nW, x, d, Place(m, 0, q));
    FirstTerm(c, w, nW, x, d, Place(m, 1, q));
    SpectrumNext(c, w, nW, x, 1, d, Place(m, 0, q));
    SpectrumNext(c, w, nW, x, 1, d, Place(m, 1, q));
    assert nW == 2 * (d * m);
    TermTurns(c, w, nW, x(1), d, m, q, 1, 1);
    assert (d * m) * (1 * 1) == nW / 2;
    HalfTurn(c, w, nW, y);
    assert Place(m, 0, q) == q;
    assert Adds(c, x(0), y) && Adds(c, x(0), Quarters(y, 2));
  }

  /** Term j of entry q + m * k, where j * k is t plus four times turns. */
  lemma TermInQuarters(c: Ring<Complex>, w: seq<Complex>, nW: nat, x: nat -> Complex, d: nat, m: nat, q: nat, j: nat, k: nat,
                       t: nat, turns: nat)
    requires LawfulRing(c) && IsComplex(c) && Coefficients(c, w, nW) && nW == 4 * (d * m) && j * k == t + 4 * turns && t < 4
    ensures c.mul(x(j), Root(w, nW, Exp(d, j, Place(m, k, q)))) == Quarters(Twisted(c, w, nW, x, d, q, j), t)
  {
    TermTurns(c, w, nW, x(j), d, m, q, j, k);
    QuarterTurn(c, w, nW, d * m, Twisted(c, w, nW, x, d, q, j), t, turns);
  }

  function Residue4(t: nat): nat {
    if t < 4 then t else if t < 8 then t - 4 else t - 8
  }

  /** Entry q + m * k is a 4-point transform of the twisted column. */
  lemma Radix4(c: Ring<Complex>, w: seq<Complex>, nW: nat, x: nat -> Complex, d: nat, m: nat, q: nat, k: nat)
    requires LawfulRing(c) && IsComplex(c) && Coefficients(c, w, nW) && nW == d * (4 * m) && k < 4
    ensures Spectrum(c, w, nW, x, 4, d, Place(m, k, q))
         == Add(Add(Add(x(0), Quarters(Twisted(c, w, nW, x, d, q, 1), k)),
                    Quarters(Twisted(c, w, nW, x, d, q, 2), Residue4(2 * k))),
                Quarters(Twisted(c, w, nW, x, d, q, 3), Residue4(3 * k)))
  {
    var e := Place(m, k, q);
    assert nW == 4 * (d * m);
    FirstTerm(c, w, nW, x, d, e);
    SpectrumNext(c, w, nW, x, 1, d, e);
    SpectrumNext(c, w, nW, x, 2, d, e);
    SpectrumNext(c, w, nW, x, 3, d, e);
    TermInQuarters(c, w, nW, x, d, m, q, 1, k, k, 0);
    TermInQuarters(c, w, nW, x, d, m, q, 2, k, Residue4(2 * k), if k < 2 then 0 else 1);
    TermInQuarters(c, w, nW, x, d, m, q, 3, k, Residue4(3 * k), if k < 2 then 0 else if k < 3 then 1 else 2);
    var y1, y2, y3 := Twisted(c, w, nW, x, d, q, 1), Twisted(c, w, nW, x, d, q, 2), Twisted(c, w, nW, x, d, q, 3);
    var z1, z2, z3 := Quarters(y1, k), Quarters(y2, Residue4(2 * k)), Quarters(y3, Residue4(3 * k));
    assert Adds(c, x(0), z1) && Adds(c, Add(x(0), z1), z2) && Adds(c, Add(Add(x(0), z1), z2), z3);
  }

  /** The factor that the source multiplies with: entry j * l1 of the table, l1 = d * q. */
  lemma FactorAt(c: Ring<Complex>, w: seq<Complex>, nW: nat, d: nat, r: nat, m: nat, q: nat, j: nat)
    requires Table(c, w, nW) && nW == d * (r * m) && q < m && j < r
    ensures j * (d * q) <= nW && w[j * (d * q)] == Root(w, nW, Exp(d, j, q))
  {
    MulMono(j, r, q);
    MulMono(q, m, r);
    MulMono(j * q, r * m, d);
    assert j * (d * q) == Exp(d, j, q);
    RootAt(c, w, nW, Exp(d, j, q));
  }

  /** A loaded value times a loaded twiddle factor, on real and imaginary parts. */
  method Twist(ghost c: Ring<Complex>, wk: Complex, tmp: Complex) returns (y: Complex)
    requires IsComplex(c)
    ensures y == c.mul(tmp, wk)
  {
    y := Complex(wk.re * tmp.re - wk.im * tmp.im, wk.im * tmp.re + wk.re * tmp.im);
    assert Times(c, tmp, wk);
  }

  /** The additions of `fft_base_4` and `fft_twiddle_4`, on real and imaginary parts. */
  method Combine4(y0: Complex, y1: Complex, y2: Complex, y3: Complex)
    returns (z0: Complex, z1: Complex, z2: Complex, z3: Complex)
    ensures z0 == Add(Add(Add(y0, y1), y2), y3)
    ensures z1 == Add(Add(Add(y0, Quarters(y1, 1)), Quarters(y2, 2)), Quarters(y3, 3))
    ensures z2 == Add(Add(Add(y0, Quarters(y1, 2)), y2), Quarters(y3, 2))
    ensures z3 == Add(Add(Add(y0, Quarters(y1, 3)), Quarters(y2, 2)), Quarters(y3, 1))
  {
    var r0, i0 := y0.re + y2.re, y0.im + y2.im;
    var r2, i2 := y0.re - y2.re, y0.im - y2.im;
    var r1, i1 := y1.re + y3.re, y1.im + y3.im;
    var r3, i3 := y1.re - y3.re, y1.im - y3.im;
    z0, z2 := Complex(r0 + r1, i0 + i1), Complex(r0 - r1, i0 - i1);
    z1, z3 := Complex(r2 + i3, i2 - r3), Complex(r2 - i3, i2 + r3);
  }

  // The loops

  lemma ColumnAt(c: Ring<Complex>, src: seq<Complex>, o: nat, m: nat, q: nat, j: nat)
    requires IsComplex(c)
    ensures ColumnOf(c, src, o, m, q)(j) == Get(src, o + Place(m, j, q))
  {
    assert Place(m, j, q) == q + Place(m, j, 0);
  }

  /** One entry of a column is stored. */
  method Store(ghost c: Ring<Complex>, ghost src: seq<Complex>, ghost before: seq<Complex>, dst: array<Complex>,
               ghost w: seq<Complex>, ghost nW: nat, ghost o: nat, ghost r: nat, ghost m: nat, ghost d: nat, ghost q: nat,
               ghost k: nat, p: nat, z: Complex)
    requires 0 < nW < |w| && q < m && k < r && o + r * m <= dst.Length && p == o + Place(m, k, q)
    requires ColumnTo(c, src, dst[..], w, nW, o, r, m, d, q, k) && OtherColumns(before, dst[..], o, r, m, q, q + 1)
    requires z == Spectrum(c, w, nW, ColumnOf(c, src, o, m, q), r, d, Place(m, k, q))
    modifies dst
    ensures ColumnTo(c, src, dst[..], w, nW, o, r, m, d, q, k + 1) && OtherColumns(before, dst[..], o, r, m, q, q + 1)
  {
    PutNext(c, src, before, dst[..], w, nW, o, r, m, d, q, k, z);
    dst[p] := z;
  }

  /** The body of `fft_twiddle_2`; with m = 1 and factors 1 it is `fft_base_2`. */
  method Column2(ghost c: Ring<Complex>, src: array<Complex>, dst: array<Complex>, w: seq<Complex>, nW: nat, o: nat, m: nat,
                 ghost d: nat, q: nat, l1: nat)
    requires LawfulRing(c) && IsComplex(c) && Coefficients(c, w, nW) && nW == d * (2 * m) && q < m && l1 == d * q
    requires src != dst && o + 2 * m <= src.Length && o + 2 * m <= dst.Length
    modifies dst
    ensures ColumnsDone(c, src[..], dst[..], w, nW, o, 2, m, d, q, q + 1)
    ensures OtherColumns(old(dst[..]), dst[..], o, 2, m, q, q + 1)
  {
    ghost var x := ColumnOf(c, src[..], o, m, q);
    ColumnAt(c, src[..], o, m, q, 0);
    ColumnAt(c, src[..], o, m, q, 1);
    FactorAt(c, w, nW, d, 2, m, q, 1);
    Radix2(c, w, nW, x, d, m, q);
    var y0 := src[o + q];
    var y1 := Twist(c, w[l1], src[o + q + m]);
    var z0, z1 := Complex(y0.re + y1.re, y0.im + y1.im), Complex(y0.re - y1.re, y0.im - y1.im);
    ghost var line, before := src[..], dst[..];
    Store(c, line, before, dst, w, nW, o, 2, m, d, q, 0, o + q, z0);
    Store(c, line, before, dst, w, nW, o, 2, m, d, q, 1, o + q + m, z1);
  }

  /** `fft_twiddle_2` */
  method Twiddle2(ghost c: Ring<Complex>, lo: nat, hi: nat, src: array<Complex>, dst: array<Complex>, w: seq<Complex>, nW: nat,
                  nWdn: nat, o: nat, m: nat)
    requires LawfulRing(c) && IsComplex(c) && Coefficients(c, w, nW) && nW == nWdn * (2 * m) && lo <= hi <= m
    requires src != dst && o + 2 * m <= src.Length && o + 2 * m <= dst.Length
    modifies dst
    ensures ColumnsDone(c, src[..], dst[..], w, nW, o, 2, m, nWdn, lo, hi)
    ensures OtherColumns(old(dst[..]), dst[..], o, 2, m, lo, hi)
  {
    var l1 := nWdn * lo;
    for i := lo to hi
      invariant l1 == nWdn * i
      invariant ColumnsDone(c, src[..], dst[..], w, nW, o, 2, m, nWdn, lo, i)
      invariant OtherColumns(old(dst[..]), dst[..], o, 2, m, lo, i)
    {
      ghost var before := dst[..];
      Column2(c, src, dst, w, nW, o, m, nWdn, i, l1);
      ColumnsStay(c, src[..], before, dst[..], w, nW, o, 2, m, nWdn, lo, i, i + 1);
      OtherColumnsJoin(old(dst[..]), before, dst[..], o, 2, m, lo, i, i + 1);
      l1 := l1 + nWdn;
    }
  }

  method Butterfly4(ghost c: Ring<Complex>, ghost w: seq<Complex>, ghost nW: nat, ghost x: nat -> Complex, ghost d: nat,
                    ghost m: nat, ghost q: nat, y0: Complex, y1: Complex, y2: Complex, y3: Complex)
    returns (z0: Complex, z1: Complex, z2: Complex, z3: Complex)
    requires LawfulRing(c) && IsComplex(c) && Coefficients(c, w, nW) && nW == d * (4 * m) && y0 == x(0)
    requires y1 == Twisted(c, w, nW, x, d, q, 1) && y2 == Twisted(c, w, nW, x, d, q, 2) && y3 == Twisted(c, w, nW, x, d, q, 3)
    ensures z0 == Spectrum(c, w, nW, x, 4, d, Place(m, 0, q)) && z1 == Spectrum(c, w, nW, x, 4, d, Place(m, 1, q))
    ensures z2 == Spectrum(c, w, nW, x, 4, d, Place(m, 2, q)) && z3 == Spectrum(c, w, nW, x, 4, d, Place(m, 3, q))
  {
    z0, z1, z2, z3 := Combine4(y0, y1, y2, y3);
    Radix4(c, w, nW, x, d, m, q, 0);
    Radix4(c, w, nW, x, d, m, q, 1);
    Radix4(c, w, nW, x, d, m, q, 2);
    Radix4(c, w, nW, x, d, m, q, 3);
  }

  /** The body of `fft_twiddle_4`; with m = 1 and factors 1 it is `fft_base_4`. */
  method Column4(ghost c: Ring<Complex>, src: array<Complex>, dst: array<Complex>, w: seq<Complex>, nW: nat, o: nat, m: nat,
                 ghost d: nat, q: nat, l1: nat)
    requires LawfulRing(c) && IsComplex(c) && Coefficients(c, w, nW) && nW == d * (4 * m) && q < m && l1 == d * q
    requires src != dst && o + 4 * m <= src.Length && o + 4 * m <= dst.Length
    modifies dst
    ensures ColumnsDone(c, src[..], dst[..], w, nW, o, 4, m, d, q, q + 1)
    ensures OtherColumns(old(dst[..]), dst[..], o, 4, m, q, q + 1)
  {
    ghost var x := ColumnOf(c, src[..], o, m, q);
    var y0, y1, y2, y3 := LoadColumn4(c, src, w, nW, o, m, d, q, l1);
    var z0, z1, z2, z3 := Butterfly4(c, w, nW, x, d, m, q, y0, y1, y2, y3);
    ghost var line, before := src[..], dst[..];
    Store(c, line, before, dst, w, nW, o, 4, m, d, q, 0, o + q, z0);
    Store(c, line, before, dst, w, nW, o, 4, m, d, q, 1, o + q + m, z1);
    Store(c, line, before, dst, w, nW, o, 4, m, d, q, 2, o + q + 2 * m, z2);
    Store(c, line, before, dst, w, nW, o, 4, m, d, q, 3, o + q + 3 * m, z3);
  }

  method LoadColumn4(ghost c: Ring<Complex>, src: array<Complex>, w: seq<Complex>, nW: nat, o: nat, m: nat, ghost d: nat,
                     q: nat, l1: nat)
    returns (y0: Complex, y1: Complex, y2: Complex, y3: Complex)
    requires IsComplex(c) && Table(c, w, nW) && nW == d * (4 * m) && q < m && l1 == d * q && o + 4 * m <= src.Length
    ensures var x := ColumnOf(c, src[..], o, m, q);
      && y0 == x(0)
      && y1 == Twisted(c, w, nW, x, d, q, 1) && y2 == Twisted(c, w, nW, x, d, q, 2) && y3 == Twisted(c, w, nW, x, d, q, 3)
  {
    ColumnAt(c, src[..], o, m, q, 0);
    ColumnAt(c, src[..], o, m, q, 1);
    ColumnAt(c, src[..], o, m, q, 2);
    ColumnAt(c, src[..], o, m, q, 3);
    FactorAt(c, w, nW, d, 4, m, q, 1);
    FactorAt(c, w, nW, d, 4, m, q, 2);
    FactorAt(c, w, nW, d, 4, m, q, 3);
    y0 := src[o + q];
    y2 := Twist(c, w[2 * l1], src[o + q + 2 * m]);
    y1 := Twist(c, w[l1], src[o + q + m]);
    y3 := Twist(c, w[3 * l1], src[o + q + 3 * m]);
  }

  /** `fft_twiddle_4` */
  method Twiddle4(ghost c: Ring<Complex>, lo: nat, hi: nat, src: array<Complex>, dst: array<Complex>, w: seq<Complex>, nW: nat,
                  nWdn: nat, o: nat, m: nat)
    requires LawfulRing(c) && IsComplex(c) && Coefficients(c, w, nW) && nW == nWdn * (4 * m) && lo <= hi <= m
    requires src != dst && o + 4 * m <= src.Length && o + 4 * m <= dst.Length
    modifies dst
    ensures ColumnsDone(c, src[..], dst[..], w, nW, o, 4, m, nWdn, lo, hi)
    ensures OtherColumns(old(dst[..]), dst[..], o, 4, m, lo, hi)
  {
    var l1 := nWdn * lo;
    for i := lo to hi
      invariant l1 == nWdn * i
      invariant ColumnsDone(c, src[..], dst[..], w, nW, o, 4, m, nWdn, lo, i)
      invariant OtherColumns(old(dst[..]), dst[..], o, 4, m, lo, i)
    {
      ghost var before := dst[..];
      Column4(c, src, dst, w, nW, o, m, nWdn, i, l1);
      ColumnsStay(c, src[..], before, dst[..], w, nW, o, 4, m, nWdn, lo, i, i + 1);
      OtherColumnsJoin(old(dst[..]), before, dst[..], o, 4, m, lo, i, i + 1);
      l1 := l1 + nWdn;
    }
  }

  // The base cases, which need no twiddle factors

  lemma NoTwist(c: Ring<Complex>, w: seq<Complex>, nW: nat, x: nat -> Complex, d: nat, j: nat)
    requires LawfulRing(c) && Table(c, w, nW)
    ensures Twisted(c, w, nW, x, d, 0, j) == x(j)
  {
    assert Exp(d, j, 0) == 0;
    RootAt(c, w, nW, 0);
    assert Unital(c, x(j));
  }

  /** `fft_base_2` */
  method Base2(ghost c: Ring<Complex>, src: array<Complex>, dst: array<Complex>, ghost w: seq<Complex>, ghost nW: nat, o: nat,
               ghost d: nat)
    requires LawfulRing(c) && IsComplex(c) && Coefficients(c, w, nW) && nW == d * (2 * 1)
    requires src != dst && o + 2 <= src.Length && o + 2 <= dst.Length
    modifies dst
    ensures ColumnsDone(c, src[..], dst[..], w, nW, o, 2, 1, d, 0, 1) && OtherColumns(old(dst[..]), dst[..], o, 2, 1, 0, 1)
  {
    ghost var x, line, before := ColumnOf(c, src[..], o, 1, 0), src[..], dst[..];
    ColumnAt(c, line, o, 1, 0, 0);
    ColumnAt(c, line, o, 1, 0, 1);
    NoTwist(c, w, nW, x, d, 1);
    Radix2(c, w, nW, x, d, 1, 0);
    var y0, y1 := src[o], src[o + 1];
    Store(c, line, before, dst, w, nW, o, 2, 1, d, 0, 0, o, Complex(y0.re + y1.re, y0.im + y1.im));
    Store(c, line, before, dst, w, nW, o, 2, 1, d, 0, 1, o + 1, Complex(y0.re - y1.re, y0.im - y1.im));
  }

  /** `fft_base_4` */
  method Base4(ghost c: Ring<Complex>, src: array<Complex>, dst: array<Complex>, ghost w: seq<Complex>, ghost nW: nat, o: nat,
               ghost d: nat)
    requires LawfulRing(c) && IsComplex(c) && Coefficients(c, w, nW) && nW == d * (4 * 1)
    requires src != dst && o + 4 <= src.Length && o + 4 <= dst.Length
    modifies dst
    ensures ColumnsDone(c, src[..], dst[..], w, nW, o, 4, 1, d, 0, 1) && OtherColumns(old(dst[..]), dst[..], o, 4, 1, 0, 1)
  {
    ghost var x, line, before := ColumnOf(c, src[..], o, 1, 0), src[..], dst[..];
    Column4At(c, line, w, nW, o, d);
    var z0, z1, z2, z3 := Butterfly4(c, w, nW, x, d, 1, 0, src[o], src[o + 1], src[o + 2], src[o + 3]);
    Store(c, line, before, dst, w, nW, o, 4, 1, d, 0, 0, o, z0);
    Store(c, line, before, dst, w, nW, o, 4, 1, d, 0, 1, o + 1, z1);
    Store(c, line, before, dst, w, nW, o, 4, 1, d, 0, 2, o + 2, z2);
    Store(c, line, before, dst, w, nW, o, 4, 1, d, 0, 3, o + 3, z3);
  }

  lemma Column4At(c: Ring<Complex>, line: seq<Complex>, w: seq<Complex>, nW: nat, o: nat, d: nat)
    requires LawfulRing(c) && IsComplex(c) && Table(c, w, nW)
    ensures var x := ColumnOf(c, line, o, 1, 0);
      && x(0) == Get(line, o) && x(1) == Get(line, o + 1) && x(2) == Get(line, o + 2) && x(3) == Get(line, o + 3)
      && x(1) == Twisted(c, w, nW, x, d, 0, 1) && x(2) == Twisted(c, w, nW, x, d, 0, 2) && x(3) == Twisted(c, w, nW, x, d, 0, 3)
  {
    var x := ColumnOf(c, line, o, 1, 0);
    ColumnAt(c, line, o, 1, 0, 0);
    ColumnAt(c, line, o, 1, 0, 1);
    ColumnAt(c, line, o, 1, 0, 2);
    ColumnAt(c, line, o, 1, 0, 3);
    NoTwist(c, w, nW, x, d, 1);
    NoTwist(c, w, nW, x, d, 2);
    NoTwist(c, w, nW, x, d, 3);
  }
}
