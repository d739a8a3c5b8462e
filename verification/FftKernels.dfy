/** The loops of the serial transform: unshuffling, the butterflies with their twiddle factors,
    and the base cases. Arrays are used from offset o on, as the pointers of the source are. */
module FftKernels {
  import opened Arithmetic
  import opened Sums
  import opened Rings
  import opened Complexes
  import opened Dft

  function Get(s: seq<Complex>, p: nat): Complex {
    At(s, p, ZERO)
  }

  /** Nothing but the n cells from o on may differ. */
  ghost predicate Outside(s: seq<Complex>, t: seq<Complex>, o: nat, n: nat) {
    |s| == |t| && forall p: nat :: p < o || o + n <= p ==> Get(s, p) == Get(t, p)
  }

  lemma InRows(r: nat, m: nat, k: nat, q: nat)
    requires k < r && q < m
    ensures Place(m, k, q) < r * m
  {
    PlaceOrder(m, r, k, q);
  }

  // Unshuffling: row j of the result is the j-th of r interleaved subsequences

  /** The source elements lo * r, ..., i * r + j - 1 are in place. */
  ghost predicate Moved(src: seq<Complex>, dst: seq<Complex>, o: nat, r: nat, m: nat, lo: nat, i: nat, j: nat) {
    forall i': nat, j': nat :: lo <= i' < m && j' < r && (i' < i || (i' == i && j' < j)) ==>
      Get(dst, o + Place(m, j', i')) == Get(src, o + Place(r, i', j'))
  }

  lemma MoveNext(src: seq<Complex>, dst: seq<Complex>, o: nat, r: nat, m: nat, lo: nat, i: nat, j: nat)
    requires Moved(src, dst, o, r, m, lo, i, j) && lo <= i < m && j < r && o + r * m <= |dst|
    ensures o + Place(m, j, i) < |dst|
    ensures Moved(src, dst[o + Place(m, j, i) := Get(src, o + Place(r, i, j))], o, r, m, lo, i, j + 1)
    ensures Outside(dst, dst[o + Place(m, j, i) := Get(src, o + Place(r, i, j))], o, r * m)
  {
    InRows(r, m, j, i);
    var dst' := dst[o + Place(m, j, i) := Get(src, o + Place(r, i, j))];
    forall i': nat, j': nat | lo <= i' < m && j' < r && (i' < i || (i' == i && j' < j + 1))
      ensures Get(dst', o + Place(m, j', i')) == Get(src, o + Place(r, i', j'))
    {
      RowPlaces(m, j, i, j', i');
    }
  }

  lemma NextCell(r: nat, m: nat, i: nat, j: nat)
    ensures Place(m, j + 1, i) == Place(m, j, i) + m && Place(r, i, j + 1) == Place(r, i, j) + 1
    ensures Place(r, i + 1, 0) == Place(r, i, r)
  {
  }

  method MoveOne(src: array<Complex>, dst: array<Complex>, ghost o: nat, ghost r: nat, ghost m: nat, ghost lo: nat,
                 ghost i: nat, ghost j: nat, jp: nat, ip: nat)
    requires src != dst && o + r * m <= src.Length && o + r * m <= dst.Length
    requires lo <= i < m && j < r && jp == o + Place(m, j, i) && ip == o + Place(r, i, j)
    requires Moved(src[..], dst[..], o, r, m, lo, i, j)
    modifies dst
    ensures Moved(src[..], dst[..], o, r, m, lo, i, j + 1) && Outside(old(dst[..]), dst[..], o, r * m)
  {
    MoveNext(src[..], dst[..], o, r, m, lo, i, j);
    InRows(m, r, i, j);
    dst[jp] := src[ip];
  }

  method MoveFour(src: array<Complex>, dst: array<Complex>, ghost o: nat, ghost r: nat, m: nat, ghost lo: nat,
                  ghost i: nat, ghost j: nat, jp: nat, ip: nat)
    requires src != dst && o + r * m <= src.Length && o + r * m <= dst.Length
    requires lo <= i < m && j + 4 <= r && jp == o + Place(m, j, i) && ip == o + Place(r, i, j)
    requires Moved(src[..], dst[..], o, r, m, lo, i, j)
    modifies dst
    ensures Moved(src[..], dst[..], o, r, m, lo, i, j + 4) && Outside(old(dst[..]), dst[..], o, r * m)
    ensures jp + 4 * m == o + Place(m, j + 4, i) && ip + 4 == o + Place(r, i, j + 4)
  {
    NextCell(r, m, i, j);
    NextCell(r, m, i, j + 1);
    NextCell(r, m, i, j + 2);
    NextCell(r, m, i, j + 3);
    MoveOne(src, dst, o, r, m, lo, i, j, jp, ip);
    MoveOne(src, dst, o, r, m, lo, i, j + 1, jp + m, ip + 1);
    MoveOne(src, dst, o, r, m, lo, i, j + 2, jp + 2 * m, ip + 2);
    MoveOne(src, dst, o, r, m, lo, i, j + 3, jp + 3 * m, ip + 3);
  }

  /** The body of `unshuffle`'s outer loop: four elements at a time while possible, then one at a time. */
  method MoveColumn(src: array<Complex>, dst: array<Complex>, o: nat, r: nat, m: nat, ghost lo: nat, i: nat, from: nat)
    returns (ip: nat)
    requires src != dst && lo <= i < m && o + r * m <= src.Length && o + r * m <= dst.Length
    requires from == o + Place(r, i, 0) && Moved(src[..], dst[..], o, r, m, lo, i, 0)
    modifies dst
    ensures ip == o + Place(r, i, r)
    ensures Moved(src[..], dst[..], o, r, m, lo, i, r) && Outside(old(dst[..]), dst[..], o, r * m)
  {
    ghost var n: nat := r * m;
    var r4: nat := r - r % 4;
    var jp: nat, j: nat := o + i, 0;
    ip := from;
    while j < r4
      invariant j <= r4 && j % 4 == 0 && jp == o + Place(m, j, i) && ip == o + Place(r, i, j)
      invariant Moved(src[..], dst[..], o, r, m, lo, i, j) && Outside(old(dst[..]), dst[..], o, n)
    {
      MoveFour(src, dst, o, r, m, lo, i, j, jp, ip);
      jp, ip, j := jp + 4 * m, ip + 4, j + 4;
    }
    while j < r
      invariant j <= r && jp == o + Place(m, j, i) && ip == o + Place(r, i, j)
      invariant Moved(src[..], dst[..], o, r, m, lo, i, j) && Outside(old(dst[..]), dst[..], o, n)
    {
      MoveOne(src, dst, o, r, m, lo, i, j, jp, ip);
      NextCell(r, m, i, j);
      jp, ip, j := jp + m, ip + 1, j + 1;
    }
  }

  /** `unshuffle` */
  method Unshuffle(lo: nat, hi: nat, src: array<Complex>, dst: array<Complex>, o: nat, r: nat, m: nat)
    requires src != dst && lo <= hi <= m && o + r * m <= src.Length && o + r * m <= dst.Length
    modifies dst
    ensures Moved(src[..], dst[..], o, r, m, lo, hi, 0) && Outside(old(dst[..]), dst[..], o, r * m)
  {
    ghost var n: nat := r * m;
    var ip: nat := o + Place(r, lo, 0);
    for i := lo to hi
      invariant ip == o + Place(r, i, 0)
      invariant Moved(src[..], dst[..], o, r, m, lo, i, 0) && Outside(old(dst[..]), dst[..], o, n)
    {
      ip := MoveColumn(src, dst, o, r, m, lo, i, ip);
      NextCell(r, m, i, 0);
    }
  }

  /** `fft_unshuffle_2` */
  method Unshuffle2(lo: nat, hi: nat, src: array<Complex>, dst: array<Complex>, o: nat, m: nat)
    requires src != dst && lo <= hi <= m && o + 2 * m <= src.Length && o + 2 * m <= dst.Length
    modifies dst
    ensures Moved(src[..], dst[..], o, 2, m, lo, hi, 0) && Outside(old(dst[..]), dst[..], o, 2 * m)
  {
    var ip := o + Place(2, lo, 0);
    for i := lo to hi
      invariant ip == o + Place(2, i, 0)
      invariant Moved(src[..], dst[..], o, 2, m, lo, i, 0) && Outside(old(dst[..]), dst[..], o, 2 * m)
    {
      var jp := o + i;
      NextCell(2, m, i, 0);
      NextCell(2, m, i, 1);
      MoveOne(src, dst, o, 2, m, lo, i, 0, jp, ip);
      MoveOne(src, dst, o, 2, m, lo, i, 1, jp + m, ip + 1);
      ip := ip + 2;
    }
  }

  /** `fft_unshuffle_4` */
  method Unshuffle4(lo: nat, hi: nat, src: array<Complex>, dst: array<Complex>, o: nat, m: nat)
    requires src != dst && lo <= hi <= m && o + 4 * m <= src.Length && o + 4 * m <= dst.Length
    modifies dst
    ensures Moved(src[..], dst[..], o, 4, m, lo, hi, 0) && Outside(old(dst[..]), dst[..], o, 4 * m)
  {
    var ip := o + Place(4, lo, 0);
    for i := lo to hi
      invariant ip == o + Place(4, i, 0)
      invariant Moved(src[..], dst[..], o, 4, m, lo, i, 0) && Outside(old(dst[..]), dst[..], o, 4 * m)
    {
      MoveFour(src, dst, o, 4, m, lo, i, 0, o + i, ip);
      ip := ip + 4;
      NextCell(4, m, i, 0);
    }
  }

  // Butterflies: column q of the rows of src becomes entries q, q + m, q + 2m, ... of the transform

  /** The q-th entries of the rows. */
  ghost function ColumnOf(c: Ring<Complex>, src: seq<Complex>, o: nat, m: nat, q: nat): nat -> Complex {
    Strided(c, src, o + q, m)
  }

  ghost predicate ColumnDone(c: Ring<Complex>, src: seq<Complex>, dst: seq<Complex>, w: seq<Complex>, nW: nat, o: nat, r: nat,
                             m: nat, d: nat, q: nat, k: nat)
    requires 0 < nW < |w|
  {
    Get(dst, o + Place(m, k, q)) == Spectrum(c, w, nW, ColumnOf(c, src, o, m, q), r, d, Place(m, k, q))
  }

  ghost predicate ColumnTo(c: Ring<Complex>, src: seq<Complex>, dst: seq<Complex>, w: seq<Complex>, nW: nat, o: nat, r: nat,
                           m: nat, d: nat, q: nat, k: nat)
    requires 0 < nW < |w|
  {
    forall k': nat :: k' < k ==> ColumnDone(c, src, dst, w, nW, o, r, m, d, q, k')
  }

  /** Columns lo, ..., hi - 1 hold their entries of the transform. */
  ghost predicate ColumnsDone(c: Ring<Complex>, src: seq<Complex>, dst: seq<Complex>, w: seq<Complex>, nW: nat, o: nat, r: nat,
                              m: nat, d: nat, lo: nat, hi: nat)
    requires 0 < nW < |w|
  {
    forall q: nat :: lo <= q < hi ==> ColumnTo(c, src, dst, w, nW, o, r, m, d, q, r)
  }

  /** Columns other than lo, ..., hi - 1 are unchanged, and so is everything outside the rows. */
  ghost predicate OtherColumns(s: seq<Complex>, t: seq<Complex>, o: nat, r: nat, m: nat, lo: nat, hi: nat) {
    && Outside(s, t, o, r * m)
    && forall q: nat, k: nat :: q < m && k < r && !(lo <= q < hi) ==> Get(s, o + Place(m, k, q)) == Get(t, o + Place(m, k, q))
  }

  lemma OtherColumnsJoin(s: seq<Complex>, t: seq<Complex>, u: seq<Complex>, o: nat, r: nat, m: nat, lo: nat, mid: nat, hi: nat)
    requires OtherColumns(s, t, o, r, m, lo, mid) && OtherColumns(t, u, o, r, m, mid, hi) && lo <= mid <= hi
    ensures OtherColumns(s, u, o, r, m, lo, hi)
  {
  }

  /** A column that was done stays done while others are written. */
  lemma ColumnsStay(c: Ring<Complex>, src: seq<Complex>, dst: seq<Complex>, dst': seq<Complex>, w: seq<Complex>, nW: nat, o: nat,
                    r: nat, m: nat, d: nat, lo: nat, mid: nat, hi: nat)
    requires 0 < nW < |w| && mid <= m && ColumnsDone(c, src, dst, w, nW, o, r, m, d, lo, mid)
    requires OtherColumns(dst, dst', o, r, m, mid, hi)
    ensures ColumnsDone(c, src, dst', w, nW, o, r, m, d, lo, mid)
  {
    forall q: nat, k: nat | lo <= q < mid && k < r
      ensures ColumnDone(c, src, dst', w, nW, o, r, m, d, q, k)
    {
      assert ColumnTo(c, src, dst, w, nW, o, r, m, d, q, r);
      assert ColumnDone(c, src, dst, w, nW, o, r, m, d, q, k);
    }
  }

  lemma PutNext(c: Ring<Complex>, src: seq<Complex>, before: seq<Complex>, dst: seq<Complex>, w: seq<Complex>, nW: nat, o: nat,
                r: nat, m: nat, d: nat, q: nat, k: nat, v: Complex)
    requires 0 < nW < |w| && q < m && k < r && o + r * m <= |dst|
    requires ColumnTo(c, src, dst, w, nW, o, r, m, d, q, k) && OtherColumns(before, dst, o, r, m, q, q + 1)
    requires v == Spectrum(c, w, nW, ColumnOf(c, src, o, m, q), r, d, Place(m, k, q))
    ensures o + Place(m, k, q) < |dst|
    ensures ColumnTo(c, src, dst[o + Place(m, k, q) := v], w, nW, o, r, m, d, q, k + 1)
    ensures OtherColumns(before, dst[o + Place(m, k, q) := v], o, r, m, q, q + 1)
  {
    InRows(r, m, k, q);
    var dst' := dst[o + Place(m, k, q) := v];
    forall k': nat | k' < k + 1
      ensures ColumnDone(c, src, dst', w, nW, o, r, m, d, q, k')
    {
      RowPlaces(m, k, q, k', q);
      assert k' < k ==> ColumnDone(c, src, dst, w, nW, o, r, m, d, q, k');
    }
    forall q': nat, k': nat | q' < m && k' < r && !(q <= q' < q + 1)
      ensures Get(before, o + Place(m, k', q')) == Get(dst', o + Place(m, k', q'))
    {
      RowPlaces(m, k, q, k', q');
    }
  }

  lemma SpectrumNext(c: Ring<Complex>, w: seq<Complex>, nW: nat, x: nat -> Complex, j: nat, d: nat, entry: nat)
    requires 0 < nW < |w|
    ensures Spectrum(c, w, nW, x, j + 1, d, entry)
         == c.sum.plus(Spectrum(c, w, nW, x, j, d, entry), c.mul(x(j), Root(w, nW, Exp(d, j, entry))))
  {
  }

  /** e is l plus whole turns. */
  ghost predicate TurnsTo(nW: nat, l: nat, e: nat)
    requires 0 < nW
    decreases e
  {
    l <= nW && (e == l || (e >= nW && TurnsTo(nW, l, e - nW)))
  }

  lemma {:induction false} TurnsFurther(nW: nat, l0: nat, l1: nat, e: nat)
    requires 0 < nW && TurnsTo(nW, l0, e) && l1 <= nW
    ensures TurnsTo(nW, if l0 + l1 > nW then l0 + l1 - nW else l0 + l1, e + l1)
    decreases e
  {
    if e != l0 {
      TurnsFurther(nW, l0, l1, e - nW);
    }
  }

  lemma {:induction false} RootOfTurned(c: Ring<Complex>, w: seq<Complex>, nW: nat, l0: nat, e: nat)
    requires Table(c, w, nW) && TurnsTo(nW, l0, e)
    ensures Root(w, nW, e) == w[l0]
    decreases e
  {
    if e == l0 {
      RootAt(c, w, nW, l0);
    } else {
      RootOfTurned(c, w, nW, l0, e - nW);
    }
  }

  lemma ExpNext(d: nat, j: nat, entry: nat)
    ensures Exp(d, j + 1, entry) == Exp(d, j, entry) + Exp(d, 1, entry) && Exp(d, 0, entry) == 0
  {
  }

  /** The inner loop of `fft_twiddle_gen1`: l0 runs through the multiples of l1 modulo nW, staying in 0..nW. */
  method TwiddleSum(ghost c: Ring<Complex>, src: array<Complex>, w: seq<Complex>, nW: nat, at: nat, r: nat, m: nat, l1: nat,
                    ghost d: nat, ghost entry: nat)
    returns (sum: Complex)
    requires IsComplex(c) && Table(c, w, nW) && l1 == Exp(d, 1, entry) <= nW
    requires forall j :: 0 <= j < r ==> at + Place(m, j, 0) < src.Length
    ensures sum == Spectrum(c, w, nW, Strided(c, src[..], at, m), r, d, entry)
  {
    ghost var x := Strided(c, src[..], at, m);
    sum := ZERO;
    var jp, l0: nat := at, 0;
    ExpNext(d, 0, entry);
    for j := 0 to r
      invariant jp == at + Place(m, j, 0)
      invariant TurnsTo(nW, l0, Exp(d, j, entry))
      invariant sum == Spectrum(c, w, nW, x, j, d, entry)
    {
      assert at + Place(m, j, 0) < src.Length;
      RootOfTurned(c, w, nW, l0, Exp(d, j, entry));
      SpectrumNext(c, w, nW, x, j, d, entry);
      ExpNext(d, j, entry);
      NextCell(1, m, 0, j);
      TurnsFurther(nW, l0, l1, Exp(d, j, entry));
      sum := MultiplyAdd(c, sum, src[jp], w[l0]);
      l0 := l0 + l1;
      if l0 > nW {
        l0 := l0 - nW;
      }
      jp := jp + m;
    }
  }

  lemma TwiddleIndex(d: nat, r: nat, m: nat, q: nat, k: nat, nW: nat)
    requires nW == d * (r * m) && q < m && k < r
    ensures d * q + d * m * k == Exp(d, 1, Place(m, k, q)) <= nW
  {
    InRows(r, m, k, q);
    MulMono(Place(m, k, q), r * m, d);
    assert d * Place(m, k, q) == d * (k * m) + d * q;
    assert d * (k * m) == d * m * k;
  }

  lemma ColumnInRange(o: nat, r: nat, m: nat, q: nat, len: nat)
    requires q < m && o + r * m <= len
    ensures forall j :: 0 <= j < r ==> o + q + Place(m, j, 0) < len
  {
    forall j | 0 <= j < r
      ensures o + q + Place(m, j, 0) < len
    {
      InRows(r, m, j, q);
    }
  }

  /** `fft_twiddle_gen1`: column q */
  method TwiddleGen1(ghost c: Ring<Complex>, src: array<Complex>, dst: array<Complex>, w: seq<Complex>, nW: nat, o: nat, r: nat,
                     m: nat, ghost d: nat, q: nat, nWdnti: nat, nWdntm: nat)
    requires IsComplex(c) && Table(c, w, nW) && nW == d * (r * m) && q < m && nWdnti == d * q && nWdntm == d * m
    requires src != dst && o + r * m <= src.Length && o + r * m <= dst.Length
    modifies dst
    ensures ColumnsDone(c, src[..], dst[..], w, nW, o, r, m, d, q, q + 1)
    ensures OtherColumns(old(dst[..]), dst[..], o, r, m, q, q + 1)
  {
    ColumnInRange(o, r, m, q, src.Length);
    var kp: nat := o + q;
    for k := 0 to r
      invariant kp == o + Place(m, k, q)
      invariant ColumnTo(c, src[..], dst[..], w, nW, o, r, m, d, q, k)
      invariant OtherColumns(old(dst[..]), dst[..], o, r, m, q, q + 1)
    {
      TwiddleIndex(d, r, m, q, k, nW);
      var sum := TwiddleSum(c, src, w, nW, o + q, r, m, nWdnti + nWdntm * k, d, Place(m, k, q));
      PutNext(c, src[..], old(dst[..]), dst[..], w, nW, o, r, m, d, q, k, sum);
      dst[kp] := sum;
      NextCell(1, m, q, k);
      kp := kp + m;
    }
  }

  /** `fft_twiddle_gen`: columns lo, ..., hi - 1, by halving the range. */
  method TwiddleGen(ghost c: Ring<Complex>, lo: nat, hi: nat, src: array<Complex>, dst: array<Complex>, w: seq<Complex>, nW: nat,
                    nWdn: nat, o: nat, r: nat, m: nat)
    requires IsComplex(c) && Table(c, w, nW) && nW == nWdn * (r * m) && lo < hi <= m
    requires src != dst && o + r * m <= src.Length && o + r * m <= dst.Length
    modifies dst
    ensures ColumnsDone(c, src[..], dst[..], w, nW, o, r, m, nWdn, lo, hi)
    ensures OtherColumns(old(dst[..]), dst[..], o, r, m, lo, hi)
    decreases hi - lo
  {
    if lo == hi - 1 {
      TwiddleGen1(c, src, dst, w, nW, o, r, m, nWdn, lo, nWdn * lo, nWdn * m);
    } else {
      var mid := (lo + hi) / 2;
      TwiddleGen(c, lo, mid, src, dst, w, nW, nWdn, o, r, m);
      ghost var half := dst[..];
      TwiddleGen(c, mid, hi, src, dst, w, nW, nWdn, o, r, m);
      ColumnsStay(c, src[..], half, dst[..], w, nW, o, r, m, nWdn, lo, mid, hi);
      OtherColumnsJoin(old(dst[..]), half, dst[..], o, r, m, lo, mid, hi);
    }
  }
}
