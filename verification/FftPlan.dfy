/** `factor` and `fft`: the list of radices, and the transform of a whole array. */
module FftPlan {
  import opened Arithmetic
  import opened Bits
  import opened Sums
  import opened Rings
  import opened Complexes
  import opened Dft
  import opened FftKernels
  import opened Fft

  /** One more than the largest int. */
  const INT_RANGE: nat := Pow2(31)
  const MAX_FACTORS: nat := 40

  /** `factor`: 32, 16, 8, 4 or 2 if it divides n, with 8 preferred for some sizes, and else the least divisor. */
  method Factor(n: nat) returns (r: nat)
    ensures n < 2 ==> r == 1
    ensures n >= 2 ==> 2 <= r <= n && Divides(r, n)
    ensures n % 2 == 1 && n > 1 ==> forall k: nat :: 2 <= k < r ==> !Divides(k, n)
  {
    if n < 2 { return 1; }
    if n == 64 || n == 128 || n == 256 || n == 1024 || n == 2048 || n == 4096 { return 8; }
    if n % 32 == 0 { return 32; }
    if n % 16 == 0 { return 16; }
    if n % 8 == 0 { return 8; }
    if n % 4 == 0 { return 4; }
    if n % 2 == 0 { return 2; }
    r := OddFactor(n);
  }

  ghost predicate Divides(k: nat, n: nat) {
    k > 0 && n % k == 0
  }

  /** The trial divisions of `factor`. */
  method OddFactor(n: nat) returns (r: nat)
    requires n >= 3 && n % 2 == 1
    ensures 2 <= r <= n && Divides(r, n)
    ensures forall k: nat :: 2 <= k < r ==> !Divides(k, n)
  {
    r := 3;
    OnlyOdd(n, 2);
    while r < n
      invariant r % 2 == 1 && 3 <= r <= n
      invariant forall k: nat :: 2 <= k < r ==> !Divides(k, n)
      decreases n - r
    {
      if n % r == 0 {
        assert Divides(r, n);
        return;
      }
      assert !Divides(r, n);
      OnlyOdd(n, r + 1);
      r := r + 2;
    }
    ModSelf(n);
  }

  /** An odd number has no even divisor. */
  lemma OnlyOdd(n: nat, k: nat)
    requires n % 2 == 1 && k % 2 == 0
    ensures !Divides(k, n)
  {
    if Divides(k, n) {
      EvenDivisor(n, k);
    }
  }

  lemma EvenDivisor(n: nat, k: nat)
    requires k > 0 && k % 2 == 0 && n % k == 0
    ensures n % 2 == 0
  {
    Divided(n, k);
    Divided(k, 2);
    assert n == (n / k * (k / 2)) * 2;
  }

  /** Dividing n by the listed radices in turn leaves l. */
  ghost predicate Chain(fs: seq<nat>, n: nat, l: nat)
    decreases |fs|
  {
    if fs == [] then n == l else 2 <= fs[0] && n % fs[0] == 0 && Chain(fs[1..], n / fs[0], l)
  }

  lemma {:induction false} ChainExtends(fs: seq<nat>, n: nat, l: nat, r: nat)
    requires Chain(fs, n, l) && 2 <= r && l % r == 0
    ensures Chain(fs + [r], n, l / r)
    decreases |fs|
  {
    if fs == [] {
      assert fs + [r] == [r];
    } else {
      assert (fs + [r])[1..] == fs[1..] + [r];
      ChainExtends(fs[1..], n / fs[0], l, r);
    }
  }

  lemma {:induction false} ChainIsFactors(fs: seq<nat>, n: nat)
    requires Chain(fs, n, 1) && 2 <= n
    ensures Factors(fs, n)
    decreases |fs|
  {
    var r := fs[0];
    if r < n {
      Divided(n, r);
      RadixCases(n, r, n / r);
      ChainIsFactors(fs[1..], n / r);
    }
  }

  lemma Halves(n: nat, l: nat, r: nat, p: nat)
    requires 2 <= r && l % r == 0 && 0 < l && l * p <= n
    ensures 0 < l / r < l && (l / r) * (2 * p) <= n
  {
    Divided(l, r);
    RadixCases(l, r, l / r);
    MulMono(2, r, l / r);
    MulMono((l / r) * 2, l, p);
    assert (l / r) * (2 * p) == ((l / r) * 2) * p;
  }

  /** The radices of n; every radix but that of n = 1 is at least 2, so that 40 places are enough for an int. */
  method Plan(n: nat) returns (factors: array<nat>, p: nat)
    requires 1 <= n < INT_RANGE
    ensures fresh(factors) && p <= factors.Length == MAX_FACTORS && Factors(factors[..p], n)
  {
    factors := new nat[MAX_FACTORS];
    p := 0;
    if n == 1 {
      // the do-while body runs once
      var r := Factor(1);
      factors[0] := r;
      p := 1;
      assert factors[..1] == [1];
      return;
    }
    var l := n;
    while l > 1
      invariant 1 <= l && p <= 31 && l * Pow2(p) <= n
      invariant Chain(factors[..p], n, l)
      decreases l
    {
      Width(l, p, n);
      var r := Factor(l);
      ChainExtends(factors[..p], n, l, r);
      Halves(n, l, r, Pow2(p));
      factors[p] := r;
      p := p + 1;
      assert factors[..p] == factors[..p - 1] + [r];
      l := l / r;
    }
    ChainIsFactors(factors[..p], n);
  }

  lemma Width(l: nat, p: nat, n: nat)
    requires 2 <= l && l * Pow2(p) <= n < INT_RANGE
    ensures p < 31
  {
    MulMono(2, l, Pow2(p));
    if p >= 31 {
      Pow2Mono(31, p);
    }
  }

  /** `fft`: for every n, and a table of the powers of the n-th root of one, the destination
      receives the n-point transform of the source. */
  method FastTransform(n: nat, src: array<Complex>, dst: array<Complex>, w: seq<Complex>)
    requires 1 <= n < INT_RANGE && Coefficients(C, w, n)
    requires src != dst && n <= src.Length && n <= dst.Length
    modifies src, dst
    ensures Transformed(C, old(src[..]), dst[..], w, n, 0, n, 1)
    ensures dst[n..] == old(dst[n..]) && src[n..] == old(src[n..])
  {
    var factors, p := Plan(n);
    ComplexLaws();
    FftAux(C, n, src, dst, 0, factors[..p], w, n, 1);
    SameTail(old(dst[..]), dst[..], n);
    SameTail(old(src[..]), src[..], n);
  }

  lemma SameTail(s: seq<Complex>, t: seq<Complex>, n: nat)
    requires Outside(s, t, 0, n) && n <= |s|
    ensures s[n..] == t[n..]
  {
    forall k: nat | n <= k < |s|
      ensures s[k] == t[k]
    {
      assert Get(s, k) == Get(t, k);
    }
  }
}
