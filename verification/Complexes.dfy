/** Complex numbers over the reals. */
module Complexes {
  import opened Sums
  import opened Rings

  datatype Complex = Complex(re: real, im: real)

  const ZERO := Complex(0.0, 0.0)
  const ONE := Complex(1.0, 0.0)
  const MINUS_ONE := Complex(-1.0, 0.0)
  const I := Complex(0.0, 1.0)
  const MINUS_I := Complex(0.0, -1.0)

  function Add(x: Complex, y: Complex): Complex {
    Complex(x.re + y.re, x.im + y.im)
  }

  function Sub(x: Complex, y: Complex): Complex {
    Complex(x.re - y.re, x.im - y.im)
  }

  function Mul(x: Complex, y: Complex): Complex {
    Complex(x.re * y.re - x.im * y.im, x.re * y.im + x.im * y.re)
  }

  ghost predicate Adds(c: Ring<Complex>, x: Complex, y: Complex) {
    c.sum.plus(x, y) == Add(x, y)
  }

  ghost predicate Times(c: Ring<Complex>, x: Complex, y: Complex) {
    c.mul(x, y) == Mul(x, y)
  }

  /** c is the ring of complex numbers. Its operations are given instance by instance, so that a proof
      says where it looks inside a product. */
  ghost predicate IsComplex(c: Ring<Complex>) {
    && c.sum.zero == ZERO && c.one == ONE
    && (forall x, y :: Adds(c, x, y))
    && (forall x, y :: Times(c, x, y))
  }

  ghost const C: Ring<Complex> := Ring(Monoid(ZERO, (x: Complex, y: Complex) => Add(x, y)), ONE, (x: Complex, y: Complex) => Mul(x, y))

  lemma ComplexLaws()
    ensures IsComplex(C) && LawfulRing(C)
  {
    forall x, y ensures Adds(C, x, y) {}
    forall x, y ensures Times(C, x, y) {}
    forall x ensures Unit(C.sum, x) {}
    forall x, y ensures Commutes(C.sum, x, y) {}
    forall x, y, z ensures Associates(C.sum, x, y, z) {}
    forall x ensures Unital(C, x) {}
    forall x, y, z ensures Distributes(C, x, y, z) {}
    forall x, y, z ensures Multiplies(C, x, y, z) {}
  }

  /** What compute_w_coefficients is for, in exact arithmetic: the powers of exp(-2 pi i / n),
      of which the half and the quarter turn are known exactly. */
  ghost predicate Coefficients(c: Ring<Complex>, w: seq<Complex>, n: nat) {
    && Table(c, w, n)
    && (n % 2 == 0 ==> w[n / 2] == MINUS_ONE)
    && (n % 4 == 0 ==> w[n / 4] == MINUS_I)
  }

  /** acc += x * y, on real and imaginary parts */
  method MultiplyAdd(ghost c: Ring<Complex>, acc: Complex, x: Complex, y: Complex) returns (r: Complex)
    requires IsComplex(c)
    ensures r == c.sum.plus(acc, c.mul(x, y))
  {
    r := Complex(acc.re + (x.re * y.re - x.im * y.im), acc.im + (x.re * y.im + x.im * y.re));
    assert Times(c, x, y) && Adds(c, acc, Mul(x, y));
  }

  lemma Turns(x: Complex)
    ensures Mul(x, ONE) == x && Mul(x, MINUS_ONE) == Complex(-x.re, -x.im)
    ensures Mul(x, MINUS_I) == Complex(x.im, -x.re) && Mul(x, I) == Complex(-x.im, x.re)
  {
  }
}
