/** Square matrices of reals, their row-major product, and their p x p blocks. */
module Matrices {
  import opened Sums

  type Matrix = seq<seq<real>>

  ghost const REALS: Monoid<real> := Monoid(0.0, (x: real, y: real) => x + y)

  lemma RealsLawful()
    ensures Lawful(REALS)
  {
    forall x ensures Unit(REALS, x) {}
    forall x, y ensures Commutes(REALS, x, y) {}
    forall x, y, z ensures Associates(REALS, x, y, z) {}
  }

  ghost predicate Shape(m: Matrix, n: nat) {
    |m| == n && forall i :: 0 <= i < n ==> |m[i]| == n
  }

  function Zeros(n: nat): (m: Matrix)
    ensures |m| == n && forall i :: 0 <= i < n ==> |m[i]| == n
  {
    seq(n, i => seq(n, j => 0.0))
  }

  /** a[i][k] * b[k][j] */
  function Term(a: Matrix, b: Matrix, i: nat, j: nat, k: nat): real {
    if i < |a| && k < |a[i]| && k < |b| && j < |b[k]| then a[i][k] * b[k][j] else 0.0
  }

  ghost function Terms(a: Matrix, b: Matrix, i: nat, j: nat): nat -> real {
    (k: nat) => Term(a, b, i, j, k)
  }

  /** Row i of a times column j of b, over n inner indices. */
  ghost function Dot(a: Matrix, b: Matrix, i: nat, j: nat, n: nat): real {
    Sum(REALS, Terms(a, b, i, j), 0, n)
  }

  /** The specification: what `multiply` computes on n x n matrices. */
  ghost function Product(a: Matrix, b: Matrix, n: nat): (c: Matrix)
    ensures Shape(c, n)
  {
    seq(n, i requires 0 <= i => seq(n, j requires 0 <= j => Dot(a, b, i, j, n)))
  }

  /** m[i][j], and 0 outside m. */
  function Entry(m: Matrix, i: nat, j: nat): real {
    if i < |m| && j < |m[i]| then m[i][j] else 0.0
  }

  lemma SameEntries(a: Matrix, b: Matrix, n: nat)
    requires Shape(a, n) && Shape(b, n)
    requires forall x: nat, y: nat :: x < n && y < n ==> Entry(a, x, y) == Entry(b, x, y)
    ensures a == b
  {
    forall x: nat | x < n
      ensures a[x] == b[x]
    {
      forall y: nat | y < n
        ensures a[x][y] == b[x][y]
      {
        assert Entry(a, x, y) == Entry(b, x, y);
      }
    }
  }

  /** C + A.B on n x n matrices: what one DGEMM call with alpha = beta = 1 leaves in C. */
  ghost function Gemm(c: Matrix, a: Matrix, b: Matrix, n: nat): (r: Matrix)
    ensures Shape(r, n)
  {
    seq(n, i requires 0 <= i < n => seq(n, j requires 0 <= j < n => Entry(c, i, j) + Dot(a, b, i, j, n)))
  }

  lemma InBlock(s: nat, p: nat, r: nat, x: nat)
    requires r < s && x < p
    ensures r * p + x < s * p
  {
    assert (r + 1) * p <= s * p;
    assert (r + 1) * p == r * p + p;
  }

  /** Block (r, c) of an (s*p) x (s*p) matrix. */
  ghost function Block(m: Matrix, s: nat, p: nat, r: nat, c: nat): (t: Matrix)
    requires Shape(m, s * p) && r < s && c < s
    ensures Shape(t, p)
  {
    seq(p, x requires 0 <= x < p =>
      seq(p, y requires 0 <= y < p => InBlock(s, p, r, x); InBlock(s, p, c, y); m[r * p + x][c * p + y]))
  }

  /** Copies tile t over block (r, c) of the (s*p) x (s*p) matrix m. */
  ghost function Paste(m: Matrix, s: nat, p: nat, r: nat, c: nat, t: Matrix): (w: Matrix)
    ensures Shape(w, s * p)
  {
    seq(s * p, x requires 0 <= x < s * p => seq(s * p, y requires 0 <= y < s * p =>
      if r * p <= x < r * p + p && c * p <= y < c * p + p then Entry(t, x - r * p, y - c * p) else Entry(m, x, y)))
  }

  lemma PasteAt(m: Matrix, s: nat, p: nat, r: nat, c: nat, t: Matrix, x: nat, y: nat)
    requires x < s * p && y < s * p
    ensures Entry(Paste(m, s, p, r, c, t), x, y)
         == if r * p <= x < r * p + p && c * p <= y < c * p + p then Entry(t, x - r * p, y - c * p) else Entry(m, x, y)
  {
  }

  /** (k, u) |-> the u-th term of entry (x, y) of block(r, k).block(k, c) */
  ghost function BlockTerms(a: Matrix, b: Matrix, s: nat, p: nat, r: nat, c: nat, x: nat, y: nat): (nat, nat) -> real
    requires Shape(a, s * p) && Shape(b, s * p) && r < s && c < s
  {
    (k: nat, u: nat) => if k < s then Term(Block(a, s, p, r, k), Block(b, s, p, k, c), x, y, u) else 0.0
  }

  lemma BlockTermAt(a: Matrix, b: Matrix, s: nat, p: nat, r: nat, c: nat, x: nat, y: nat, k: nat, u: nat)
    requires Shape(a, s * p) && Shape(b, s * p) && r < s && c < s && x < p && y < p && k < s && u < p
    ensures BlockTerms(a, b, s, p, r, c, x, y)(k, u) == Terms(a, b, r * p + x, c * p + y)(k * p + u)
  {
    InBlock(s, p, r, x);
    InBlock(s, p, c, y);
    InBlock(s, p, k, u);
  }

  lemma DotIsInner(left: Matrix, right: Matrix, x: nat, y: nat, p: nat, h: (nat, nat) -> real, k: nat)
    requires forall u: nat :: u < p ==> h(k, u) == Term(left, right, x, y, u)
    ensures Dot(left, right, x, y, p) == Inner(REALS, h, p)(k)
  {
    SumExt(REALS, Terms(left, right, x, y), Slice(h, k), 0, p);
  }

  /** Entry (x, y) of block (r, c) of the product is the sum over k of block(r, k).block(k, c). */
  lemma ProductByBlocks(a: Matrix, b: Matrix, s: nat, p: nat, r: nat, c: nat, x: nat, y: nat, f: nat -> real)
    requires Shape(a, s * p) && Shape(b, s * p) && r < s && c < s && x < p && y < p
    requires forall k :: 0 <= k < s ==> f(k) == Dot(Block(a, s, p, r, k), Block(b, s, p, k, c), x, y, p)
    ensures Block(Product(a, b, s * p), s, p, r, c)[x][y] == Sum(REALS, f, 0, s)
  {
    var parts := BlockTerms(a, b, s, p, r, c, x, y);
    RealsLawful();
    PartsCover(a, b, s, p, r, c, x, y);
    forall k: nat | k < s
      ensures f(k) == Inner(REALS, parts, p)(k)
    {
      DotIsInner(Block(a, s, p, r, k), Block(b, s, p, k, c), x, y, p, parts, k);
    }
    SumExt(REALS, f, Inner(REALS, parts, p), 0, s);
    InBlock(s, p, r, x);
    InBlock(s, p, c, y);
  }

  lemma PartsCover(a: Matrix, b: Matrix, s: nat, p: nat, r: nat, c: nat, x: nat, y: nat)
    requires Lawful(REALS) && Shape(a, s * p) && Shape(b, s * p) && r < s && c < s && x < p && y < p
    ensures Sum(REALS, Terms(a, b, r * p + x, c * p + y), 0, s * p)
         == Sum(REALS, Inner(REALS, BlockTerms(a, b, s, p, r, c, x, y), p), 0, s)
  {
    var all, parts := Terms(a, b, r * p + x, c * p + y), BlockTerms(a, b, s, p, r, c, x, y);
    forall k: nat, u: nat | k < s && u < p
      ensures parts(k, u) == all(k * p + u)
    {
      BlockTermAt(a, b, s, p, r, c, x, y, k, u);
    }
    SumBlocks(REALS, all, parts, s, p);
  }
}
