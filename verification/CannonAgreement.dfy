/** Both Cannon programs compute the product that `multiply` defines, with the same products in the same
    order: the barrier between the rounds may be removed. */
module CannonAgreement {
  import opened Arithmetic
  import opened Sums
  import opened Matrices
  import opened Grid
  import opened CannonJob
  import opened CannonMatrices
  import P = Pipeline
  import PR = PipelineResults
  import B = BulkCannon
  import BR = BulkRounds
  import BP = BulkProgress

  /** For every grid side, tile side, A, B and C, and every interleaving of the codelets of the bulk-synchronous program:
      the run is no longer than the rank of the initial state, it can be continued until the continuation has been signalled
      once, and then C is the row-major product of A and B. */
  lemma BulkMultiplies(s: nat, p: nat, a: Matrix, b: Matrix, c: Matrix, moves: seq<B.Move>, to: B.State<Matrix>)
    requires 0 < s && Shape(a, s * p) && Shape(b, s * p) && Shape(c, s * p)
    requires B.Run(JobOf(s, p, a, b), B.Init(JobOf(s, p, a, b), Tiles(c, s, p)), moves, to)
    ensures to.drain.continuation <= 1 && B.Sized(s * s, to)
    ensures JobOf(s, p, a, b).g.n == s * s && |moves| <= BP.Rank(JobOf(s, p, a, b), B.Init(JobOf(s, p, a, b), Tiles(c, s, p)))
    ensures BP.Ended(JobOf(s, p, a, b), to) <==> to.drain.continuation == 1
    ensures to.drain.continuation == 1 ==> to.drain.c == Tiles(Product(a, b, s * p), s, p)
  {
    var j := JobOf(s, p, a, b);
    BR.EveryBulkRunComputes(j, Tiles(c, s, p), moves, to);
    BP.EveryBulkRunEnds(j, Tiles(c, s, p), moves, to);
    if to.drain.continuation == 1 {
      var goal := Tiles(Product(a, b, s * p), s, p);
      forall r, k | 0 <= r < s && 0 <= k < s
        ensures to.drain.c[r][k] == goal[r][k]
      {
        AccumulatesProduct(s, p, a, b, r, k);
      }
      assert forall r :: 0 <= r < s ==> to.drain.c[r] == goal[r];
    }
  }

  /** For every tile, every schedule of the pipelined program and every schedule of the bulk-synchronous one: the operand
      pairs that the tile has multiplied in the one are, in the same order, the first of those in the other, or the other
      way round; when both have ended they are the same, and so is C. */
  lemma SameOperands<T>(j: Job<T>, c: seq<seq<T>>, c': seq<seq<T>>, moves: seq<P.Move>, to: P.State<T>,
                        moves': seq<B.Move>, to': B.State<T>, i: nat)
    requires ValidJob(j) && IsGrid(c, j.g.s) && IsGrid(c', j.g.s) && i < j.g.n
    requires P.Run(j, P.Init(j, c), moves, to) && B.Run(j, B.Init(j, c'), moves', to')
    ensures var xs, ys := PR.Multiplied(j, P.Init(j, c), moves, i), BR.Multiplied(j, B.Init(j, c'), moves', i);
      && (xs <= ys || ys <= xs)
      && (to.drain.continuation == 1 && to'.drain.continuation == 1 ==> xs == ys && to.drain.c == to'.drain.c)
  {
    PR.EveryRunMultiplies(j, c, moves, to, i);
    BR.EveryBulkRunMultiplies(j, c', moves', to', i);
    PR.EveryRunComputes(j, c, moves, to);
    BR.EveryBulkRunComputes(j, c', moves', to');
    if to.drain.continuation == 1 && to'.drain.continuation == 1 {
      forall r | 0 <= r < j.g.s
        ensures to.drain.c[r] == to'.drain.c[r]
      {
        assert forall k :: 0 <= k < j.g.s ==> to.drain.c[r][k] == to'.drain.c[r][k];
      }
    }
  }

  /** A matrix is determined by its tiles: equal tiles mean equal matrices. */
  lemma TilesDetermine(x: Matrix, y: Matrix, s: nat, p: nat)
    requires Shape(x, s * p) && Shape(y, s * p) && Tiles(x, s, p) == Tiles(y, s, p)
    ensures x == y
  {
    var n := s * p;
    forall u: nat, v: nat | u < n && v < n
      ensures Entry(x, u, v) == Entry(y, u, v)
    {
      var r, i := TileOfEntry(s, p, n, u);
      var c, k := TileOfEntry(s, p, n, v);
      BlockEntry(x, s, p, n, r, c, i, k, u, v);
      BlockEntry(y, s, p, n, r, c, i, k, u, v);
      assert Tiles(x, s, p)[r][c] == Tiles(y, s, p)[r][c];
    }
    SameEntries(x, y, n);
  }

  /** The memory of C, read as a matrix, is the product when the pipelined program has signalled its continuation. */
  lemma PipelineLeavesProduct(s: nat, p: nat, a: Matrix, b: Matrix, c: Matrix, moves: seq<P.Move>, to: P.State<Matrix>, final: Matrix)
    requires 0 < s && Shape(a, s * p) && Shape(b, s * p) && Shape(c, s * p) && Shape(final, s * p)
    requires P.Run(JobOf(s, p, a, b), P.Init(JobOf(s, p, a, b), Tiles(c, s, p)), moves, to)
    requires to.drain.continuation == 1 && to.drain.c == Tiles(final, s, p)
    ensures final == Product(a, b, s * p)
  {
    PipelineMultiplies(s, p, a, b, c, moves, to);
    TilesDetermine(final, Product(a, b, s * p), s, p);
  }

  lemma TileOfEntry(s: nat, p: nat, n: nat, u: nat) returns (r: nat, i: nat)
    requires n == s * p && u < n
    ensures r < s && i < p && u == Place(p, r, i)
  {
    assert p > 0;
    r, i := u / p, u % p;
    Divided(u, p);
    MulMono(s, r, p);
  }

  lemma BlockEntry(x: Matrix, s: nat, p: nat, n: nat, r: nat, c: nat, i: nat, k: nat, u: nat, v: nat)
    requires n == s * p && Shape(x, s * p) && r < s && c < s && i < p && k < p && u == Place(p, r, i) && v == Place(p, c, k)
    ensures u < n && v < n && Entry(x, u, v) == Entry(Block(x, s, p, r, c), i, k)
  {
    InBlock(s, p, r, i);
    InBlock(s, p, c, k);
  }
}
