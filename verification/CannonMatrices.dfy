/** The Cannon programs on real matrices: their jobs are the blocks of A and B,
    and the blocks they leave in C are those of the product. */
module CannonMatrices {
  import opened Sums
  import opened Matrices
  import opened Grid
  import opened CannonJob
  import opened Pipeline
  import opened PipelineProofs
  import opened PipelineResults

  /** An (s*p) x (s*p) matrix as the s x s grid of its p x p blocks. */
  ghost function Tiles(m: Matrix, s: nat, p: nat): (t: seq<seq<Matrix>>)
    requires Shape(m, s * p)
    ensures IsGrid(t, s)
  {
    seq(s, r requires 0 <= r < s => seq(s, c requires 0 <= c < s => Block(m, s, p, r, c)))
  }

  ghost function JobOf(s: nat, p: nat, a: Matrix, b: Matrix): (j: Job<Matrix>)
    requires 0 < s && Shape(a, s * p) && Shape(b, s * p)
    ensures ValidJob(j) && j.g == TorusOf(s) && j.g.s == s
  {
    TorusWellWired(s);
    Job(TorusOf(s), Tiles(a, s, p), Tiles(b, s, p), Zeros(p), (c: Matrix, x: Matrix, y: Matrix) => Gemm(c, x, y, p))
  }

  /** k |-> entry (x, y) of block(r, k).block(k, c) */
  ghost function BlockDots(s: nat, p: nat, a: Matrix, b: Matrix, r: nat, c: nat, x: nat, y: nat): nat -> real
    requires Shape(a, s * p) && Shape(b, s * p) && r < s && c < s
  {
    (k: nat) => if k < s then Dot(Block(a, s, p, r, k), Block(b, s, p, k, c), x, y, p) else 0.0
  }

  /** After t products entry (x, y) of C tile i is the sum of the first t blocks met walking back from its start. */
  lemma {:induction false} AccumulatedEntry(s: nat, p: nat, a: Matrix, b: Matrix, i: nat, t: nat, x: nat, y: nat)
    requires 0 < s && Shape(a, s * p) && Shape(b, s * p) && x < p && y < p
    requires i < JobOf(s, p, a, b).g.n && t <= s
    ensures var j := JobOf(s, p, a, b);
      && Shape(Accumulated(j, i, t), p)
      && Accumulated(j, i, t)[x][y]
         == BackSum(REALS, BlockDots(s, p, a, b, j.g.row[i], j.g.col[i], x, y), s, Start(j.g, i), t)
  {
    var j := JobOf(s, p, a, b);
    if t > 0 {
      AccumulatedEntry(s, p, a, b, i, t - 1, x, y);
      assert Accumulated(j, i, t) == Gemm(Accumulated(j, i, t - 1), OperandA(j, i, t - 1), OperandB(j, i, t - 1), p);
    }
  }

  /** The tile at (r, c) accumulates block (r, c) of the product. */
  lemma AccumulatesProduct(s: nat, p: nat, a: Matrix, b: Matrix, r: nat, c: nat)
    requires 0 < s && Shape(a, s * p) && Shape(b, s * p) && r < s && c < s
    ensures var j := JobOf(s, p, a, b);
      && j.g.at[r][c] < j.g.n
      && Accumulated(j, j.g.at[r][c], s) == Block(Product(a, b, s * p), s, p, r, c)
  {
    var j := JobOf(s, p, a, b);
    var i, result, goal := j.g.at[r][c], Accumulated(j, j.g.at[r][c], s), Block(Product(a, b, s * p), s, p, r, c);
    assert TileAt(j.g, r, c);
    RealsLawful();
    forall x: nat, y: nat | x < p && y < p
      ensures Shape(result, p) && result[x][y] == goal[x][y]
    {
      var f := BlockDots(s, p, a, b, r, c, x, y);
      AccumulatedEntry(s, p, a, b, i, s, x, y);
      BackSumCycle(REALS, f, s, Start(j.g, i));
      ProductByBlocks(a, b, s, p, r, c, x, y, f);
    }
    if p == 0 {
      assert result == goal;
    } else {
      assert Shape(result, p) by { AccumulatedEntry(s, p, a, b, i, s, 0, 0); }
      assert forall x :: 0 <= x < p ==> result[x] == goal[x];
    }
  }

  /** For every grid side, tile side, A, B and C, and every interleaving of the codelets:
      when the continuation has been signalled, C is the row-major product of A and B. */
  lemma PipelineMultiplies(s: nat, p: nat, a: Matrix, b: Matrix, c: Matrix, moves: seq<Move>, to: State<Matrix>)
    requires 0 < s && Shape(a, s * p) && Shape(b, s * p) && Shape(c, s * p)
    requires Run(JobOf(s, p, a, b), Init(JobOf(s, p, a, b), Tiles(c, s, p)), moves, to)
    ensures to.drain.continuation <= 1
    ensures to.drain.continuation == 1 ==> to.drain.c == Tiles(Product(a, b, s * p), s, p)
  {
    var j := JobOf(s, p, a, b);
    EveryRunComputes(j, Tiles(c, s, p), moves, to);
    if to.drain.continuation == 1 {
      var goal := Tiles(Product(a, b, s * p), s, p);
      forall r, k | 0 <= r < s && 0 <= k < s
        ensures to.drain.c[r][k] == goal[r][k]
      {
        AccumulatesProduct(s, p, a, b, r, k);
      }
      assert forall r :: 0 <= r < s ==> to.drain.c[r] == goal[r];
    }
  }
}
