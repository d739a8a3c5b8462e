/** One matrix product as both Cannon programs see it: grids of tiles on the torus,
    and the operands that each tile is to multiply in each iteration. */
module CannonJob {
  import opened Sums
  import opened Grid

  /** The arguments of the cannonTP constructor: the torus of tiles, and A and B as s x s grids
      of tiles. zero is the tile that C starts from and gemm the DGEMM call C := C + A.B. */
  datatype Job<!T> = Job(g: Torus, a: seq<seq<T>>, b: seq<seq<T>>, zero: T, gemm: (T, T, T) -> T)

  ghost predicate ValidJob<T>(j: Job<T>) {
    WellWired(j.g) && IsGrid(j.a, j.g.s) && IsGrid(j.b, j.g.s)
  }

  ghost predicate IsGrid<T>(m: seq<seq<T>>, s: nat) {
    |m| == s && forall r :: 0 <= r < s ==> |m[r]| == s
  }

  /** The A tile that tile i multiplies in iteration t; t = s is the one left over at the end. */
  ghost function OperandA<T>(j: Job<T>, i: nat, t: nat): T
    requires ValidJob(j) && i < j.g.n && t <= j.g.s
  {
    j.a[j.g.row[i]][InnerIndex(j.g, i, t)]
  }

  ghost function OperandB<T>(j: Job<T>, i: nat, t: nat): T
    requires ValidJob(j) && i < j.g.n && t <= j.g.s
  {
    j.b[InnerIndex(j.g, i, t)][j.g.col[i]]
  }

  /** C tile i after its first t products. */
  ghost function Accumulated<T>(j: Job<T>, i: nat, t: nat): T
    requires ValidJob(j) && i < j.g.n && t <= j.g.s
  {
    if t == 0 then j.zero else j.gemm(Accumulated(j, i, t - 1), OperandA(j, i, t - 1), OperandB(j, i, t - 1))
  }

  /** The operand pairs of iterations lo, ..., hi - 1. */
  ghost function Pairs<T>(j: Job<T>, i: nat, lo: nat, hi: nat): seq<(T, T)>
    requires ValidJob(j) && i < j.g.n && lo <= hi <= j.g.s
    decreases hi - lo
  {
    if lo == hi then [] else [(OperandA(j, i, lo), OperandB(j, i, lo))] + Pairs(j, i, lo + 1, hi)
  }

  lemma {:induction false} PairsJoin<T>(j: Job<T>, i: nat, lo: nat, mid: nat, hi: nat)
    requires ValidJob(j) && i < j.g.n && lo <= mid <= hi <= j.g.s
    ensures Pairs(j, i, lo, mid) + Pairs(j, i, mid, hi) == Pairs(j, i, lo, hi)
    decreases mid - lo
  {
    if lo < mid {
      PairsJoin(j, i, lo + 1, mid, hi);
    }
  }

  /** Copies tile t over block (r, c) of the grid m. */
  function Put<T>(m: seq<seq<T>>, r: nat, c: nat, t: T): seq<seq<T>> {
    if r < |m| && c < |m[r]| then m[r := m[r][c := t]] else m
  }
}
