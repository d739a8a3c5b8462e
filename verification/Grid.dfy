/** The s x s torus of tiles: the index tables that the cannonTP constructor
    precomputes for its codelets, and the facts about them that the
    two Cannon programs rely on. */
module Grid {
  import opened Arithmetic
  import opened Sums

  /** Tile i sits at (row[i], col[i]). Compute codelet i pushes its A tile to nextRow[i] and its
      B tile to nextCol[i]; skew codelet i sends them to destRow[i] and destCol[i].
      left, up, fromRow and fromCol are the inverses of those four maps, and at is the inverse of (row, col). */
  datatype Torus = Torus(s: nat, n: nat, at: seq<seq<nat>>, row: seq<nat>, col: seq<nat>,
                         nextRow: seq<nat>, nextCol: seq<nat>, destRow: seq<nat>, destCol: seq<nat>,
                         left: seq<nat>, up: seq<nat>, fromRow: seq<nat>, fromCol: seq<nat>)

  ghost predicate AllBelow(t: seq<nat>, len: nat, bound: nat) {
    |t| == len && forall i :: 0 <= i < len ==> t[i] < bound
  }

  ghost predicate Bounded(g: Torus) {
    && 0 < g.s <= g.n
    && |g.at| == g.s && (forall r :: 0 <= r < g.s ==> AllBelow(g.at[r], g.s, g.n))
    && AllBelow(g.row, g.n, g.s) && AllBelow(g.col, g.n, g.s)
    && AllBelow(g.nextRow, g.n, g.n) && AllBelow(g.nextCol, g.n, g.n)
    && AllBelow(g.destRow, g.n, g.n) && AllBelow(g.destCol, g.n, g.n)
    && AllBelow(g.left, g.n, g.n) && AllBelow(g.up, g.n, g.n)
    && AllBelow(g.fromRow, g.n, g.n) && AllBelow(g.fromCol, g.n, g.n)
  }

  /** The entries of tile i move one step (or the skew distance) along its row or column,
      and the inverse tables undo them. */
  ghost predicate Wired(g: Torus, i: nat)
    requires Bounded(g) && i < g.n
  {
    && g.at[g.row[i]][g.col[i]] == i
    && StepsRight(g, i, g.nextRow[i]) && g.left[g.nextRow[i]] == i && g.nextRow[g.left[i]] == i
    && StepsDown(g, i, g.nextCol[i]) && g.up[g.nextCol[i]] == i && g.nextCol[g.up[i]] == i
    && SkewsA(g, i, g.destRow[i]) && g.fromRow[g.destRow[i]] == i && g.destRow[g.fromRow[i]] == i
    && SkewsB(g, i, g.destCol[i]) && g.fromCol[g.destCol[i]] == i && g.destCol[g.fromCol[i]] == i
  }

  ghost predicate TileAt(g: Torus, r: nat, c: nat)
    requires Bounded(g) && r < g.s && c < g.s
  {
    g.row[g.at[r][c]] == r && g.col[g.at[r][c]] == c
  }

  ghost predicate WellWired(g: Torus) {
    && Bounded(g)
    && (forall i :: 0 <= i < g.n ==> Wired(g, i))
    && (forall r, c :: 0 <= r < g.s && 0 <= c < g.s ==> TileAt(g, r, c))
  }

  ghost predicate StepsRight(g: Torus, i: nat, j: nat)
    requires i < g.n == |g.row| == |g.col|
  {
    j < g.n && g.row[j] == g.row[i] && g.col[j] == Inc(g.s, g.col[i])
  }

  ghost predicate StepsDown(g: Torus, i: nat, j: nat)
    requires i < g.n == |g.row| == |g.col|
  {
    j < g.n && g.col[j] == g.col[i] && g.row[j] == Inc(g.s, g.row[i])
  }

  ghost predicate SkewsA(g: Torus, i: nat, j: nat)
    requires i < g.n == |g.row| == |g.col|
  {
    j < g.n && g.row[j] == g.row[i]
    && g.col[j] == if g.col[i] >= g.row[i] then g.col[i] - g.row[i] else g.col[i] + g.s - g.row[i]
  }

  ghost predicate SkewsB(g: Torus, i: nat, j: nat)
    requires i < g.n == |g.row| == |g.col|
  {
    j < g.n && g.col[j] == g.col[i]
    && g.row[j] == if g.row[i] >= g.col[i] then g.row[i] - g.col[i] else g.row[i] + g.s - g.col[i]
  }

  /** The inner index with which tile i starts: (row + col) mod s. */
  function Start(g: Torus, i: nat): (k: nat)
    requires WellWired(g) && i < g.n
    ensures k < g.s
  {
    if g.row[i] + g.col[i] < g.s then g.row[i] + g.col[i] else g.row[i] + g.col[i] - g.s
  }

  /** The inner index that tile i uses in iteration t: (row + col - t) mod s. */
  function InnerIndex(g: Torus, i: nat, t: nat): (k: nat)
    requires WellWired(g) && i < g.n && t <= g.s
    ensures k < g.s
  {
    Back(g.s, Start(g, i), t)
  }

  /** What tile i multiplies in iteration t, its right and lower neighbours multiply in iteration t + 1. */
  lemma ShiftKeepsInner(g: Torus, i: nat, t: nat)
    requires WellWired(g) && i < g.n && t < g.s
    ensures InnerIndex(g, g.nextRow[i], t + 1) == InnerIndex(g, i, t)
    ensures InnerIndex(g, g.nextCol[i], t + 1) == InnerIndex(g, i, t)
  {
    assert Wired(g, i);
  }

  /** The skew phase hands every tile the two tiles of its first iteration. */
  lemma SkewStarts(g: Torus, i: nat)
    requires WellWired(g) && i < g.n
    ensures InnerIndex(g, g.destRow[i], 0) == g.col[i]
    ensures InnerIndex(g, g.destCol[i], 0) == g.row[i]
  {
    assert Wired(g, i);
  }

  // The constructor's arithmetic: theI is the column and theJ the row of tile i.

  function At(s: nat, r: nat, c: nat): nat { r * s + c }

  function Row(s: nat, i: nat): (r: nat)
    requires 0 < s && i < s * s
    ensures r < s
  {
    TileOf(s, i);
    i / s
  }

  function Col(s: nat, i: nat): (c: nat)
    requires 0 < s && i < s * s
    ensures c < s
  {
    i % s
  }

  /** C's x % s, on the non-negative x that occur here. */
  function Mod(x: int, s: nat): (m: nat)
    requires s > 0
    ensures m < s
  {
    x % s
  }

  function Table(s: nat, entry: (nat, nat) -> nat): (t: seq<nat>)
    requires s > 0
    ensures |t| == s * s
    ensures forall i :: 0 <= i < s * s ==> t[i] == entry(Row(s, i), Col(s, i))
  {
    seq<nat>(s * s, i requires 0 <= i < s * s => entry(Row(s, i), Col(s, i)))
  }

  lemma TableAt(s: nat, entry: (nat, nat) -> nat, r: nat, c: nat)
    requires r < s && c < s
    ensures At(s, r, c) < s * s && Table(s, entry)[At(s, r, c)] == entry(r, c)
  {
    Coordinates(s, r, c);
  }

  /** The tables, written as the constructor computes them. */
  function TorusOf(s: nat): Torus
    requires s > 0
  {
    Torus(s, s * s,
      seq(s, r requires 0 <= r < s => seq(s, c requires 0 <= c < s => At(s, r, c))),
      Table(s, (r: nat, c: nat) => r),
      Table(s, (r: nat, c: nat) => c),
      Table(s, (r: nat, c: nat) => At(s, r, Mod(c + 1, s))),
      Table(s, (r: nat, c: nat) => At(s, Mod(r + 1, s), c)),
      Table(s, (r: nat, c: nat) => At(s, r, Mod(c - r + s, s))),
      Table(s, (r: nat, c: nat) => At(s, Mod(r - c + s, s), c)),
      Table(s, (r: nat, c: nat) => At(s, r, Mod(c + s - 1, s))),
      Table(s, (r: nat, c: nat) => At(s, Mod(r + s - 1, s), c)),
      Table(s, (r: nat, c: nat) => At(s, r, Mod(r + c, s))),
      Table(s, (r: nat, c: nat) => At(s, Mod(r + c, s), c)))
  }

  /** Tile i is the one at row i / s and column i % s, and the only one there. */
  lemma TileOf(s: nat, i: nat)
    requires 0 < s && i < s * s
    ensures i / s < s && i == At(s, i / s, i % s)
  {
    assert i == (i / s) * s + i % s;
    MulMono(s, i / s, s);
  }

  lemma Coordinates(s: nat, r: nat, c: nat)
    requires r < s && c < s
    ensures At(s, r, c) < s * s && Row(s, At(s, r, c)) == r && Col(s, At(s, r, c)) == c
  {
    MulMono(r + 1, s, s);
    DivMod(s, r, c);
  }

  /** x mod s for the arguments that occur here. */
  lemma Wrapped(s: nat, x: nat)
    requires 0 < s && x < 2 * s
    ensures Mod(x, s) == if x < s then x else x - s
  {
    if x < s { ModSmall(x, s); } else { DivMod(s, 1, x - s); }
  }

  ghost predicate TableSizes(g: Torus) {
    && |g.at| == g.s && (forall r :: 0 <= r < g.s ==> |g.at[r]| == g.s)
    && |g.row| == |g.col| == |g.nextRow| == |g.nextCol| == |g.destRow| == |g.destCol| == g.n
    && |g.left| == |g.up| == |g.fromRow| == |g.fromCol| == g.n
  }

  /** The entries of the tables for the tile at (r, c), in coordinates. */
  ghost predicate EntriesAt(g: Torus, r: nat, c: nat)
    requires TableSizes(g) && r < g.s && c < g.s
  {
    var i := g.at[r][c];
    && i < g.n && g.row[i] == r && g.col[i] == c
    && StepEntries(g, i, r, c) && SkewEntries(g, i, r, c)
  }

  ghost predicate StepEntries(g: Torus, i: nat, r: nat, c: nat)
    requires TableSizes(g) && r < g.s && c < g.s && i < g.n
  {
    && g.nextRow[i] == g.at[r][Inc(g.s, c)]
    && g.nextCol[i] == g.at[Inc(g.s, r)][c]
    && g.left[i] == g.at[r][if c == 0 then g.s - 1 else c - 1]
    && g.up[i] == g.at[if r == 0 then g.s - 1 else r - 1][c]
  }

  ghost predicate SkewEntries(g: Torus, i: nat, r: nat, c: nat)
    requires TableSizes(g) && r < g.s && c < g.s && i < g.n
  {
    && g.destRow[i] == g.at[r][if c >= r then c - r else c + g.s - r]
    && g.destCol[i] == g.at[if r >= c then r - c else r + g.s - c][c]
    && g.fromRow[i] == g.at[r][if r + c < g.s then r + c else r + c - g.s]
    && g.fromCol[i] == g.at[if r + c < g.s then r + c else r + c - g.s][c]
  }

  lemma Wraps(s: nat, r: nat, c: nat)
    requires r < s && c < s
    ensures Mod(c + 1, s) == Inc(s, c) && Mod(r + 1, s) == Inc(s, r)
    ensures Mod(c - r + s, s) == if c >= r then c - r else c + s - r
    ensures Mod(r - c + s, s) == if r >= c then r - c else r + s - c
    ensures Mod(c + s - 1, s) == if c == 0 then s - 1 else c - 1
    ensures Mod(r + s - 1, s) == if r == 0 then s - 1 else r - 1
    ensures Mod(r + c, s) == if r + c < s then r + c else r + c - s
  {
    Wrapped(s, c + 1);
    Wrapped(s, r + 1);
    Wrapped(s, c - r + s);
    Wrapped(s, r - c + s);
    Wrapped(s, c + s - 1);
    Wrapped(s, r + s - 1);
    Wrapped(s, r + c);
  }

  lemma TorusSteps(s: nat, r: nat, c: nat)
    requires r < s && c < s
    ensures At(s, r, c) < s * s && TableSizes(TorusOf(s)) && StepEntries(TorusOf(s), At(s, r, c), r, c)
  {
    var g := TorusOf(s);
    Coordinates(s, r, c);
    Wraps(s, r, c);
    var right, down, left, up := Mod(c + 1, s), Mod(r + 1, s), Mod(c + s - 1, s), Mod(r + s - 1, s);
    assert g.at[r][right] == At(s, r, right) && g.at[down][c] == At(s, down, c);
    assert g.at[r][left] == At(s, r, left) && g.at[up][c] == At(s, up, c);
  }

  lemma TorusSkews(s: nat, r: nat, c: nat)
    requires r < s && c < s
    ensures At(s, r, c) < s * s && TableSizes(TorusOf(s)) && SkewEntries(TorusOf(s), At(s, r, c), r, c)
  {
    var g := TorusOf(s);
    Coordinates(s, r, c);
    Wraps(s, r, c);
    var toA, toB, from := Mod(c - r + s, s), Mod(r - c + s, s), Mod(r + c, s);
    assert g.at[r][toA] == At(s, r, toA) && g.at[toB][c] == At(s, toB, c);
    assert g.at[r][from] == At(s, r, from) && g.at[from][c] == At(s, from, c);
  }

  lemma TorusEntries(s: nat, r: nat, c: nat)
    requires r < s && c < s
    ensures TableSizes(TorusOf(s)) && EntriesAt(TorusOf(s), r, c)
  {
    Coordinates(s, r, c);
    TorusSteps(s, r, c);
    TorusSkews(s, r, c);
    assert TorusOf(s).at[r][c] == At(s, r, c);
  }

  lemma RightWired(g: Torus, r: nat, c: nat)
    requires TableSizes(g) && r < g.s && c < g.s
    requires forall x: nat, y: nat :: x < g.s && y < g.s ==> EntriesAt(g, x, y)
    ensures var i := g.at[r][c];
      && i < g.n == |g.row| == |g.col|
      && StepsRight(g, i, g.nextRow[i]) && g.left[g.nextRow[i]] == i
      && g.left[i] < g.n && g.nextRow[g.left[i]] == i
  {
    assert EntriesAt(g, r, c);
    assert EntriesAt(g, r, Inc(g.s, c));
    assert EntriesAt(g, r, if c == 0 then g.s - 1 else c - 1);
  }

  lemma DownWired(g: Torus, r: nat, c: nat)
    requires TableSizes(g) && r < g.s && c < g.s
    requires forall x: nat, y: nat :: x < g.s && y < g.s ==> EntriesAt(g, x, y)
    ensures var i := g.at[r][c];
      && i < g.n == |g.row| == |g.col|
      && StepsDown(g, i, g.nextCol[i]) && g.up[g.nextCol[i]] == i
      && g.up[i] < g.n && g.nextCol[g.up[i]] == i
  {
    assert EntriesAt(g, r, c);
    assert EntriesAt(g, Inc(g.s, r), c);
    assert EntriesAt(g, if r == 0 then g.s - 1 else r - 1, c);
  }

  lemma SkewAWired(g: Torus, r: nat, c: nat)
    requires TableSizes(g) && r < g.s && c < g.s
    requires forall x: nat, y: nat :: x < g.s && y < g.s ==> EntriesAt(g, x, y)
    ensures var i := g.at[r][c];
      && i < g.n == |g.row| == |g.col|
      && SkewsA(g, i, g.destRow[i]) && g.fromRow[g.destRow[i]] == i
      && g.fromRow[i] < g.n && g.destRow[g.fromRow[i]] == i
  {
    assert EntriesAt(g, r, c);
    assert EntriesAt(g, r, if c >= r then c - r else c + g.s - r);
    assert EntriesAt(g, r, if r + c < g.s then r + c else r + c - g.s);
  }

  lemma SkewBWired(g: Torus, r: nat, c: nat)
    requires TableSizes(g) && r < g.s && c < g.s
    requires forall x: nat, y: nat :: x < g.s && y < g.s ==> EntriesAt(g, x, y)
    ensures var i := g.at[r][c];
      && i < g.n == |g.row| == |g.col|
      && SkewsB(g, i, g.destCol[i]) && g.fromCol[g.destCol[i]] == i
      && g.fromCol[i] < g.n && g.destCol[g.fromCol[i]] == i
  {
    assert EntriesAt(g, r, c);
    assert EntriesAt(g, if r >= c then r - c else r + g.s - c, c);
    assert EntriesAt(g, if r + c < g.s then r + c else r + c - g.s, c);
  }

  /** The tables the constructor computes are wired as the two programs need. */
  lemma TorusWellWired(s: nat)
    requires s > 0
    ensures WellWired(TorusOf(s)) && TorusOf(s).s == s && TorusOf(s).n == s * s
  {
    var g := TorusOf(s);
    MulMono(1, s, s);
    forall r: nat, c: nat | r < s && c < s
      ensures EntriesAt(g, r, c)
    {
      TorusEntries(s, r, c);
    }
    forall i: nat | i < g.n
      ensures g.row[i] < g.s && g.col[i] < g.s && g.at[g.row[i]][g.col[i]] == i
    {
      TileOf(s, i);
    }
    EntriesWire(g);
  }

  lemma EntriesWire(g: Torus)
    requires TableSizes(g) && 0 < g.s <= g.n
    requires forall r: nat, c: nat :: r < g.s && c < g.s ==> EntriesAt(g, r, c)
    requires forall i: nat :: i < g.n ==> g.row[i] < g.s && g.col[i] < g.s && g.at[g.row[i]][g.col[i]] == i
    ensures WellWired(g)
  {
    forall r: nat | r < g.s
      ensures AllBelow(g.at[r], g.s, g.n)
    {
      forall c: nat | c < g.s ensures g.at[r][c] < g.n { assert EntriesAt(g, r, c); }
    }
    forall i: nat | i < g.n
      ensures g.nextRow[i] < g.n && g.nextCol[i] < g.n && g.destRow[i] < g.n && g.destCol[i] < g.n
      ensures g.left[i] < g.n && g.up[i] < g.n && g.fromRow[i] < g.n && g.fromCol[i] < g.n
    {
      assert EntriesAt(g, g.row[i], g.col[i]);
    }
    forall r: nat, c: nat | r < g.s && c < g.s
      ensures TileAt(g, r, c)
    {
      assert EntriesAt(g, r, c);
    }
    forall i: nat | i < g.n
      ensures Wired(g, i)
    {
      RightWired(g, g.row[i], g.col[i]);
      DownWired(g, g.row[i], g.col[i]);
      SkewAWired(g, g.row[i], g.col[i]);
      SkewBWired(g, g.row[i], g.col[i]);
    }
  }
}
