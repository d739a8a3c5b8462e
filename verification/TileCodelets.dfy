/** The codelets of the tiled matrix multiply on flat memory: they do what the steps of TiledMultiply say. */
module TileCodelets {
  import opened Arithmetic
  import opened Sums
  import opened Matrices
  import opened TileMemory
  import opened TiledMultiply

  /** The sub-matrix constructor of `matrix`: h rows of w cells, from entry (x, y) of the source on. */
  method SubMatrix(source: array<real>, ghost sM: nat, sN: nat, x: nat, y: nat, h: nat, w: nat) returns (dest: array<real>)
    requires source.Length == sM * sN && x + h <= sM && y + w <= sN
    ensures fresh(dest) && dest.Length == h * w
    ensures forall i: nat, j: nat :: i < h && j < w ==> Cell(dest[..], Place(w, i, j)) == Cell(source[..], Place(sN, i + x, j + y))
  {
    dest := new real[h * w];
    ghost var before := dest[..];
    for i := 0 to h
      invariant RowsCopied(before, dest[..], w, source[..], sN, 0, x, 0, y, w, i)
    {
      RowInside(h, w, i, 0, w);
      RowInside(sM, sN, i + x, y, w);
      CopyRow(before, dest[..], w, source[..], sN, 0, x, 0, y, w, i);
      CopyN(source, Place(sN, i + x, y), w, dest, Place(w, i, 0));
    }
    forall i: nat, j: nat | i < h && j < w
      ensures Cell(dest[..], Place(w, i, j)) == Cell(source[..], Place(sN, i + x, j + y))
    {
      assert RowCopied(before, dest[..], w, source[..], sN, 0, x, 0, y, w, h, i, j);
    }
  }

  /** The strip of rows that an iloop copies for its tiles. */
  method CopyStrip(source: array<real>, rows: nat, cols: nat, base: nat, h: nat) returns (strip: array<real>)
    requires source.Length == rows * cols && base + h <= rows
    ensures fresh(strip) && strip.Length == h * cols
    ensures FlatRect(strip[..], h, cols) == Strip(FlatRect(source[..], rows, cols), base, h)
  {
    strip := SubMatrix(source, rows, cols, base, 0, h, cols);
    StripRect(source[..], rows, cols, base, h, strip[..]);
  }

  lemma StripRect(source: seq<real>, rows: nat, cols: nat, base: nat, h: nat, strip: seq<real>)
    requires base + h <= rows
    requires forall i: nat, j: nat :: i < h && j < cols ==> Cell(strip, Place(cols, i, j)) == Cell(source, Place(cols, i + base, j + 0))
    ensures FlatRect(strip, h, cols) == Strip(FlatRect(source, rows, cols), base, h)
  {
    var l, r := FlatRect(strip, h, cols), Strip(FlatRect(source, rows, cols), base, h);
    forall i: nat, j: nat | i < h && j < cols
      ensures Entry(l, i, j) == Entry(r, i, j)
    {
      RectEntry(strip, h, cols, i, j);
      RectEntry(source, rows, cols, i + base, j);
    }
    SameRect(l, r, h, cols);
  }

  /** The tile that DGEMM is to compute from the strip and from the columns of b. */
  ghost function Goal(a: Matrix, b: Matrix, bj: nat, h: nat, w: nat, k: nat): (t: Matrix)
    ensures Rect(t, h, w)
  {
    seq(h, x requires 0 <= x => seq(w, y requires 0 <= y => Dot(a, Columns(b, bj, w), x, y, k)))
  }

  /** DGEMM with alpha = 1 and beta = 0 on a strip of h rows of a and w columns of b, of which the first starts at cell bj. */
  method Dgemm(h: nat, w: nat, k: nat, a: array<real>, b: array<real>, bj: nat, bN: nat, c: array<real>)
    requires c != a && c != b && a.Length == h * k && b.Length == k * bN && c.Length == h * w && bj + w <= bN
    modifies c
    ensures FlatRect(c[..], h, w) == Goal(FlatRect(a[..], h, k), FlatRect(b[..], k, bN), bj, h, w, k)
  {
    ghost var left, right := FlatRect(a[..], h, k), FlatRect(b[..], k, bN);
    ghost var goal := Goal(left, right, bj, h, w, k);
    for x := 0 to h
      invariant FilledTo(c[..], goal, w, x, 0)
    {
      for y := 0 to w
        invariant FilledTo(c[..], goal, w, x, y)
      {
        var sum := TileSum(h, w, k, a, b, bj, bN, x, y);
        RowInside(h, w, x, y, 1);
        assert Entry(goal, x, y) == goal[x][y];
        FillNext(c[..], goal, w, x, y, sum);
        c[Place(w, x, y)] := sum;
      }
    }
    forall x: nat, y: nat | x < h && y < w
      ensures Entry(FlatRect(c[..], h, w), x, y) == Entry(goal, x, y)
    {
      RectEntry(c[..], h, w, x, y);
    }
    SameRect(FlatRect(c[..], h, w), goal, h, w);
  }

  method TileSum(ghost h: nat, ghost w: nat, k: nat, a: array<real>, b: array<real>, bj: nat, bN: nat, x: nat, y: nat)
    returns (sum: real)
    requires a.Length == h * k && b.Length == k * bN && bj + w <= bN && x < h && y < w
    ensures sum == Dot(FlatRect(a[..], h, k), Columns(FlatRect(b[..], k, bN), bj, w), x, y, k)
  {
    ghost var left, right := FlatRect(a[..], h, k), FlatRect(b[..], k, bN);
    ghost var terms := Terms(left, Columns(right, bj, w), x, y);
    sum := 0.0;
    for z := 0 to k
      invariant sum == Sum(REALS, terms, 0, z)
    {
      RowInside(h, k, x, z, 1);
      RowInside(k, bN, z, bj + y, 1);
      RectEntry(a[..], h, k, x, z);
      RectEntry(b[..], k, bN, z, bj + y);
      assert Columns(right, bj, w)[z][y] == Entry(right, z, bj + y);
      assert terms(z) == a[Place(k, x, z)] * b[Place(bN, z, bj + y)];
      sum := sum + a[Place(k, x, z)] * b[Place(bN, z, bj + y)];
    }
  }

  /** The tile is computed apart, and copied into C at (x, y). */
  method ComputeTile(strip: array<real>, b: array<real>, c: array<real>, x: nat, h: nat, y: nat, w: nat, k: nat, rows: nat, cols: nat)
    requires c != strip && c != b && x + h <= rows && y + w <= cols && (h == rows ==> x == 0) && (w == cols ==> y == 0)
    requires strip.Length == h * k && b.Length == k * cols && c.Length == rows * cols
    modifies c
    ensures FlatRect(c[..], rows, cols)
         == Pasted(FlatRect(old(c[..]), rows, cols), rows, cols, x, y,
                   Goal(FlatRect(strip[..], h, k), FlatRect(b[..], k, cols), y, h, w, k), h, w)
  {
    var tile := new real[h * w];
    Dgemm(h, w, k, strip, b, y, cols, tile);
    ghost var before := c[..];
    CopyMatrix(c, rows, cols, tile, h, w, x, y);
    CopyPastes(before, c[..], rows, cols, tile[..], h, w, x, y);
  }

  lemma GoalIsTile(a: Matrix, b: Matrix, bi: nat, h: nat, bj: nat, w: nat, k: nat)
    requires bi + h <= |a|
    ensures Goal(Strip(a, bi, h), b, bj, h, w, k) == TileProduct(a, b, bi, h, bj, w, k)
  {
  }

  /** `tileMult::fire`, with the strip that its iloop has copied: the memory of C ends as the step of the model says, also
      where the tile is as high or as wide as C. */
  method FireTile(p: Args, strip: array<real>, b: array<real>, c: array<real>, i: nat, j: nat, ghost st: State)
    requires ArgsOk(p) && i < p.iCut && j < p.jCut && c != strip && c != b
    requires strip.Length == TileSize(p.msi, p.iCut, i) * p.msk && b.Length == p.msk * p.msj && c.Length == p.msi * p.msj
    requires TileBase(p.msi, p.iCut, i) + TileSize(p.msi, p.iCut, i) <= p.msi
    requires FlatRect(strip[..], TileSize(p.msi, p.iCut, i), p.msk) == Strip(p.a, TileBase(p.msi, p.iCut, i), TileSize(p.msi, p.iCut, i))
    requires FlatRect(b[..], p.msk, p.msj) == p.b && FlatRect(c[..], p.msi, p.msj) == st.c
    modifies c
    ensures FlatRect(c[..], p.msi, p.msj) == Fire(p, st, i, j).c
  {
    var x, h, y, w := TileBase(p.msi, p.iCut, i), TileSize(p.msi, p.iCut, i), TileBase(p.msj, p.jCut, j), TileSize(p.msj, p.jCut, j);
    TileFitsIn(p.msi, p.iCut, i);
    TileFitsIn(p.msj, p.jCut, j);
    GoalIsTile(p.a, p.b, x, h, y, w, p.msk);
    ComputeTile(strip, b, c, x, h, y, w, p.msk, p.msi, p.msj);
  }

  /** C's memory after some of the tiles have fired. */
  ghost predicate Holds(p: Args, c0: Matrix, mem: seq<real>, st: State)
    requires ArgsOk(p)
  {
    TilesOk(p, c0, st) && FlatRect(mem, p.msi, p.msj) == st.c
  }

  /** The loop over the tiles of a strip. */
  method FireRow(p: Args, strip: array<real>, b: array<real>, c: array<real>, i: nat, ghost c0: Matrix, ghost from: State)
    returns (ghost st: State)
    requires ArgsOk(p) && i < p.iCut && c != strip && c != b
    requires strip.Length == TileSize(p.msi, p.iCut, i) * p.msk && b.Length == p.msk * p.msj && c.Length == p.msi * p.msj
    requires TileBase(p.msi, p.iCut, i) + TileSize(p.msi, p.iCut, i) <= p.msi
    requires FlatRect(strip[..], TileSize(p.msi, p.iCut, i), p.msk) == Strip(p.a, TileBase(p.msi, p.iCut, i), TileSize(p.msi, p.iCut, i))
    requires FlatRect(b[..], p.msk, p.msj) == p.b && Holds(p, c0, c[..], from)
    modifies c
    ensures Holds(p, c0, c[..], st) && from.fired <= st.fired && forall l: nat :: l < p.jCut ==> (i, l) in st.fired
  {
    st := from;
    for j := 0 to p.jCut
      invariant Holds(p, c0, c[..], st) && from.fired <= st.fired && forall l: nat :: l < j ==> (i, l) in st.fired
    {
      FireTile(p, strip, b, c, i, j, st);
      FireKeeps(p, c0, st, i, j);
      st := Fire(p, st, i, j);
    }
  }

  /** `mmTile`: the loop over the strips. The memory of C ends as the product. */
  method MultiplyTiled(p: Args, a: array<real>, b: array<real>, c: array<real>)
    requires ArgsOk(p) && c != a && c != b
    requires a.Length == p.msi * p.msk && b.Length == p.msk * p.msj && c.Length == p.msi * p.msj
    requires FlatRect(a[..], p.msi, p.msk) == p.a && FlatRect(b[..], p.msk, p.msj) == p.b
    modifies c
    ensures FlatRect(c[..], p.msi, p.msj) == Whole(p)
  {
    ghost var c0 := FlatRect(c[..], p.msi, p.msj);
    ghost var st := State(c0, {});
    for i := 0 to p.iCut
      invariant Holds(p, c0, c[..], st)
      invariant forall k: nat, l: nat :: k < i && l < p.jCut ==> (k, l) in st.fired
    {
      TileFitsIn(p.msi, p.iCut, i);
      var strip := CopyStrip(a, p.msi, p.msk, TileBase(p.msi, p.iCut, i), TileSize(p.msi, p.iCut, i));
      st := FireRow(p, strip, b, c, i, c0, st);
    }
    AllFired(p, c0, st);
  }
}
