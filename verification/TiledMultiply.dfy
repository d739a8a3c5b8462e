/** The tiled matrix multiply: the tiles, of which the last in each direction absorbs the remainder, partition C,
    and in whatever order their codelets fire C ends as the row-major product. */
module TiledMultiply {
  import opened Arithmetic
  import opened Sums
  import opened Matrices
  import opened TileMemory

  // mmArgs: one direction, of size n in cut tiles

  function TileBase(n: nat, cut: nat, k: nat): nat
    requires 0 < cut
  {
    k * (n / cut)
  }

  function TileSize(n: nat, cut: nat, k: nat): nat
    requires 0 < cut
  {
    if k + 1 == cut then n / cut + n % cut else n / cut
  }

  predicate InTile(n: nat, cut: nat, k: nat, u: nat)
    requires 0 < cut
  {
    TileBase(n, cut, k) <= u < TileBase(n, cut, k) + TileSize(n, cut, k)
  }

  /** The tile that u belongs to. */
  lemma TileCovers(n: nat, cut: nat, u: nat) returns (k: nat)
    requires 0 < cut && u < n
    ensures k < cut && InTile(n, cut, k, u)
  {
    Divided(n, cut);
    k := Covering(n, cut, n / cut, u);
  }

  lemma Covering(n: nat, cut: nat, t: nat, u: nat) returns (k: nat)
    requires 0 < cut && u < n == cut * t + n % cut
    ensures k < cut && k * t <= u < k * t + t + if k + 1 == cut then n % cut else 0
  {
    Peel(cut, t);
    if (cut - 1) * t <= u {
      k := cut - 1;
    } else {
      k := InFullTile(u, t, cut - 1);
    }
  }

  lemma InFullTile(u: nat, t: nat, k: nat) returns (l: nat)
    requires u < k * t
    ensures l < k && l * t <= u < l * t + t
  {
    assert t > 0;
    l := u / t;
    Divided(u, t);
    MulMono(k, l, t);
  }

  /** A tile lies within the matrix, and no two tiles share an index. */
  lemma TilesApart(n: nat, cut: nat, k: nat, l: nat, u: nat)
    requires k < cut && l < cut && InTile(n, cut, k, u)
    ensures u < n && TileBase(n, cut, k) + TileSize(n, cut, k) <= n
    ensures InTile(n, cut, l, u) ==> k == l
  {
    var t := n / cut;
    Divided(n, cut);
    Peel(cut, t);
    MulMono(k + 1, cut, t);
    Peel(k + 1, t);
    MulMono(k + 1, l, t);
    MulMono(l + 1, k, t);
    Peel(l + 1, t);
  }

  lemma TileFitsIn(n: nat, cut: nat, k: nat)
    requires k < cut
    ensures TileBase(n, cut, k) + TileSize(n, cut, k) <= n
    ensures TileSize(n, cut, k) == n ==> TileBase(n, cut, k) == 0
  {
    var t := n / cut;
    Divided(n, cut);
    Peel(cut, t);
    MulMono(k + 1, cut, t);
    Peel(k + 1, t);
    if k + 1 < cut {
      MulMono(2, cut, t);
    }
  }

  // Rectangular matrices in row-major memory

  ghost predicate Rect(m: Matrix, rows: nat, cols: nat) {
    |m| == rows && forall i :: 0 <= i < rows ==> |m[i]| == cols
  }

  ghost function FlatRect(mem: seq<real>, rows: nat, cols: nat): (m: Matrix)
    ensures Rect(m, rows, cols)
  {
    seq(rows, i requires 0 <= i < rows => seq(cols, j requires 0 <= j < cols => Cell(mem, Place(cols, i, j))))
  }

  /** m with t written over the entries from (x, y) on. */
  ghost function Pasted(m: Matrix, rows: nat, cols: nat, x: nat, y: nat, t: Matrix, h: nat, w: nat): (r: Matrix)
    ensures Rect(r, rows, cols)
  {
    seq(rows, i requires 0 <= i < rows => seq(cols, j requires 0 <= j < cols =>
      if x <= i < x + h && y <= j < y + w then Entry(t, i - x, j - y) else Entry(m, i, j)))
  }

  lemma RectEntry(mem: seq<real>, rows: nat, cols: nat, i: nat, j: nat)
    requires i < rows && j < cols
    ensures Entry(FlatRect(mem, rows, cols), i, j) == Cell(mem, Place(cols, i, j))
  {
  }

  lemma PastedEntry(m: Matrix, rows: nat, cols: nat, x: nat, y: nat, t: Matrix, h: nat, w: nat, u: nat, v: nat)
    requires u < rows && v < cols
    ensures Entry(Pasted(m, rows, cols, x, y, t, h, w), u, v)
         == if x <= u < x + h && y <= v < y + w then Entry(t, u - x, v - y) else Entry(m, u, v)
  {
  }

  lemma SameRect(a: Matrix, b: Matrix, rows: nat, cols: nat)
    requires Rect(a, rows, cols) && Rect(b, rows, cols)
    requires forall i: nat, j: nat :: i < rows && j < cols ==> Entry(a, i, j) == Entry(b, i, j)
    ensures a == b
  {
    forall i: nat | i < rows
      ensures a[i] == b[i]
    {
      forall j: nat | j < cols
        ensures a[i][j] == b[i][j]
      {
        assert Entry(a, i, j) == Entry(b, i, j);
      }
    }
  }

  // copyMatrix

  /** The offsets that `copyMatrix` uses in one direction: in the destination and in the source. */
  function DestOffset(d: nat, s: nat, x: nat): nat { if d > s then x else 0 }

  function SourceOffset(d: nat, s: nat, x: nat): nat { if s > d then x else 0 }

  function Min(a: nat, b: nat): nat { if a < b then a else b }

  /** The first n rows have been copied: row i + sx of the source, from column sy on, to row i + dx, from column dy on. */
  ghost predicate RowsCopied(before: seq<real>, dest: seq<real>, dN: nat, source: seq<real>, sN: nat, dx: nat, sx: nat, dy: nat, sy: nat,
                             w: nat, n: nat) {
    |dest| == |before| && forall i: nat, j: nat :: RowCopied(before, dest, dN, source, sN, dx, sx, dy, sy, w, n, i, j)
  }

  ghost predicate RowCopied(before: seq<real>, dest: seq<real>, dN: nat, source: seq<real>, sN: nat, dx: nat, sx: nat, dy: nat, sy: nat,
                            w: nat, n: nat, i: nat, j: nat) {
    j < dN ==>
      Cell(dest, Place(dN, i, j))
      == if dx <= i < dx + n && dy <= j < dy + w then Cell(source, Place(sN, i - dx + sx, j - dy + sy)) else Cell(before, Place(dN, i, j))
  }

  lemma CopyRow(before: seq<real>, dest: seq<real>, dN: nat, source: seq<real>, sN: nat, dx: nat, sx: nat, dy: nat, sy: nat, w: nat, n: nat)
    requires RowsCopied(before, dest, dN, source, sN, dx, sx, dy, sy, w, n) && dy + w <= dN
    requires Place(dN, n + dx, dy) + w <= |dest|
    ensures RowsCopied(before, Written(dest, Place(dN, n + dx, dy), Cells(source, Place(sN, n + sx, sy), w)), dN, source, sN,
                       dx, sx, dy, sy, w, n + 1)
  {
    var dest', n': nat := Written(dest, Place(dN, n + dx, dy), Cells(source, Place(sN, n + sx, sy), w)), n + 1;
    forall i: nat, j: nat
      ensures RowCopied(before, dest', dN, source, sN, dx, sx, dy, sy, w, n', i, j)
    {
      if j < dN {
        assert RowCopied(before, dest, dN, source, sN, dx, sx, dy, sy, w, n, i, j);
        RowPlaces(dN, n + dx, dy, i, j);
        if i == n + dx && dy <= j < dy + w {
          assert Place(sN, n + sx, j - dy + sy) == Place(sN, n + sx, sy) + (j - dy);
        }
      }
    }
  }

  lemma RowInside(rows: nat, cols: nat, i: nat, j: nat, w: nat)
    requires i < rows && j + w <= cols
    ensures Place(cols, i, j) + w <= rows * cols
  {
    MulMono(i + 1, rows, cols);
    Peel(i + 1, cols);
  }

  lemma CopyAll(before: seq<real>, source: seq<real>, rows: nat, cols: nat)
    requires |before| == |source| == rows * cols
    ensures RowsCopied(before, Written(before, 0, Cells(source, 0, rows * cols)), cols, source, cols, 0, 0, 0, 0, cols, rows)
  {
    var dest := Written(before, 0, Cells(source, 0, rows * cols));
    forall i: nat, j: nat
      ensures RowCopied(before, dest, cols, source, cols, 0, 0, 0, 0, cols, rows, i, j)
    {
      if j < cols {
        PlaceOrder(cols, rows, i, j);
      }
    }
  }

  /** `copyMatrix`, whose offsets apply to the larger of the two matrices, direction by direction. */
  method CopyMatrix(dest: array<real>, dM: nat, dN: nat, source: array<real>, sM: nat, sN: nat, x: nat, y: nat)
    requires dest != source && dest.Length == dM * dN && source.Length == sM * sN
    requires DestOffset(dM, sM, x) + Min(dM, sM) <= dM && SourceOffset(dM, sM, x) + Min(dM, sM) <= sM
    requires DestOffset(dN, sN, y) + Min(dN, sN) <= dN && SourceOffset(dN, sN, y) + Min(dN, sN) <= sN
    modifies dest
    ensures RowsCopied(old(dest[..]), dest[..], dN, source[..], sN, DestOffset(dM, sM, x), SourceOffset(dM, sM, x),
                       DestOffset(dN, sN, y), SourceOffset(dN, sN, y), Min(dN, sN), Min(dM, sM))
  {
    var col, row := Min(dM, sM), Min(dN, sN);
    var dYoff, sYoff := DestOffset(dN, sN, y), SourceOffset(dN, sN, y);
    var dXoff, sXoff := DestOffset(dM, sM, x), SourceOffset(dM, sM, x);
    if dN == sN && dM == sM {
      CopyAll(dest[..], source[..], dM, dN);
      CopyN(source, 0, dM * dN, dest, 0);
    } else {
      ghost var before := dest[..];
      for i := 0 to col
        invariant RowsCopied(before, dest[..], dN, source[..], sN, dXoff, sXoff, dYoff, sYoff, row, i)
      {
        RowInside(dM, dN, i + dXoff, dYoff, row);
        RowInside(sM, sN, i + sXoff, sYoff, row);
        CopyRow(before, dest[..], dN, source[..], sN, dXoff, sXoff, dYoff, sYoff, row, i);
        CopyN(source, Place(sN, i + sXoff, sYoff), row, dest, Place(dN, i + dXoff, dYoff));
      }
    }
  }

  /** A tile that is not larger than the destination is pasted at (x, y), provided that the offset is 0 in a direction
      in which they are equally large. */
  lemma CopyPastes(before: seq<real>, dest: seq<real>, dM: nat, dN: nat, source: seq<real>, sM: nat, sN: nat, x: nat, y: nat)
    requires sM <= dM && sN <= dN && (sM == dM ==> x == 0) && (sN == dN ==> y == 0)
    requires RowsCopied(before, dest, dN, source, sN, DestOffset(dM, sM, x), SourceOffset(dM, sM, x),
                        DestOffset(dN, sN, y), SourceOffset(dN, sN, y), Min(dN, sN), Min(dM, sM))
    ensures FlatRect(dest, dM, dN) == Pasted(FlatRect(before, dM, dN), dM, dN, x, y, FlatRect(source, sM, sN), sM, sN)
  {
    var l, r := FlatRect(dest, dM, dN), Pasted(FlatRect(before, dM, dN), dM, dN, x, y, FlatRect(source, sM, sN), sM, sN);
    forall i: nat, j: nat | i < dM && j < dN
      ensures Entry(l, i, j) == Entry(r, i, j)
    {
      assert RowCopied(before, dest, dN, source, sN, DestOffset(dM, sM, x), SourceOffset(dM, sM, x),
                       DestOffset(dN, sN, y), SourceOffset(dN, sN, y), Min(dN, sN), Min(dM, sM), i, j);
      RectEntry(dest, dM, dN, i, j);
      RectEntry(before, dM, dN, i, j);
      PastedEntry(FlatRect(before, dM, dN), dM, dN, x, y, FlatRect(source, sM, sN), sM, sN, i, j);
      if x <= i < x + sM && y <= j < y + sN {
        RectEntry(source, sM, sN, i - x, j - y);
      }
    }
    SameRect(l, r, dM, dN);
  }

  // The tile codelets

  /** The arguments: a is msi x msk, b is msk x msj, and C is msi x msj, cut into iCut x jCut tiles. */
  datatype Args = Args(a: Matrix, b: Matrix, msi: nat, msj: nat, msk: nat, iCut: nat, jCut: nat)

  ghost predicate ArgsOk(p: Args) {
    0 < p.iCut && 0 < p.jCut && Rect(p.a, p.msi, p.msk) && Rect(p.b, p.msk, p.msj)
  }

  /** The strip of h rows of a that an iloop copies. */
  ghost function Strip(a: Matrix, base: nat, h: nat): (t: Matrix)
    requires base + h <= |a|
    ensures |t| == h
  {
    a[base..base + h]
  }

  /** The w columns of b from which the pointer &b[j * jTile] reads. */
  ghost function Columns(b: Matrix, base: nat, w: nat): (t: Matrix)
    ensures Rect(t, |b|, w)
  {
    seq(|b|, k requires 0 <= k < |b| => seq(w, y requires 0 <= y < w => Entry(b, k, base + y)))
  }

  /** What DGEMM with beta = 0 leaves in the codelet's own tile. */
  ghost function TileProduct(a: Matrix, b: Matrix, bi: nat, h: nat, bj: nat, w: nat, msk: nat): (t: Matrix)
    requires bi + h <= |a|
    ensures Rect(t, h, w)
  {
    seq(h, x requires 0 <= x => seq(w, y requires 0 <= y => Dot(Strip(a, bi, h), Columns(b, bj, w), x, y, msk)))
  }

  /** `multiply` */
  ghost function Whole(p: Args): (c: Matrix)
    ensures Rect(c, p.msi, p.msj)
  {
    seq(p.msi, u requires 0 <= u => seq(p.msj, v requires 0 <= v => Dot(p.a, p.b, u, v, p.msk)))
  }

  lemma TermShifted(a: Matrix, b: Matrix, bi: nat, h: nat, bj: nat, w: nat, msi: nat, msj: nat, msk: nat, x: nat, y: nat, k: nat)
    requires Rect(a, msi, msk) && Rect(b, msk, msj) && bi + h <= msi && bj + w <= msj && x < h && y < w && k < msk
    ensures Term(Strip(a, bi, h), Columns(b, bj, w), x, y, k) == Term(a, b, bi + x, bj + y, k)
  {
    assert |b[k]| == msj && |Columns(b, bj, w)[k]| == w;
    assert Columns(b, bj, w)[k][y] == Entry(b, k, bj + y);
    assert Strip(a, bi, h)[x] == a[bi + x] && |a[bi + x]| == msk;
  }

  lemma TileEntry(a: Matrix, b: Matrix, bi: nat, h: nat, bj: nat, w: nat, msi: nat, msj: nat, msk: nat, x: nat, y: nat)
    requires Rect(a, msi, msk) && Rect(b, msk, msj) && bi + h <= msi && bj + w <= msj && x < h && y < w
    ensures Entry(TileProduct(a, b, bi, h, bj, w, msk), x, y) == Dot(a, b, bi + x, bj + y, msk)
  {
    var f, g := Terms(Strip(a, bi, h), Columns(b, bj, w), x, y), Terms(a, b, bi + x, bj + y);
    forall k: nat | k < msk
      ensures f(k) == g(k)
    {
      TermShifted(a, b, bi, h, bj, w, msi, msj, msk, x, y, k);
    }
    SumExt(REALS, f, g, 0, msk);
  }

  /** C and the tiles that have fired. */
  datatype State = State(c: Matrix, fired: set<(nat, nat)>)

  /** `tileMult::fire`: the tile is computed apart and copied into C. */
  ghost function Fire(p: Args, st: State, i: nat, j: nat): State
    requires ArgsOk(p) && i < p.iCut && j < p.jCut
  {
    TileFitsIn(p.msi, p.iCut, i);
    var bi, h, bj, w := TileBase(p.msi, p.iCut, i), TileSize(p.msi, p.iCut, i), TileBase(p.msj, p.jCut, j), TileSize(p.msj, p.jCut, j);
    State(Pasted(st.c, p.msi, p.msj, bi, bj, TileProduct(p.a, p.b, bi, h, bj, w, p.msk), h, w), st.fired + {(i, j)})
  }

  /** The tiles fire in this order, each at most once. */
  ghost predicate Run(p: Args, from: State, order: seq<(nat, nat)>, to: State)
    requires ArgsOk(p)
    decreases |order|
  {
    if order == [] then from == to
    else
      && order[0].0 < p.iCut && order[0].1 < p.jCut && order[0] !in from.fired
      && Run(p, Fire(p, from, order[0].0, order[0].1), order[1..], to)
  }

  /** Where a tile has fired, C holds the product; the other places are as they were. */
  ghost predicate EntryOk(p: Args, c0: Matrix, st: State, i: nat, j: nat, u: nat, v: nat)
    requires ArgsOk(p)
  {
    i < p.iCut && j < p.jCut && InTile(p.msi, p.iCut, i, u) && InTile(p.msj, p.jCut, j, v) ==>
      Entry(st.c, u, v) == if (i, j) in st.fired then Dot(p.a, p.b, u, v, p.msk) else Entry(c0, u, v)
  }

  ghost predicate TilesOk(p: Args, c0: Matrix, st: State)
    requires ArgsOk(p)
  {
    Rect(st.c, p.msi, p.msj) && forall i: nat, j: nat, u: nat, v: nat :: EntryOk(p, c0, st, i, j, u, v)
  }

  lemma FireKeeps(p: Args, c0: Matrix, st: State, i: nat, j: nat)
    requires ArgsOk(p) && TilesOk(p, c0, st) && i < p.iCut && j < p.jCut
    ensures TilesOk(p, c0, Fire(p, st, i, j))
  {
    var st' := Fire(p, st, i, j);
    forall k: nat, l: nat, u: nat, v: nat
      ensures EntryOk(p, c0, st', k, l, u, v)
    {
      assert EntryOk(p, c0, st, k, l, u, v);
      if k < p.iCut && l < p.jCut && InTile(p.msi, p.iCut, k, u) && InTile(p.msj, p.jCut, l, v) {
        FiredEntry(p, st, i, j, k, l, u, v);
      }
    }
  }

  lemma FiredEntry(p: Args, st: State, i: nat, j: nat, k: nat, l: nat, u: nat, v: nat)
    requires ArgsOk(p) && Rect(st.c, p.msi, p.msj) && i < p.iCut && j < p.jCut && k < p.iCut && l < p.jCut
    requires InTile(p.msi, p.iCut, k, u) && InTile(p.msj, p.jCut, l, v)
    ensures Entry(Fire(p, st, i, j).c, u, v) == if (i, j) == (k, l) then Dot(p.a, p.b, u, v, p.msk) else Entry(st.c, u, v)
  {
    TileFitsIn(p.msi, p.iCut, i);
    TileFitsIn(p.msj, p.jCut, j);
    InOneTile(p, i, j, k, l, u, v);
    PastedProduct(st.c, p.a, p.b, TileBase(p.msi, p.iCut, i), TileSize(p.msi, p.iCut, i), TileBase(p.msj, p.jCut, j),
                  TileSize(p.msj, p.jCut, j), p.msi, p.msj, p.msk, u, v);
  }

  lemma PastedProduct(c: Matrix, a: Matrix, b: Matrix, bi: nat, h: nat, bj: nat, w: nat, msi: nat, msj: nat, msk: nat, u: nat, v: nat)
    requires Rect(a, msi, msk) && Rect(b, msk, msj) && bi + h <= msi && bj + w <= msj && u < msi && v < msj
    ensures Entry(Pasted(c, msi, msj, bi, bj, TileProduct(a, b, bi, h, bj, w, msk), h, w), u, v)
         == if bi <= u < bi + h && bj <= v < bj + w then Dot(a, b, u, v, msk) else Entry(c, u, v)
  {
    PastedEntry(c, msi, msj, bi, bj, TileProduct(a, b, bi, h, bj, w, msk), h, w, u, v);
    if bi <= u < bi + h && bj <= v < bj + w {
      TileEntry(a, b, bi, h, bj, w, msi, msj, msk, u - bi, v - bj);
    }
  }

  lemma InOneTile(p: Args, i: nat, j: nat, k: nat, l: nat, u: nat, v: nat)
    requires i < p.iCut && j < p.jCut && k < p.iCut && l < p.jCut && InTile(p.msi, p.iCut, k, u) && InTile(p.msj, p.jCut, l, v)
    ensures u < p.msi && v < p.msj
    ensures InTile(p.msi, p.iCut, i, u) && InTile(p.msj, p.jCut, j, v) <==> (i, j) == (k, l)
  {
    TilesApart(p.msi, p.iCut, k, i, u);
    TilesApart(p.msj, p.jCut, l, j, v);
  }

  lemma {:induction false} RunKeeps(p: Args, c0: Matrix, from: State, order: seq<(nat, nat)>, to: State)
    requires ArgsOk(p) && TilesOk(p, c0, from) && Run(p, from, order, to)
    ensures TilesOk(p, c0, to)
    decreases |order|
  {
    if order != [] {
      FireKeeps(p, c0, from, order[0].0, order[0].1);
      RunKeeps(p, c0, Fire(p, from, order[0].0, order[0].1), order[1..], to);
    }
  }

  // Every tile fires once

  ghost function TileSet(iCut: nat, jCut: nat): set<(nat, nat)> {
    set i: nat, j: nat | i < iCut && j < jCut :: (i, j)
  }

  ghost function TileRow(i: nat, jCut: nat): set<(nat, nat)> {
    set j: nat | j < jCut :: (i, j)
  }

  lemma {:induction false} RowCount(i: nat, jCut: nat)
    ensures |TileRow(i, jCut)| == jCut
  {
    if jCut == 0 {
      assert TileRow(i, 0) == {};
    } else {
      RowCount(i, jCut - 1);
      assert TileRow(i, jCut) == TileRow(i, jCut - 1) + {(i, jCut - 1)};
    }
  }

  lemma {:induction false} TileCount(iCut: nat, jCut: nat)
    ensures |TileSet(iCut, jCut)| == iCut * jCut
  {
    if iCut == 0 {
      assert TileSet(0, jCut) == {};
    } else {
      TileCount(iCut - 1, jCut);
      RowCount(iCut - 1, jCut);
      assert TileSet(iCut, jCut) == TileSet(iCut - 1, jCut) + TileRow(iCut - 1, jCut);
      assert TileSet(iCut - 1, jCut) !! TileRow(iCut - 1, jCut);
      Peel(iCut, jCut);
    }
  }

  lemma {:induction false} RunFires(p: Args, from: State, order: seq<(nat, nat)>, to: State)
    requires ArgsOk(p) && Run(p, from, order, to)
    ensures |to.fired| == |from.fired| + |order|
    ensures from.fired <= TileSet(p.iCut, p.jCut) ==> to.fired <= TileSet(p.iCut, p.jCut)
    decreases |order|
  {
    if order != [] {
      var next := Fire(p, from, order[0].0, order[0].1);
      assert next.fired == from.fired + {order[0]};
      RunFires(p, next, order[1..], to);
    }
  }

  lemma SubsetCount(a: set<(nat, nat)>, b: set<(nat, nat)>)
    requires a <= b
    ensures |a| <= |b| && (|a| == |b| ==> a == b) && (|a| < |b| ==> !(b <= a))
  {
    assert b == a + (b - a) && a !! (b - a);
  }

  lemma Unfired(p: Args, st: State) returns (i: nat, j: nat)
    requires !(TileSet(p.iCut, p.jCut) <= st.fired)
    ensures i < p.iCut && j < p.jCut && (i, j) !in st.fired
  {
    var t :| t in TileSet(p.iCut, p.jCut) && t !in st.fired;
    i, j := t.0, t.1;
  }

  lemma AllFired(p: Args, c0: Matrix, st: State)
    requires ArgsOk(p) && TilesOk(p, c0, st) && forall i: nat, j: nat :: i < p.iCut && j < p.jCut ==> (i, j) in st.fired
    ensures st.c == Whole(p)
  {
    forall u: nat, v: nat | u < p.msi && v < p.msj
      ensures Entry(st.c, u, v) == Entry(Whole(p), u, v)
    {
      var i := TileCovers(p.msi, p.iCut, u);
      var j := TileCovers(p.msj, p.jCut, v);
      assert EntryOk(p, c0, st, i, j, u, v);
    }
    SameRect(st.c, Whole(p), p.msi, p.msj);
  }

  /** Every order of the tile codelets: it ends when each of the iCut * jCut tiles has fired once, until then some tile can
      fire, and at the end C is the product that `multiply` defines. */
  lemma EveryOrderMultiplies(p: Args, c0: Matrix, order: seq<(nat, nat)>, to: State)
    requires ArgsOk(p) && Rect(c0, p.msi, p.msj) && Run(p, State(c0, {}), order, to)
    ensures |order| <= p.iCut * p.jCut
    ensures |order| < p.iCut * p.jCut ==> exists i: nat, j: nat :: i < p.iCut && j < p.jCut && (i, j) !in to.fired
    ensures |order| == p.iCut * p.jCut ==> to.c == Whole(p)
  {
    RunFires(p, State(c0, {}), order, to);
    SubsetCount(to.fired, TileSet(p.iCut, p.jCut));
    TileCount(p.iCut, p.jCut);
    if |order| == p.iCut * p.jCut {
      RunKeeps(p, c0, State(c0, {}), order, to);
      AllFired(p, c0, to);
    } else {
      var i, j := Unfired(p, to);
    }
  }
}
