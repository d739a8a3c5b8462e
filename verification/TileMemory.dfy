/** The copies between the flat row-major arrays and the tiles, and the sequential
    product they are measured against, as the loops that the sources run. */
module TileMemory {
  import opened Arithmetic
  import opened Sums
  import opened Matrices
  import opened Grid
  import opened CannonJob
  import opened CannonMatrices

  function Cell(mem: seq<real>, k: nat): real {
    if k < |mem| then mem[k] else 0.0
  }

  /** The n x n matrix that n*n consecutive cells hold in row-major order. */
  ghost function Flat(mem: seq<real>, n: nat): (m: Matrix)
    ensures Shape(m, n)
  {
    seq(n, i requires 0 <= i < n => seq(n, j requires 0 <= j < n => Cell(mem, Place(n, i, j))))
  }

  lemma FlatEntry(mem: seq<real>, n: nat, i: nat, j: nat)
    requires i < n && j < n
    ensures Entry(Flat(mem, n), i, j) == Cell(mem, Place(n, i, j))
  {
  }

  function Cells(mem: seq<real>, k: nat, w: nat): (t: seq<real>)
    ensures |t| == w
  {
    seq(w, b requires 0 <= b < w => Cell(mem, k + b))
  }

  /** `count` rows of w cells each, taken from mem at k, k + stride, ... */
  ghost function Gather(mem: seq<real>, k: nat, stride: nat, w: nat, count: nat): seq<real>
    decreases count
  {
    if count == 0 then [] else Cells(mem, k, w) + Gather(mem, k + stride, stride, w, count - 1)
  }

  lemma {:induction false} GatherCell(mem: seq<real>, k: nat, stride: nat, w: nat, count: nat, a: nat, b: nat)
    requires a < count && b < w
    ensures Place(w, a, b) < |Gather(mem, k, stride, w, count)|
    ensures Gather(mem, k, stride, w, count)[Place(w, a, b)] == Cell(mem, k + Place(stride, a, b))
    decreases count
  {
    if a > 0 {
      GatherCell(mem, k + stride, stride, w, count - 1, a - 1, b);
      Peel(a, w);
      Peel(a, stride);
    }
  }

  /** mem with `row` written over the cells from k on. */
  ghost function Written(mem: seq<real>, k: nat, row: seq<real>): (w: seq<real>)
    ensures |w| == |mem|
    ensures forall q :: 0 <= q < |mem| ==> w[q] == if k <= q < k + |row| then row[q - k] else mem[q]
  {
    seq(|mem|, q requires 0 <= q < |mem| => if k <= q < k + |row| then row[q - k] else mem[q])
  }

  /** std::copy_n */
  method CopyN(src: array<real>, from: nat, n: nat, dest: array<real>, to: nat)
    requires src != dest && from + n <= src.Length && to + n <= dest.Length
    modifies dest
    ensures dest[..] == Written(old(dest[..]), to, Cells(src[..], from, n))
  {
    var k := 0;
    while k < n
      invariant 0 <= k <= n
      invariant dest[..] == Written(old(dest[..]), to, Cells(src[..], from, k))
    {
      assert Cells(src[..], from, k + 1) == Cells(src[..], from, k) + [Cell(src[..], from + k)];
      dest[to + k] := src[from + k];
      k := k + 1;
    }
  }

  /** Where tile (r, c) starts: the initial_index of the copy codelets. */
  function TileStart(m: nat, p: nat, r: nat, c: nat): nat {
    r * m * p + c * p
  }

  lemma TileCell(m: nat, p: nat, r: nat, c: nat, x: nat, y: nat)
    ensures TileStart(m, p, r, c) + Place(m, x, y) == Place(m, Place(p, r, x), Place(p, c, y))
  {
  }

  /** The last row of tile (r, c) ends inside the matrix. */
  lemma TileFits(s: nat, p: nat, m: nat, r: nat, c: nat)
    requires r < s && c < s && m == s * p
    ensures p > 0 ==> m > 0 && TileStart(m, p, r, c) + p * m - m + p <= m * m
  {
    if p > 0 {
      InBlock(s, p, r, p - 1);
      InBlock(s, p, c, p - 1);
      TileCell(m, p, r, c, p - 1, 0);
      MulMono(Place(p, r, p - 1) + 1, m, m);
      Peel(p, m);
      Peel(Place(p, r, p - 1) + 1, m);
    }
  }

  /** k after `count` strides */
  ghost function Advance(k: nat, stride: nat, count: nat): (r: nat)
    ensures count > 0 ==> r >= k + stride
    ensures r >= k
    decreases count
  {
    if count == 0 then k else Advance(k + stride, stride, count - 1)
  }

  lemma {:induction false} AdvanceIs(k: nat, stride: nat, count: nat)
    ensures Advance(k, stride, count) == k + count * stride
    decreases count
  {
    if count > 0 {
      AdvanceIs(k + stride, stride, count - 1);
      Peel(count, stride);
    }
  }

  lemma WrittenPrefix(before: seq<real>, d: nat, row: seq<real>, rest: seq<real>)
    requires d + |row| <= |before|
    ensures Written(before, d, row)[..d + |row|] + rest == before[..d] + (row + rest)
  {
    assert Written(before, d, row)[..d + |row|] == before[..d] + row;
  }

  /** The loop of the copy codelets; end is initial_index plus p rows. */
  method CopyRows(src: array<real>, start: nat, end: nat, m: nat, p: nat, dest: array<real>)
    requires src != dest && Advance(start, m, p) == end && Advance(0, p, p) == dest.Length
    requires p > 0 ==> m > 0 && end - m + p <= src.Length
    modifies dest
    ensures dest[..] == Gather(src[..], start, m, p, p)
  {
    var k: nat, d: nat := start, 0;
    ghost var left: nat, goal := p, Gather(src[..], start, m, p, p);
    while k < end
      invariant Advance(k, m, left) == end && Advance(d, p, left) == dest.Length
      invariant dest[..d] + Gather(src[..], k, m, p, left) == goal
      decreases left
    {
      assert left > 0;
      WrittenPrefix(dest[..], d, Cells(src[..], k, p), Gather(src[..], k + m, m, p, left - 1));
      CopyN(src, k, p, dest, d);
      d := d + p;
      k := k + m;
      left := left - 1;
    }
    assert dest[..] == dest[..d] + [];
  }

  /** `cannonCodCopyA::fire` and `cannonCodCopyB::fire`: the scratch tile receives block (i / s, i % s). */
  method CopyTileIn(src: array<real>, s: nat, p: nat, i: nat, dest: array<real>)
    requires src != dest && 0 < s && i < s * s
    requires src.Length == (s * p) * (s * p) && dest.Length == p * p
    modifies dest
    ensures Flat(dest[..], p) == Block(Flat(src[..], s * p), s, p, Row(s, i), Col(s, i))
  {
    var m := s * p;
    var r, c := Row(s, i), Col(s, i);
    TileFits(s, p, m, r, c);
    AdvanceIs(TileStart(m, p, r, c), m, p);
    AdvanceIs(0, p, p);
    CopyRows(src, TileStart(m, p, r, c), TileStart(m, p, r, c) + p * m, m, p, dest);
    TileGathered(src[..], dest[..], s, p, m, r, c);
  }

  lemma TileGatheredCell(src: seq<real>, dest: seq<real>, s: nat, p: nat, m: nat, r: nat, c: nat, x: nat, y: nat)
    requires m == s * p && r < s && c < s && dest == Gather(src, TileStart(m, p, r, c), m, p, p) && x < p && y < p
    ensures Place(p, r, x) < m && Place(p, c, y) < m
    ensures Cell(dest, Place(p, x, y)) == Cell(src, Place(m, Place(p, r, x), Place(p, c, y)))
  {
    InBlock(s, p, r, x);
    InBlock(s, p, c, y);
    TileCell(m, p, r, c, x, y);
    GatherCell(src, TileStart(m, p, r, c), m, p, p, x, y);
  }

  lemma TileGathered(src: seq<real>, dest: seq<real>, s: nat, p: nat, m: nat, r: nat, c: nat)
    requires m == s * p && r < s && c < s && dest == Gather(src, TileStart(m, p, r, c), m, p, p)
    ensures Flat(dest, p) == Block(Flat(src, s * p), s, p, r, c)
  {
    var t, goal := Flat(dest, p), Block(Flat(src, s * p), s, p, r, c);
    forall x: nat, y: nat | x < p && y < p
      ensures t[x][y] == goal[x][y]
    {
      TileGatheredCell(src, dest, s, p, m, r, c, x, y);
    }
    assert forall x :: 0 <= x < p ==> t[x] == goal[x];
  }

  /** mem after `count` rows of w cells, read from t at d on, were written at k, k + stride, ... */
  ghost function Scatter(mem: seq<real>, k: nat, t: seq<real>, d: nat, stride: nat, w: nat, count: nat): (r: seq<real>)
    ensures |r| == |mem|
    decreases count
  {
    if count == 0 then mem
    else Scatter(Written(mem, k, Cells(t, d, w)), k + stride, t, d + w, stride, w, count - 1)
  }

  /** Entry (x, y) after the rows r, ..., r + count - 1 were overwritten from column c on. */
  lemma {:induction false} ScatterEntry(mem: seq<real>, m: nat, r: nat, c: nat, t: seq<real>, d: nat, w: nat, count: nat, x: nat, y: nat)
    requires y < m && c + w <= m && Place(m, x, y) < |mem|
    ensures Cell(Scatter(mem, Place(m, r, c), t, d, m, w, count), Place(m, x, y))
         == if r <= x < r + count && c <= y < c + w then Cell(t, d + Place(w, x - r, y - c)) else Cell(mem, Place(m, x, y))
    decreases count
  {
    if count > 0 {
      WrittenRow(mem, m, r, c, Cells(t, d, w), w, x, y);
      ScatterEntry(Written(mem, Place(m, r, c), Cells(t, d, w)), m, r + 1, c, t, d + w, w, count - 1, x, y);
      if x > r {
        Peel(x - r, w);
      }
    }
  }

  /** Entry (x, y) after one row was overwritten from column c on. */
  lemma WrittenRow(mem: seq<real>, m: nat, r: nat, c: nat, row: seq<real>, w: nat, x: nat, y: nat)
    requires y < m && c + w <= m && |row| == w && Place(m, x, y) < |mem|
    ensures Place(m, r, c) + m == Place(m, r + 1, c)
    ensures Cell(Written(mem, Place(m, r, c), row), Place(m, x, y))
         == if x == r && c <= y < c + w then row[y - c] else Cell(mem, Place(m, x, y))
  {
    RowPlaces(m, r, c, x, y);
  }

  method WriteRows(src: array<real>, m: nat, p: nat, dest: array<real>, start: nat, end: nat)
    requires src != dest && Advance(start, m, p) == end && Advance(0, p, p) == src.Length
    requires p > 0 ==> m > 0 && end - m + p <= dest.Length
    modifies dest
    ensures dest[..] == Scatter(old(dest[..]), start, src[..], 0, m, p, p)
  {
    var k: nat, d: nat := start, 0;
    ghost var left: nat, goal := p, Scatter(dest[..], start, src[..], 0, m, p, p);
    while k < end
      invariant Advance(k, m, left) == end && Advance(d, p, left) == src.Length
      invariant Scatter(dest[..], k, src[..], d, m, p, left) == goal
      decreases left
    {
      assert left > 0;
      CopyN(src, d, p, dest, k);
      d := d + p;
      k := k + m;
      left := left - 1;
    }
  }

  /** `cannonCodCopyC::fire`: block (i / s, i % s) of the flat C receives the tile. */
  method CopyTileOut(src: array<real>, s: nat, p: nat, i: nat, dest: array<real>)
    requires src != dest && 0 < s && i < s * s
    requires dest.Length == (s * p) * (s * p) && src.Length == p * p
    modifies dest
    ensures Flat(dest[..], s * p) == Paste(Flat(old(dest[..]), s * p), s, p, Row(s, i), Col(s, i), Flat(src[..], p))
  {
    var m := s * p;
    var r, c := Row(s, i), Col(s, i);
    ghost var before := dest[..];
    TileFits(s, p, m, r, c);
    AdvanceIs(TileStart(m, p, r, c), m, p);
    AdvanceIs(0, p, p);
    WriteRows(src, m, p, dest, TileStart(m, p, r, c), TileStart(m, p, r, c) + p * m);
    TileScattered(src[..], before, dest[..], s, p, m, r, c);
  }

  lemma TileScatteredCell(t: seq<real>, mem: seq<real>, s: nat, p: nat, m: nat, r: nat, c: nat, x: nat, y: nat)
    requires m == s * p && r < s && c < s && |mem| == m * m && x < m && y < m
    ensures Cell(Scatter(mem, TileStart(m, p, r, c), t, 0, m, p, p), Place(m, x, y))
         == if r * p <= x < r * p + p && c * p <= y < c * p + p then Cell(t, Place(p, x - r * p, y - c * p))
            else Cell(mem, Place(m, x, y))
  {
    TileCell(m, p, r, c, 0, 0);
    MulMono(c + 1, s, p);
    Peel(c + 1, p);
    PlaceOrder(m, m, x, y);
    ScatterEntry(mem, m, Place(p, r, 0), Place(p, c, 0), t, 0, p, p, x, y);
  }

  lemma TileScatteredEntry(t: seq<real>, mem: seq<real>, s: nat, p: nat, m: nat, r: nat, c: nat, x: nat, y: nat)
    requires m == s * p && r < s && c < s && |mem| == m * m && x < m && y < m
    ensures Entry(Flat(Scatter(mem, TileStart(m, p, r, c), t, 0, m, p, p), m), x, y)
         == Entry(Paste(Flat(mem, m), s, p, r, c, Flat(t, p)), x, y)
  {
    TileScatteredCell(t, mem, s, p, m, r, c, x, y);
    PasteAt(Flat(mem, m), s, p, r, c, Flat(t, p), x, y);
    if r * p <= x < r * p + p && c * p <= y < c * p + p {
      FlatEntry(t, p, x - r * p, y - c * p);
    }
    FlatEntry(mem, m, x, y);
    FlatEntry(Scatter(mem, TileStart(m, p, r, c), t, 0, m, p, p), m, x, y);
  }

  lemma TileScattered(t: seq<real>, mem: seq<real>, after: seq<real>, s: nat, p: nat, m: nat, r: nat, c: nat)
    requires m == s * p && r < s && c < s && |mem| == m * m
    requires after == Scatter(mem, TileStart(m, p, r, c), t, 0, m, p, p)
    ensures Flat(after, m) == Paste(Flat(mem, m), s, p, r, c, Flat(t, p))
  {
    var w, goal := Flat(after, m), Paste(Flat(mem, m), s, p, r, c, Flat(t, p));
    forall x: nat, y: nat | x < m && y < m
      ensures Entry(w, x, y) == Entry(goal, x, y)
    {
      TileScatteredEntry(t, mem, s, p, m, r, c, x, y);
    }
    SameEntries(w, goal, m);
  }

  /** Pasting a block changes that tile of the grid and no other. */
  lemma PasteTile(m: Matrix, s: nat, p: nat, r: nat, c: nat, t: Matrix)
    requires Shape(m, s * p) && Shape(t, p) && r < s && c < s
    ensures Tiles(Paste(m, s, p, r, c, t), s, p) == Put(Tiles(m, s, p), r, c, t)
  {
    var after, goal := Tiles(Paste(m, s, p, r, c, t), s, p), Put(Tiles(m, s, p), r, c, t);
    forall i, j | 0 <= i < s && 0 <= j < s
      ensures after[i][j] == goal[i][j]
    {
      PasteBlock(m, s, p, r, c, t, i, j);
    }
    assert forall i :: 0 <= i < s ==> after[i] == goal[i];
  }

  lemma PasteEntry(m: Matrix, s: nat, p: nat, r: nat, c: nat, t: Matrix, i: nat, j: nat, x: nat, y: nat)
    requires Shape(m, s * p) && Shape(t, p) && r < s && c < s && i < s && j < s && x < p && y < p
    ensures Entry(Block(Paste(m, s, p, r, c, t), s, p, i, j), x, y)
         == if i == r && j == c then Entry(t, x, y) else Entry(Block(m, s, p, i, j), x, y)
  {
    InBlock(s, p, i, x);
    InBlock(s, p, j, y);
    PlaceOrder(p, r, i, x);
    PlaceOrder(p, c, j, y);
  }

  lemma PasteBlock(m: Matrix, s: nat, p: nat, r: nat, c: nat, t: Matrix, i: nat, j: nat)
    requires Shape(m, s * p) && Shape(t, p) && r < s && c < s && i < s && j < s
    ensures Block(Paste(m, s, p, r, c, t), s, p, i, j) == if i == r && j == c then t else Block(m, s, p, i, j)
  {
    forall x: nat, y: nat | x < p && y < p
      ensures Entry(Block(Paste(m, s, p, r, c, t), s, p, i, j), x, y)
           == if i == r && j == c then Entry(t, x, y) else Entry(Block(m, s, p, i, j), x, y)
    {
      PasteEntry(m, s, p, r, c, t, i, j, x, y);
    }
    SameEntries(Block(Paste(m, s, p, r, c, t), s, p, i, j), if i == r && j == c then t else Block(m, s, p, i, j), p);
  }

  /** The cells of rows < i, and those of row i left of column j, hold the entries of m. */
  ghost predicate FilledTo(mem: seq<real>, m: Matrix, n: nat, i: nat, j: nat) {
    forall x: nat, y: nat :: y < n && (x < i || (x == i && y < j)) ==> Cell(mem, Place(n, x, y)) == Entry(m, x, y)
  }

  lemma FillNext(mem: seq<real>, m: Matrix, n: nat, i: nat, j: nat, v: real)
    requires FilledTo(mem, m, n, i, j) && j < n && Place(n, i, j) < |mem| && v == Entry(m, i, j)
    ensures FilledTo(mem[Place(n, i, j) := v], m, n, i, j + 1)
  {
    forall x: nat, y: nat | y < n && (x < i || (x == i && y < j + 1))
      ensures Cell(mem[Place(n, i, j) := v], Place(n, x, y)) == Entry(m, x, y)
    {
      RowPlaces(n, i, j, x, y);
    }
  }

  /** `multiply`, the row-major specification of both programs. */
  method Multiply(c: array<real>, a: array<real>, b: array<real>, n: nat)
    requires c != a && c != b && a.Length == n * n && b.Length == n * n && c.Length == n * n
    modifies c
    ensures Flat(c[..], n) == Product(Flat(a[..], n), Flat(b[..], n), n)
  {
    ghost var goal := Product(Flat(a[..], n), Flat(b[..], n), n);
    for i := 0 to n
      invariant FilledTo(c[..], goal, n, i, 0)
    {
      for j := 0 to n
        invariant FilledTo(c[..], goal, n, i, j)
      {
        var sum := InnerProduct(a, b, n, i, j);
        InMatrix(n, i, j);
        FillNext(c[..], goal, n, i, j, sum);
        c[Place(n, i, j)] := sum;
      }
    }
    SameEntries(Flat(c[..], n), goal, n);
  }

  /** The innermost loop of `multiply`. */
  method InnerProduct(a: array<real>, b: array<real>, n: nat, i: nat, j: nat) returns (sum: real)
    requires a.Length == n * n && b.Length == n * n && i < n && j < n
    ensures sum == Dot(Flat(a[..], n), Flat(b[..], n), i, j, n)
  {
    ghost var terms := Terms(Flat(a[..], n), Flat(b[..], n), i, j);
    sum := 0.0;
    for k := 0 to n
      invariant sum == Sum(REALS, terms, 0, k)
    {
      InMatrix(n, i, k);
      InMatrix(n, k, j);
      assert terms(k) == a[Place(n, i, k)] * b[Place(n, k, j)];
      sum := sum + a[Place(n, i, k)] * b[Place(n, k, j)];
    }
  }
}
