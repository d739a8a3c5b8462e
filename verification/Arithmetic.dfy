/** The multiplication and division facts that index computations need. */
module Arithmetic {
  /** The index after x, of n that go round. */
  function Inc(n: nat, x: nat): nat {
    if x + 1 == n then 0 else x + 1
  }

  lemma MulMono(x: nat, y: nat, z: nat)
    ensures x <= y ==> x * z <= y * z
  {
  }

  lemma DivMod(s: nat, q: nat, m: nat)
    requires m < s
    ensures (q * s + m) / s == q && (q * s + m) % s == m
  {
    var i := q * s + m;
    assert i == (i / s) * s + i % s;
    MulMono(i / s + 1, q, s);
    MulMono(q + 1, i / s, s);
  }

  lemma ModSmall(x: nat, n: nat)
    requires x < n
    ensures x % n == x && x / n == 0
  {
  }

  lemma ModSelf(n: nat)
    requires 0 < n
    ensures n % n == 0 && n / n == 1
  {
  }

  lemma Divided(a: nat, n: nat)
    requires 0 < n
    ensures a == (a / n) * n + a % n && a % n < n
  {
  }

  lemma Peel(n: nat, w: nat)
    requires n > 0
    ensures n * w == (n - 1) * w + w && (n - 1) * w >= 0
  {
  }

  /** Where entry (i, j) of a matrix with rows of n cells is kept. */
  function Place(n: nat, i: nat, j: nat): nat {
    i * n + j
  }

  lemma PlaceOrder(m: nat, r: nat, x: nat, y: nat)
    requires y < m
    ensures x < r ==> Place(m, x, y) < Place(m, r, 0)
    ensures x > r ==> Place(m, x, y) >= Place(m, r, 0) + m
    ensures Place(m, x, y) == Place(m, x, 0) + y
  {
    MulMono(x + 1, r, m);
    MulMono(r + 1, x, m);
  }

  /** Cell (x, y) against the stretch of row r that starts at column c. */
  lemma RowPlaces(m: nat, r: nat, c: nat, x: nat, y: nat)
    requires y < m && c <= m
    ensures x < r ==> Place(m, x, y) < Place(m, r, c)
    ensures x > r ==> Place(m, x, y) >= Place(m, r, c) + m - c
    ensures x == r ==> Place(m, x, y) == Place(m, r, c) + y - c
    ensures Place(m, r, c) + m == Place(m, r + 1, c)
  {
    PlaceOrder(m, r, x, y);
    Peel(r + 1, m);
  }

  lemma InMatrix(n: nat, i: nat, j: nat)
    requires i < n && j < n
    ensures Place(n, i, j) < n * n
  {
    PlaceOrder(n, n, i, j);
  }
}
