/** Machine words as natural numbers: masking with a power of two less one,
    and the rounding-up trick that sizes the queue's blocks. */
module Bits {
  import opened Arithmetic

  function Pow2(e: nat): (p: nat)
    ensures p > 0
  {
    if e == 0 then 1 else 2 * Pow2(e - 1)
  }

  ghost predicate IsPow2(n: nat) {
    exists e: nat :: n == Pow2(e)
  }

  /** Bitwise and. */
  function And(x: nat, y: nat): nat
    decreases x
  {
    if x == 0 || y == 0 then 0 else 2 * And(x / 2, y / 2) + (if x % 2 == 1 && y % 2 == 1 then 1 else 0)
  }

  /** x mod size for the x a ring index can reach, without the division. */
  function Wrap(size: nat, x: nat): nat {
    if x >= size then x - size else x
  }

  lemma {:induction false} MaskIsMod(x: nat, e: nat)
    ensures And(x, Pow2(e) - 1) == x % Pow2(e)
    decreases e
  {
    if e > 0 {
      MaskIsMod(x / 2, e - 1);
      AndOnes(x, Pow2(e - 1));
      HalfMod(x, Pow2(e - 1));
    }
  }

  lemma AndOnes(x: nat, h: nat)
    requires h > 0
    ensures And(x, 2 * h - 1) == 2 * And(x / 2, h - 1) + x % 2
  {
    assert (2 * h - 1) / 2 == h - 1 && (2 * h - 1) % 2 == 1;
  }

  lemma HalfMod(x: nat, h: nat)
    requires h > 0
    ensures x % (2 * h) == 2 * (x / 2 % h) + x % 2
  {
    var q, r := x / 2 / h, x / 2 % h;
    assert x / 2 == q * h + r;
    assert x == q * (2 * h) + (2 * r + x % 2);
    DivMod(2 * h, q, 2 * r + x % 2);
  }

  /** `(i + 1) & sizeMask` steps a ring index. */
  lemma MaskWraps(size: nat, x: nat)
    requires IsPow2(size) && x <= size
    ensures And(x, size - 1) == Wrap(size, x)
  {
    var e: nat :| size == Pow2(e);
    MaskIsMod(x, e);
    if x == size {
      ModSelf(size);
    } else {
      ModSmall(x, size);
    }
  }

  lemma DoublePow2(n: nat)
    requires IsPow2(n)
    ensures IsPow2(2 * n)
  {
    var e: nat :| n == Pow2(e);
    assert 2 * n == Pow2(e + 1);
  }

  /** The least power of two that is at least x. */
  function CeilPow2(x: nat): (r: nat)
    ensures x <= r && IsPow2(r)
    ensures x > 0 ==> r < 2 * x
  {
    if x <= 1 then assert 1 == Pow2(0); 1
    else
      var half := CeilPow2((x + 1) / 2);
      DoublePow2(half);
      2 * half
  }

  lemma {:induction false} Pow2Adds(a: nat, b: nat)
    ensures Pow2(a + b) == Pow2(a) * Pow2(b)
  {
    if a > 0 {
      Pow2Adds(a - 1, b);
      assert Pow2(a) * Pow2(b) == 2 * (Pow2(a - 1) * Pow2(b));
    }
  }

  lemma {:induction false} Pow2Mono(a: nat, b: nat)
    requires a <= b
    ensures Pow2(a) <= Pow2(b)
    decreases b
  {
    if a < b {
      Pow2Mono(a, b - 1);
    }
  }

  /** a - b on unsigned words of w values */
  function Minus(a: nat, b: nat, w: nat): int {
    if a >= b then a - b else a + w - b
  }

  lemma BorrowMod(size: nat, q: nat, a: nat, b: nat, word: nat)
    requires a < b <= size && word == q * size + size
    ensures a + word - b >= 0 && (a + word - b) % size == a + size - b
  {
    DivMod(size, q, a + size - b);
  }

  /** `(tail - front) & sizeMask` is the number of slots from front up to tail, also when the subtraction wraps. */
  lemma MaskedMinus(size: nat, a: nat, b: nat, n: nat)
    requires IsPow2(size) && a < size && b < size <= Pow2(n)
    ensures Minus(a, b, Pow2(n)) >= 0
    ensures And(Minus(a, b, Pow2(n)), size - 1) == if a >= b then a - b else a + size - b
  {
    var e: nat :| size == Pow2(e);
    if a >= b {
      MaskIsMod(a - b, e);
      ModSmall(a - b, size);
    } else {
      WordIsBlocks(e, n);
      BorrowMod(size, Pow2(n - e) - 1, a, b, Pow2(n));
      MaskIsMod(a + Pow2(n) - b, e);
    }
  }

  lemma WordIsBlocks(e: nat, n: nat)
    requires Pow2(e) <= Pow2(n)
    ensures e <= n && Pow2(n) == (Pow2(n - e) - 1) * Pow2(e) + Pow2(e)
  {
    if e > n {
      Pow2Mono(n + 1, e);
    } else {
      Pow2Adds(n - e, e);
    }
  }

  // ceilToPow2 on words, least significant bit first

  type Word = seq<bool>

  function ToWord(x: nat, n: nat): (w: Word)
    ensures |w| == n
  {
    if n == 0 then [] else [x % 2 == 1] + ToWord(x / 2, n - 1)
  }

  function Value(w: Word): (x: nat)
    ensures x < Pow2(|w|)
  {
    if w == [] then 0 else (if w[0] then 1 else 0) + 2 * Value(w[1..])
  }

  lemma {:induction false} ValueOfWord(x: nat, n: nat)
    requires x < Pow2(n)
    ensures Value(ToWord(x, n)) == x
  {
    if n > 0 {
      ValueOfWord(x / 2, n - 1);
    }
  }

  /** w | (w >> k) */
  function OrShifted(w: Word, k: nat): (r: Word)
    ensures |r| == |w|
  {
    seq(|w|, i requires 0 <= i < |w| => w[i] || (i + k < |w| && w[i + k]))
  }

  /** Bit h - 1 is the highest one that is set. */
  ghost predicate Highest(w: Word, h: nat) {
    && h <= |w|
    && (h > 0 ==> w[h - 1])
    && (forall i :: h <= i < |w| ==> !w[i])
  }

  /** The k bits from the highest one down are set, and none above it. */
  ghost predicate Smeared(w: Word, h: nat, k: nat) {
    && h <= |w|
    && (forall i :: 0 <= i < h && h <= i + k ==> w[i])
    && (forall i :: h <= i < |w| ==> !w[i])
  }

  lemma SmearFurther(w: Word, h: nat, k: nat, j: nat)
    requires Smeared(w, h, k) && j <= k
    ensures Smeared(OrShifted(w, j), h, k + j)
  {
    var r := OrShifted(w, j);
    forall i | 0 <= i < h && h <= i + k + j
      ensures r[i]
    {
      assert h <= i + k || i + j < h;
    }
  }

  lemma FindHighest(w: Word) returns (h: nat)
    ensures Highest(w, h)
  {
    h := |w|;
    while h > 0 && !w[h - 1]
      invariant h <= |w| && forall i :: h <= i < |w| ==> !w[i]
    {
      h := h - 1;
    }
  }

  lemma {:induction false} HighestBounds(w: Word, h: nat)
    requires Highest(w, h)
    ensures Value(w) < Pow2(h)
    ensures h > 0 ==> Value(w) >= Pow2(h - 1)
    decreases w
  {
    if w != [] {
      HighestBounds(w[1..], if h > 0 then h - 1 else 0);
    }
  }

  lemma {:induction false} OnesBelow(w: Word, h: nat)
    requires Smeared(w, h, |w|)
    ensures Value(w) == Pow2(h) - 1
    decreases w
  {
    if w != [] {
      OnesBelow(w[1..], if h > 0 then h - 1 else 0);
    }
  }

  lemma {:induction false} Pow2Between(x: nat, a: nat, b: nat)
    requires x <= Pow2(a) < 2 * x && x <= Pow2(b) < 2 * x
    ensures Pow2(a) == Pow2(b)
  {
    if a < b {
      Pow2Mono(a + 1, b);
    } else if b < a {
      Pow2Mono(b + 1, a);
    }
  }

  lemma CeilUnique(x: nat, h: nat)
    requires 0 < x <= Pow2(h) < 2 * x
    ensures Pow2(h) == CeilPow2(x)
  {
    assert x <= CeilPow2(x) < 2 * x;
    var e: nat :| CeilPow2(x) == Pow2(e);
    Pow2Between(x, h, e);
  }

  /** `ceilToPow2` on words of `bytes` bytes. It meets its name exactly for the arguments from 1 to half the
      word's range; for every other argument the result is 0. */
  method CeilToPow2(x: nat, bytes: nat) returns (r: nat)
    requires 1 <= bytes && x < Pow2(8 * bytes)
    ensures 1 <= x <= Pow2(8 * bytes - 1) ==> r == CeilPow2(x)
    ensures !(1 <= x <= Pow2(8 * bytes - 1)) ==> r == 0
  {
    var n := 8 * bytes;
    var below := if x == 0 then Pow2(n) - 1 else x - 1;
    var w := ToWord(below, n);
    ValueOfWord(below, n);
    ghost var h := FindHighest(w);
    HighestBounds(w, h);
    SmearFurther(w, h, 1, 1);
    w := OrShifted(w, 1);
    SmearFurther(w, h, 2, 2);
    w := OrShifted(w, 2);
    SmearFurther(w, h, 4, 4);
    w := OrShifted(w, 4);
    var i := 1;
    while i < bytes
      invariant 1 <= i && |w| == n && Smeared(w, h, 8 * i)
      decreases bytes - i
    {
      SmearFurther(w, h, 8 * i, 8 * i);
      w := OrShifted(w, 8 * i);
      i := 2 * i;
    }
    OnesBelow(w, h);
    r := (Value(w) + 1) % Pow2(n);
    Rounded(x, below, h, n);
  }

  lemma Rounded(x: nat, below: nat, h: nat, n: nat)
    requires x < Pow2(n) && below == (if x == 0 then Pow2(n) - 1 else x - 1) && h <= n && 1 <= n
    requires below < Pow2(h) && (h > 0 ==> below >= Pow2(h - 1))
    ensures 1 <= x <= Pow2(n - 1) ==> Pow2(h) % Pow2(n) == CeilPow2(x)
    ensures !(1 <= x <= Pow2(n - 1)) ==> Pow2(h) % Pow2(n) == 0
  {
    if 1 <= x <= Pow2(n - 1) {
      assert h < n;
      CeilUnique(x, h);
      Pow2Mono(h + 1, n);
      ModSmall(Pow2(h), Pow2(n));
    } else {
      if h < n {
        Pow2Mono(h, n - 1);
      }
      ModSelf(Pow2(n));
    }
  }
}
