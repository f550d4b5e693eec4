/**
 Unsigned 64-bit words as natural numbers below 2^64. The operators the region
 code uses are written out: `|` digit by digit, `<<` with its truncation, and
 "the top n bits" as clearing everything below them.
 */
module Bits {

  const WORD := 64
  const TWO64: nat := 0x1_0000_0000_0000_0000

  function Pow2(n: nat): (r: nat)
    ensures r >= 1
  {
    if n == 0 then 1 else 2 * Pow2(n - 1)
  }

  /** C's bitwise `|`. */
  function Or(x: nat, y: nat): nat
    decreases x + y
  {
    if x == 0 then y
    else if y == 0 then x
    else 2 * Or(x / 2, y / 2) + (if x % 2 == 1 || y % 2 == 1 then 1 else 0)
  }

  /** Whether `x & (1 << k)` is nonzero. */
  predicate Bit(x: nat, k: nat) {
    if k == 0 then x % 2 == 1 else Bit(x / 2, k - 1)
  }

  /** C's `x << k` on uint64_t: bits shifted past the top are lost. */
  function Shl(x: nat, k: nat): (r: nat)
    ensures r < TWO64
  {
    (x * Pow2(k)) % TWO64
  }

  /** `x & mask`, where mask keeps the n most significant of 64 bits. */
  function TopBits(x: nat, n: nat): nat
    requires n <= WORD
  {
    Below(x, Pow2(WORD - n));
    Floor(x, Pow2(WORD - n))
  }

  /** The largest multiple of m that is at most x. */
  function Floor(x: nat, m: nat): (r: int)
    requires m > 0
  {
    x / m * m
  }

  lemma Below(x: nat, m: nat)
    requires m > 0
    ensures 0 <= Floor(x, m) <= x < Floor(x, m) + m
    ensures x % m == x - Floor(x, m)
  {
    MulMono(0, x / m, m);
  }

  /** Floor(x, m) is the one multiple of m with x in the m-wide interval above it. */
  lemma FloorIs(x: nat, m: nat, q: nat)
    requires m > 0 && q * m <= x < q * m + m
    ensures Floor(x, m) == q * m
  {
    DivUnique(x, m, q, x - q * m);
  }

  lemma Pow2Word()
    ensures Pow2(64) == TWO64
  {
    assert Pow2(4) == 16;
    Pow2Add(4, 4);
    Pow2Add(8, 8);
    Pow2Add(16, 16);
    Pow2Add(32, 32);
  }

  lemma {:induction false} Pow2Add(a: nat, b: nat)
    ensures Pow2(a + b) == Pow2(a) * Pow2(b)
  {
    if a != 0 {
      Pow2Add(a - 1, b);
      assert Pow2(a + b) == 2 * Pow2(a - 1 + b);
      MulAssoc(2, Pow2(a - 1), Pow2(b));
    }
  }

  lemma Pow2Mono(a: nat, b: nat)
    requires a <= b
    ensures Pow2(a) <= Pow2(b)
  {
    Pow2Add(a, b - a);
    MulMono(1, Pow2(b - a), Pow2(a));
  }

  lemma MulAssoc(a: int, b: int, c: int)
    ensures a * (b * c) == (a * b) * c
  {}

  lemma MulMono(a: int, b: int, c: nat)
    requires a <= b
    ensures a * c <= b * c
  {}

  lemma MulDist(a: int, b: int, c: int)
    ensures a * c + b * c == (a + b) * c
    ensures a * c - b * c == (a - b) * c
  {}

  /** Quotient and remainder are the only way to write x = q * m + r, 0 <= r < m. */
  lemma DivUnique(x: nat, m: nat, q: nat, r: nat)
    requires m > 0 && r < m && x == q * m + r
    ensures x / m == q && x % m == r
  {
    var d := x / m - q;
    MulDist(x / m, q, m);
    assert d * m == r - x % m;
    if d > 0 { MulMono(1, d, m); }
    if d < 0 { MulMono(d, -1, m); }
  }

  lemma ModMultiple(q: nat, m: nat)
    requires m > 0
    ensures (q * m) % m == 0 && (q * m) / m == q
  {
    DivUnique(q * m, m, q, 0);
  }

  /** A multiple of 2^(a+b) is a multiple of 2^b. */
  lemma ModCoarse(x: nat, a: nat, b: nat)
    requires x % Pow2(a + b) == 0
    ensures x % Pow2(b) == 0
  {
    var m, q := Pow2(a + b), x / Pow2(a + b);
    Below(x, m);
    Pow2Add(a, b);
    MulAssoc(q, Pow2(a), Pow2(b));
    MulMono(0, q, Pow2(a));
    assert x == (q * Pow2(a)) * Pow2(b);
    ModMultiple(q * Pow2(a), Pow2(b));
  }

  lemma Halve(x: nat, m: nat)
    requires m > 0 && x % Pow2(m) == 0
    ensures x % 2 == 0 && (x / 2) % Pow2(m - 1) == 0
  {
    var q, h := x / Pow2(m), Pow2(m - 1);
    Below(x, Pow2(m));
    MulAssoc(q, 2, h);
    MulAssoc(2, q, h);
    assert x == 2 * (q * h);
    ModMultiple(q, h);
  }

  /** When the low m bits of x are clear and y fits in them, `x | y` is `x + y`. */
  lemma {:induction false} OrIsAdd(x: nat, y: nat, m: nat)
    requires x % Pow2(m) == 0 && y < Pow2(m)
    ensures Or(x, y) == x + y
    decreases m
  {
    if x == 0 || y == 0 {
    } else {
      Halve(x, m);
      OrIsAdd(x / 2, y / 2, m - 1);
    }
  }

  /** Setting bits with `|` sets exactly those bits. */
  lemma {:induction false} OrBit(x: nat, y: nat, k: nat)
    ensures Bit(Or(x, y), k) <==> Bit(x, k) || Bit(y, k)
  {
    if x == 0 { ZeroBit(k); }
    else if y == 0 { ZeroBit(k); }
    else if k > 0 { OrBit(x / 2, y / 2, k - 1); }
  }

  lemma {:induction false} ZeroBit(k: nat)
    ensures !Bit(0, k)
  {
    if k > 0 { ZeroBit(k - 1); }
  }

  lemma {:induction false} OneBit(b: nat, k: nat)
    ensures Bit(Pow2(b), k) <==> b == k
  {
    if b == 0 && k > 0 { ZeroBit(k - 1); }
    if b > 0 && k > 0 { OneBit(b - 1, k - 1); }
  }

  /** `|` only adds bits. */
  lemma {:induction false} OrAbove(x: nat, y: nat)
    ensures Or(x, y) >= x
    decreases x + y
  {
    if x != 0 && y != 0 { OrAbove(x / 2, y / 2); }
  }

  /** `|` stays inside the word. */
  lemma {:induction false} OrFits(x: nat, y: nat, n: nat)
    requires x < Pow2(n) && y < Pow2(n)
    ensures Or(x, y) < Pow2(n)
    decreases n
  {
    if x != 0 && y != 0 { OrFits(x / 2, y / 2, n - 1); }
  }

  lemma TopBitsSplit(x: nat, n: nat, a: nat)
    requires n <= WORD
    requires a % Pow2(WORD - n) == 0
    ensures TopBits(x, n) == a <==> a <= x < a + Pow2(WORD - n)
  {
    var m := Pow2(WORD - n);
    Below(x, m);
    Below(a, m);
    if a <= x < a + m {
      FloorIs(x, m, a / m);
    }
  }

  /** Keeping p bits of the q kept bits is keeping p bits. */
  lemma TopBitsNested(x: nat, p: nat, q: nat)
    requires p <= q <= WORD
    ensures TopBits(TopBits(x, q), p) == TopBits(x, p)
  {
    var lo, hi, k := Pow2(WORD - q), Pow2(WORD - p), Pow2(q - p);
    Pow2Add(q - p, WORD - q);
    Below(x, lo);
    Below(x, hi);
    var c := x / hi;
    MulAssoc(c, k, lo);
    assert c * hi == (c * k) * lo;
    // both are multiples of lo, so the coarser floor is below the finer one
    FloorOrder(x, lo, c * k);
    FloorIs(TopBits(x, q), hi, c);
  }

  lemma FloorOrder(x: nat, m: nat, c: nat)
    requires m > 0 && c * m <= x
    ensures c * m <= Floor(x, m)
  {
    Below(x, m);
    if x / m < c { MulMono(x / m + 1, c, m); MulDist(x / m, 1, m); }
  }
}
