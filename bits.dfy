// Integer and bit helpers: powers of two, 32-bit wrap-around, set-bit scans.
module Bits {
  const U32: nat := 0x1_0000_0000

  function Pow2(n: nat): (r: nat)
    ensures r >= 1
  {
    if n == 0 then 1 else 2 * Pow2(n - 1)
  }

  lemma {:induction false} Pow2Add(a: nat, b: nat)
    ensures Pow2(a + b) == Pow2(a) * Pow2(b)
    decreases a
  {
    if a > 0 { Pow2Add(a - 1, b); }
  }

  lemma {:induction false} Pow2Monotone(a: nat, b: nat)
    requires a <= b
    ensures Pow2(a) <= Pow2(b)
    decreases b
  {
    if a < b { Pow2Monotone(a, b - 1); }
  }

  /** The powers of two that are the widths of the source's integer types. */
  lemma Pow2Widths()
    ensures Pow2(8) == 0x100 && Pow2(16) == 0x1_0000 && Pow2(24) == 0x100_0000
    ensures Pow2(32) == U32 && Pow2(64) == 0x1_0000_0000_0000_0000
  {
    assert Pow2(4) == 16 by { assert Pow2(1) == 2; assert Pow2(2) == 4; assert Pow2(3) == 8; }
    Pow2Add(4, 4);
    Pow2Add(8, 8);
    Pow2Add(16, 8);
    Pow2Add(16, 16);
    Pow2Add(32, 32);
  }

  /** Index of the lowest set bit (ffs(x) - 1 in C). */
  function LowestSetBit(x: nat): (r: nat)
    requires x > 0
    decreases x
  {
    if x % 2 == 1 then 0 else 1 + LowestSetBit(x / 2)
  }

  /** Number of set bits (util_bitcount). */
  function PopCount(x: nat): nat
    decreases x
  {
    if x == 0 then 0 else x % 2 + PopCount(x / 2)
  }

  /** util_is_power_of_two_nonzero. */
  predicate IsPow2(x: nat)
    decreases x
  {
    x == 1 || (x > 1 && x % 2 == 0 && IsPow2(x / 2))
  }

  /** `(x << s)` on a 32-bit unsigned value: s doublings, each wrapping. */
  function Shl32(x: nat, s: nat): (r: nat)
    ensures r < U32
    decreases s
  {
    if s == 0 then x % U32 else (2 * Shl32(x, s - 1)) % U32
  }

  /** The low 32 bits of a * b (v_mul_lo_u32), as b wrapping additions of a. */
  function MulLo32(a: nat, b: nat): (r: nat)
    ensures r < U32
    decreases b
  {
    if b == 0 then 0 else (MulLo32(a, b - 1) + a) % U32
  }

  lemma ModOfSum(p: nat, q: nat)
    ensures (p % U32 + q) % U32 == (p + q) % U32
  {
    assert p + q == (p % U32 + q) + (p / U32) * U32;
  }

  lemma ModDouble(p: nat)
    ensures (2 * (p % U32)) % U32 == (2 * p) % U32
  {
    ModOfSum(p, p % U32);
    ModOfSum(p, p);
  }

  /** Shifting left by s is multiplying by 2^s, modulo 2^32. */
  lemma {:induction false} Shl32IsMul(x: nat, s: nat)
    ensures Shl32(x, s) == (x * Pow2(s)) % U32
    decreases s
  {
    if s > 0 {
      Shl32IsMul(x, s - 1);
      ModDouble(x * Pow2(s - 1));
      assert x * Pow2(s) == 2 * (x * Pow2(s - 1));
    }
  }

  /** MulLo32 is the product modulo 2^32. */
  lemma {:induction false} MulLo32IsMul(a: nat, b: nat)
    ensures MulLo32(a, b) == (a * b) % U32
    decreases b
  {
    if b > 0 {
      MulLo32IsMul(a, b - 1);
      ModOfSum(a * (b - 1), a);
      assert a * b == a * (b - 1) + a;
    }
  }

  lemma ModAddBoth(a: nat, b: nat)
    ensures ((a % U32) + (b % U32)) % U32 == (a + b) % U32
  {
    var qa, ra := a / U32, a % U32;
    var qb, rb := b / U32, b % U32;
    assert a + b == (qa + qb) * U32 + (ra + rb);
    if ra + rb >= U32 {
      assert a + b == (qa + qb + 1) * U32 + (ra + rb - U32);
    }
  }

  lemma MulLo32One(x: nat)
    requires x < U32
    ensures MulLo32(x, 1) == x
  {
  }

  lemma MulLo32Comm(a: nat, b: nat)
    ensures MulLo32(a, b) == MulLo32(b, a)
  {
    MulLo32IsMul(a, b);
    MulLo32IsMul(b, a);
  }

  /** x * a + x * b == x * (a + b), modulo 2^32. */
  lemma {:induction false} MulLo32Sum(x: nat, a: nat, b: nat, k: nat)
    requires k == a + b
    ensures (MulLo32(x, a) + MulLo32(x, b)) % U32 == MulLo32(x, k)
    decreases b
  {
    if b > 0 {
      MulLo32Sum(x, a, b - 1, k - 1);
      var p, q := MulLo32(x, a), MulLo32(x, b - 1);
      var r := MulLo32(x, k - 1);
      assert MulLo32(x, b) == (q + x) % U32;
      assert MulLo32(x, k) == (r + x) % U32;
      ModRegroup(p, q, x);
      calc {
        (p + MulLo32(x, b)) % U32;
        (p + (q + x) % U32) % U32;
        ((p + q) % U32 + x) % U32;
        (r + x) % U32;
      }
    } else {
      assert MulLo32(x, b) == 0 && k == a;
      DivMod(MulLo32(x, a), U32, 0, MulLo32(x, a));
    }
  }

  lemma ModRegroup(p: nat, q: nat, x: nat)
    ensures (p + (q + x) % U32) % U32 == ((p + q) % U32 + x) % U32
  {
    ModOfSum(p + q, x);
    ModOfSum(q + x, p);
    assert (q + x) % U32 + p == p + (q + x) % U32;
  }

  /** x << s is x * 2^s, modulo 2^32. */
  lemma Shl32IsMulLo(x: nat, s: nat)
    ensures Shl32(x, s) == MulLo32(x, Pow2(s))
  {
    Shl32IsMul(x, s);
    MulLo32IsMul(x, Pow2(s));
  }

  lemma {:induction false} PopCountPow2(x: nat)
    requires x > 0
    ensures IsPow2(x) <==> PopCount(x) == 1
    decreases x
  {
    if x > 1 {
      PopCountPow2(x / 2);
      if x % 2 == 1 {
        assert PopCount(x / 2) >= 1 by { PopCountPositive(x / 2); }
      }
    }
  }

  lemma {:induction false} PopCountPositive(x: nat)
    requires x > 0
    ensures PopCount(x) >= 1
    decreases x
  {
    if x % 2 == 0 { PopCountPositive(x / 2); }
  }

  /** A power of two is 2 to the index of its lowest set bit. */
  lemma {:induction false} Pow2OfLowest(x: nat)
    requires IsPow2(x)
    ensures x == Pow2(LowestSetBit(x))
    decreases x
  {
    if x > 1 { Pow2OfLowest(x / 2); }
  }

  /** The lowest set bit of a value below 2^n is below n. */
  lemma LowestSetBitBelow(x: nat, n: nat)
    requires 0 < x < Pow2(n)
    ensures LowestSetBit(x) < n
  {
    ClearLowest(x);
    if LowestSetBit(x) >= n {
      Pow2Monotone(n, LowestSetBit(x));
    }
  }

  /** The lowest set bit of a 32-bit value is one of its 32 bits. */
  lemma LowestSetBitBelow32(x: nat)
    requires 0 < x < U32
    ensures LowestSetBit(x) < 32
  {
    Pow2Widths();
    LowestSetBitBelow(x, 32);
  }

  /** Clearing the lowest set bit (u_bit_scan) removes exactly one set bit. */
  lemma {:induction false} ClearLowest(x: nat)
    requires x > 0
    ensures x >= Pow2(LowestSetBit(x))
    ensures PopCount(x - Pow2(LowestSetBit(x))) == PopCount(x) - 1
    decreases x
  {
    if x % 2 == 0 {
      ClearLowest(x / 2);
      var s := LowestSetBit(x / 2);
      assert (x - Pow2(s + 1)) / 2 == x / 2 - Pow2(s);
      assert (x - Pow2(s + 1)) % 2 == 0;
    }
  }

  /** Bitwise OR of two naturals, bit by bit from the bottom. */
  function BitOr(x: nat, y: nat): nat
    decreases x + y
  {
    if x == 0 then y
    else if y == 0 then x
    else 2 * BitOr(x / 2, y / 2) + (if x % 2 == 1 || y % 2 == 1 then 1 else 0)
  }

  lemma MulPow2Step(a: nat, k: nat)
    requires k > 0
    ensures a * Pow2(k) == 2 * (a * Pow2(k - 1))
  {
  }

  lemma HalfOf(t: nat, s: nat)
    requires s < 2
    ensures (2 * t + s) / 2 == t && (2 * t + s) % 2 == s
  {
  }

  /** Doubling both operands and setting a low bit on one commutes with OR. */
  lemma OrDouble(u: nat, v: nat, s: nat)
    requires s < 2
    ensures BitOr(2 * u, 2 * v + s) == 2 * BitOr(u, v) + s
  {
    if u != 0 && 2 * v + s != 0 {
      HalfOf(u, 0);
      HalfOf(v, s);
    }
  }

  /** `a << k` without a width: k doublings. */
  function Shifted(a: nat, k: nat): nat
  {
    if k == 0 then a else 2 * Shifted(a, k - 1)
  }

  lemma {:induction false} ShiftedIsMul(a: nat, k: nat)
    ensures Shifted(a, k) == a * Pow2(k)
    decreases k
  {
    if k > 0 {
      ShiftedIsMul(a, k - 1);
      MulPow2Step(a, k);
    }
  }

  /** OR works on the bits above k and the bits below k separately:
    * (a << k) | ((b << k) + r) == ((a | b) << k) + r for r < 2^k. */
  lemma {:induction false} OrSplit(a: nat, b: nat, r: nat, k: nat)
    requires r < Pow2(k)
    ensures BitOr(Shifted(a, k), Shifted(b, k) + r) == Shifted(BitOr(a, b), k) + r
    decreases k
  {
    if k > 0 {
      OrSplit(a, b, r / 2, k - 1);
      OrDouble(Shifted(a, k - 1), Shifted(b, k - 1) + r / 2, r % 2);
    }
  }

  /** OR of a multiple of 2^k and a value below 2^k is their sum. */
  lemma OrDisjoint(a: nat, y: nat, k: nat)
    requires y < Pow2(k)
    ensures BitOr(a * Pow2(k), y) == a * Pow2(k) + y
  {
    OrSplit(a, 0, y, k);
    ShiftedIsMul(a, k);
    ShiftedIsMul(0, k);
  }

  /** OR with k one-bits covers any value below 2^k. */
  lemma {:induction false} OrAllOnes(x: nat, k: nat)
    requires x < Pow2(k)
    ensures BitOr(x, Pow2(k) - 1) == Pow2(k) - 1
    decreases k
  {
    if k > 0 && x != 0 {
      assert (Pow2(k) - 1) / 2 == Pow2(k - 1) - 1;
      OrAllOnes(x / 2, k - 1);
    }
  }

  /** OR never sets a bit above the operands' width. */
  lemma {:induction false} OrBelow(x: nat, y: nat, k: nat)
    requires x < Pow2(k) && y < Pow2(k)
    ensures BitOr(x, y) < Pow2(k)
    decreases k
  {
    if k > 0 && x != 0 && y != 0 {
      OrBelow(x / 2, y / 2, k - 1);
    }
  }

  /** Quotient and remainder are unique. */
  lemma DivMod(x: int, d: nat, q: int, r: int)
    requires 0 <= r < d && x == q * d + r
    ensures x / d == q && x % d == r
  {
    var k := q - x / d;
    assert k * d == x % d - r;
  }

  /** `x | y` on 32-bit values. */
  function Or32(x: nat, y: nat): (r: nat)
    requires x < U32 && y < U32
    ensures r < U32
  {
    Pow2Widths();
    OrBelow(x, y, 32);
    BitOr(x, y)
  }

  /** ALIGN_POT / align: the least multiple of a that is at least x. */
  function AlignUp(x: nat, a: nat): (r: nat)
    requires a > 0
    ensures r % a == 0 && x <= r < x + a
  {
    var q, rem := (x + a - 1) / a, (x + a - 1) % a;
    assert x + a - 1 == q * a + rem;
    DivMod(q * a, a, q, 0);
    q * a
  }

  /** Integer division rounding down: the greatest q with q * d <= x. */
  function DivFloor(x: nat, d: nat): (r: nat)
    requires d > 0
    ensures r * d <= x < (r + 1) * d
  {
    var q, rem := x / d, x % d;
    assert x == q * d + rem;
    assert (q + 1) * d == q * d + d;
    q
  }

  /** DIV_ROUND_UP: the least q with q * d >= x. */
  function DivCeil(x: nat, d: nat): (r: nat)
    requires d > 0
    ensures r * d >= x && (r == 0 || (r - 1) * d < x)
  {
    var q, rem := (x + d - 1) / d, (x + d - 1) % d;
    assert x + d - 1 == q * d + rem;
    assert q > 0 ==> (q - 1) * d == q * d - d;
    q
  }

  /** util_logbase2: the floor of the base-2 logarithm; 0 for 0. */
  function Log2(x: nat): (r: nat)
    ensures x >= 1 ==> Pow2(r) <= x < Pow2(r + 1)
    decreases x
  {
    if x <= 1 then 0 else 1 + Log2(x / 2)
  }

  /** util_logbase2_ceil: the ceiling of the base-2 logarithm; 0 for 0 and 1. */
  function Log2Ceil(x: nat): (r: nat)
    ensures x >= 1 ==> x <= Pow2(r) && (r == 0 || Pow2(r - 1) < x)
  {
    if x <= 1 then 0 else Log2(x - 1) + 1
  }

  lemma {:induction false} Log2OfPow2(k: nat)
    ensures Log2(Pow2(k)) == k
  {
    var r := Log2(Pow2(k));
    if r < k {
      Pow2Monotone(r + 1, k);
    } else if r > k {
      Pow2Monotone(k + 1, r);
    }
  }

  /** A product of naturals, kept as one term so that the solver does not
    * re-derive that it is a natural. */
  function Mul(a: nat, b: nat): nat { a * b }

  lemma MulPositive(a: nat, b: nat)
    requires a > 0 && b > 0
    ensures Mul(a, b) > 0 && a * b > 0
  {
  }
}
