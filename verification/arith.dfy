/** Powers of two and the few division facts the codec proofs rest on. */
module Arith {

  /** 2^64, the modulus of Rust's `u64` arithmetic. */
  const U64: nat := 0x1_0000_0000_0000_0000
  /** 2^63, the sign bit of an `i64`. */
  const I64Sign: nat := 0x8000_0000_0000_0000
  /** 2^32, the modulus of a `u32`. */
  const U32: nat := 0x1_0000_0000

  function Pow2(n: nat): (r: nat)
    ensures r >= 1
  {
    if n == 0 then 1 else 2 * Pow2(n - 1)
  }

  function Pow256(n: nat): (r: nat)
    ensures r >= 1
  {
    if n == 0 then 1 else 256 * Pow256(n - 1)
  }

  lemma {:induction false} Pow2Add(a: nat, b: nat)
    ensures Pow2(a + b) == Pow2(a) * Pow2(b)
    decreases a
  {
    if a > 0 {
      Pow2Add(a - 1, b);
      assert Pow2(a + b) == 2 * Pow2(a - 1 + b);
      assert Pow2(a) == 2 * Pow2(a - 1);
      MulAssoc(2, Pow2(a - 1), Pow2(b));
    }
  }

  lemma {:induction false} Pow256IsPow2(n: nat)
    ensures Pow256(n) == Pow2(8 * n)
  {
    if n > 0 {
      Pow256IsPow2(n - 1);
      Pow2Add(8, 8 * (n - 1));
      assert 8 * n == 8 + 8 * (n - 1);
    }
  }

  lemma Pow2Monotone(a: nat, b: nat)
    requires a <= b
    ensures Pow2(a) <= Pow2(b)
  {
    Pow2Add(a, b - a);
    MulLe(1, Pow2(b - a), Pow2(a));
  }

  lemma Pow256Monotone(a: nat, b: nat)
    requires a <= b
    ensures Pow256(a) <= Pow256(b)
  {
    Pow256IsPow2(a);
    Pow256IsPow2(b);
    Pow2Monotone(8 * a, 8 * b);
  }


  /** The powers of two the codec needs as literals: vint classes, byte masks and machine widths. */
  lemma Pow2Table()
    ensures Pow2(0) == 1 && Pow2(1) == 2 && Pow2(2) == 4 && Pow2(3) == 8
    ensures Pow2(4) == 16 && Pow2(5) == 32 && Pow2(6) == 64 && Pow2(7) == 0x80 && Pow2(8) == 0x100
    ensures Pow2(14) == 0x4000 && Pow2(15) == 0x8000
    ensures Pow2(21) == 0x20_0000 && Pow2(22) == 0x40_0000
    ensures Pow2(28) == 0x1000_0000 && Pow2(29) == 0x2000_0000
    ensures Pow2(35) == 0x8_0000_0000 && Pow2(36) == 0x10_0000_0000
    ensures Pow2(42) == 0x400_0000_0000 && Pow2(43) == 0x800_0000_0000
    ensures Pow2(49) == 0x2_0000_0000_0000 && Pow2(50) == 0x4_0000_0000_0000
    ensures Pow2(56) == 0x100_0000_0000_0000 && Pow2(57) == 0x200_0000_0000_0000
    ensures Pow2(64) == U64
  {
    Pow2Byte();
    Pow2Step(7, 0x80, 7, 0x80);
    Pow2Step(7, 0x80, 14, 0x4000);
    Pow2Step(7, 0x80, 21, 0x20_0000);
    Pow2Step(7, 0x80, 28, 0x1000_0000);
    Pow2Step(7, 0x80, 35, 0x8_0000_0000);
    Pow2Step(7, 0x80, 42, 0x400_0000_0000);
    Pow2Step(7, 0x80, 49, 0x2_0000_0000_0000);
    Pow2Step(8, 0x100, 56, 0x100_0000_0000_0000);
  }

  lemma Pow2Byte()
    ensures Pow2(0) == 1 && Pow2(1) == 2 && Pow2(2) == 4 && Pow2(3) == 8
    ensures Pow2(4) == 16 && Pow2(5) == 32 && Pow2(6) == 64 && Pow2(7) == 0x80 && Pow2(8) == 0x100
  {
  }

  /** From 2^a and 2^b, the power at their sum and the one above it. */
  lemma Pow2Step(a: nat, pa: nat, b: nat, pb: nat)
    requires Pow2(a) == pa && Pow2(b) == pb
    ensures Pow2(a + b) == pa * pb && Pow2(a + b + 1) == 2 * pa * pb
  {
    Pow2Add(a, b);
  }

  lemma Pow256Table()
    ensures Pow256(0) == 1 && Pow256(1) == 0x100 && Pow256(2) == 0x1_0000 && Pow256(3) == 0x100_0000
    ensures Pow256(4) == U32 && Pow256(5) == 0x100_0000_0000 && Pow256(6) == 0x1_0000_0000_0000
    ensures Pow256(7) == 0x100_0000_0000_0000 && Pow256(8) == U64
  {
  }

  lemma {:induction false} Pow256Add(a: nat, b: nat)
    ensures Pow256(a + b) == Pow256(a) * Pow256(b)
    decreases a
  {
    if a > 0 {
      Pow256Add(a - 1, b);
      assert Pow256(a + b) == 256 * Pow256(a - 1 + b);
      assert Pow256(a) == 256 * Pow256(a - 1);
      MulAssoc(256, Pow256(a - 1), Pow256(b));
    }
  }

  lemma MulAssoc(x: int, y: int, z: int)
    ensures x * (y * z) == (x * y) * z
  {
  }

  lemma MulLe(a: int, b: int, m: nat)
    requires a <= b
    ensures a * m <= b * m
  {
    assert b * m - a * m == (b - a) * m;
  }

  lemma DivMod(a: int, m: int)
    requires m > 0
    ensures a == (a / m) * m + a % m && 0 <= a % m < m
  {
  }

  /** Euclidean division is unique: a quotient/remainder pair that fits is the one `/` and `%` give. */
  lemma DivModUnique(a: int, m: int, q: int, r: int)
    requires m > 0 && 0 <= r < m && a == q * m + r
    ensures a / m == q && a % m == r
  {
    var q0, r0 := a / m, a % m;
    assert (q - q0) * m == r0 - r;
    if q > q0 {
      MulLe(1, q - q0, m);
    } else if q < q0 {
      MulLe(1, q0 - q, m);
    }
  }

  lemma ModAddMultiple(x: int, k: int, m: int)
    requires m > 0
    ensures (x + k * m) % m == x % m
  {
    DivModUnique(x, m, x / m, x % m);
    assert x + k * m == (x / m + k) * m + x % m;
    DivModUnique(x + k * m, m, x / m + k, x % m);
  }

  /** Bounds on a quotient follow from bounds on the dividend. */
  lemma DivBounds(m: nat, d: nat, lo: nat, hi: nat)
    requires d > 0 && lo * d <= m < hi * d
    ensures lo <= m / d < hi
  {
    DivModUnique(m, d, m / d, m % d);
    if m / d < lo {
      MulLe(m / d + 1, lo, d);
    }
    if m / d >= hi {
      MulLe(hi, m / d, d);
    }
  }

  lemma SmallMod(x: int, m: int)
    requires 0 <= x < m
    ensures x % m == x
  {
    DivModUnique(x, m, 0, x);
  }
}
