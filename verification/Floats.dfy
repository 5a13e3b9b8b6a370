/** What the bit pattern of a binary32 float is worth, for nonnegative patterns, in exact reals. */
module Floats {
  import opened Numbers

  /** Whether a 32-bit pattern is a finite float: its exponent is not all ones. */
  predicate FiniteBits(b: U32) {
    b / 0x80_0000 % 256 != 255
  }

  /** Finite with sign bit clear. */
  predicate Nonnegative(b: U32) {
    b < 0x7F80_0000
  }

  /** `f32::MAX` and the largest float not above an 128th of it. */
  const MAX_BITS: U32 := 0x7F7F_FFFF
  const MAX_SCALE_BITS: U32 := 0x7BFF_FFFF

  function Pow2(n: nat): (p: nat)
    ensures p > 0
  {
    if n == 0 then 1 else 2 * Pow2(n - 1)
  }

  /** Value in units of 2^-149: the mantissa, shifted by the exponent unless subnormal. */
  function Units(b: U32): nat {
    var exponent, mantissa := b / 0x80_0000, b % 0x80_0000;
    if exponent == 0 then mantissa else Scaled(0x80_0000 + mantissa, exponent - 1)
  }

  function Scaled(m: nat, shift: nat): nat {
    m * Pow2(shift)
  }

  function Value(b: U32): real
    requires Nonnegative(b)
  {
    Units(b) as real / Pow2(149) as real
  }

  lemma ScaledStep(m: nat, shift: nat)
    ensures Scaled(m, shift) < Scaled(m + 1, shift) && Scaled(2 * m, shift) == Scaled(m, shift + 1)
  {
    assert m * (2 * Pow2(shift)) == (2 * m) * Pow2(shift);
  }

  /** The next pattern is a larger float, across exponents as well. */
  lemma NextLarger(b: U32)
    requires b + 1 < TWO_32
    ensures Units(b) < Units(b + 1)
  {
    var exponent, mantissa := b / 0x80_0000, b % 0x80_0000;
    if mantissa + 1 < 0x80_0000 {
      assert (b + 1) / 0x80_0000 == exponent && (b + 1) % 0x80_0000 == mantissa + 1;
      if exponent > 0 {
        ScaledStep(0x80_0000 + mantissa, exponent - 1);
      }
    } else {
      assert (b + 1) / 0x80_0000 == exponent + 1 && (b + 1) % 0x80_0000 == 0;
      if exponent > 0 {
        ScaledStep(0x80_0000 + mantissa, exponent - 1);
        ScaledStep(0x80_0000, exponent - 1);
      } else {
        assert Scaled(0x80_0000, 0) == 0x80_0000;
      }
    }
  }

  /** Nonnegative floats are ordered as their patterns. */
  lemma {:induction false} UnitsOrdered(b: U32, c: U32)
    requires b < c
    ensures Units(b) < Units(c)
    decreases c - b
  {
    hide Units;
    NextLarger(b);
    if b + 1 < c {
      UnitsOrdered(b + 1, c);
    }
  }

  lemma ValueOrdered(b: U32, c: U32)
    requires Nonnegative(b) && Nonnegative(c)
    ensures Value(b) < Value(c) <==> b < c
    ensures Value(b) == Value(c) <==> b == c
  {
    hide Units, Pow2;
    if b < c {
      UnitsOrdered(b, c);
    } else if c < b {
      UnitsOrdered(c, b);
    }
  }

  lemma {:induction false} PowSum(a: nat, b: nat)
    ensures Pow2(a + b) == Pow2(a) * Pow2(b)
  {
    if b == 0 {
    } else {
      PowSum(a, b - 1);
      assert 2 * (Pow2(a) * Pow2(b - 1)) == Pow2(a) * (2 * Pow2(b - 1));
    }
  }

  lemma {:induction false} PowGrows(a: nat, b: nat)
    requires a <= b
    ensures Pow2(a) <= Pow2(b)
  {
    if a < b {
      PowGrows(a, b - 1);
    }
  }

  lemma ScaledAtLeast(m: nat, shift: nat)
    requires m >= 1
    ensures Scaled(m, shift) >= Pow2(shift)
  {
  }

  lemma UnitsOf(b: U32, exponent: nat, mantissa: nat)
    requires b == exponent * 0x80_0000 + mantissa && exponent > 0 && mantissa < 0x80_0000
    ensures Units(b) == Scaled(0x80_0000 + mantissa, exponent - 1)
  {
    hide Scaled;
    assert b / 0x80_0000 == exponent && b % 0x80_0000 == mantissa;
  }

  lemma Seventh()
    ensures Pow2(7) == 128
  {
    assert Pow2(4) == 16;
  }

  /** The largest admitted scale is exactly an 128th of the largest float, in units. */
  lemma MaxUnits()
    ensures Units(MAX_BITS) == 128 * Units(MAX_SCALE_BITS) && Units(MAX_SCALE_BITS) >= Pow2(149)
  {
    hide Units, Pow2;
    PowSum(246, 7);
    assert Pow2(7) == 128 by { Seventh(); }
    UnitsOf(MAX_BITS, 254, 0x7F_FFFF);
    UnitsOf(MAX_SCALE_BITS, 247, 0x7F_FFFF);
    ScaledAtLeast(0xFF_FFFF, 246);
    PowGrows(149, 246);
  }

  lemma Quotients(x: real, y: real, d: real)
    requires d > 0.0
    ensures x == 128.0 * y ==> x / d == 128.0 * (y / d)
    ensures y >= d ==> y / d >= 1.0
  {
  }

  lemma MaxOver128()
    ensures Value(MAX_BITS) == 128.0 * Value(MAX_SCALE_BITS) && Value(MAX_SCALE_BITS) >= 1.0
  {
    hide Units, Pow2;
    MaxUnits();
    Quotients(Units(MAX_BITS) as real, Units(MAX_SCALE_BITS) as real, Pow2(149) as real);
  }
}
