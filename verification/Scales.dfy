/**
 Which scales the row quantizer (crates/laya-candle/src/int8_quant.rs) can write, as binary32
 patterns, for any rounding of its one division.
 */
module Scales {
  import opened Numbers
  import opened Floats
  import opened Rounding
  import opened Int8Quant

  /** A rounding of nonnegative reals in range to patterns: monotone, and exact on the floats. */
  ghost predicate IsRounding(round: real -> U32) {
    && (forall x, y | 0.0 <= x <= y <= Value(MAX_BITS) :: round(x) <= round(y))
    && (forall b | Nonnegative(b) :: round(Value(b)) == b)
  }

  /** The magnitude of a finite float. */
  ghost predicate IsFloat(x: real) {
    exists b :: Nonnegative(b) && Value(b) == Abs(x)
  }

  /** `bits` is the scale written for a row of finite floats. */
  ghost predicate Written(round: real -> U32, bits: U32, row: seq<real>) {
    (forall i | 0 <= i < |row| :: IsFloat(row[i])) && bits == round(Scale(row))
  }

  /** No entry is above 127 times an 128th of `f32::MAX`. */
  predicate Moderate(row: seq<real>) {
    Peak(row, |row|) <= 127.0 * Value(MAX_SCALE_BITS)
  }

  /** The largest float that is at most 127 times the largest admitted scale. */
  const MAX_PEAK_BITS: U32 := 0x7F7D_FFFF

  /** The next float above it is exactly 127 times the next float above the largest admitted scale. */
  lemma PeakUnits()
    ensures Units(MAX_PEAK_BITS) <= 127 * Units(MAX_SCALE_BITS)
    ensures Units(MAX_PEAK_BITS + 1) == 127 * Units(MAX_SCALE_BITS + 1)
  {
    hide Pow2, Units;
    UnitsOf(MAX_PEAK_BITS, 254, 0x7D_FFFF);
    UnitsOf(MAX_PEAK_BITS + 1, 254, 0x7E_0000);
    UnitsOf(MAX_SCALE_BITS, 247, 0x7F_FFFF);
    UnitsOf(MAX_SCALE_BITS + 1, 248, 0);
    PowSum(246, 7);
    PowSum(246, 1);
    PowersUsed();
  }

  lemma PowersUsed()
    ensures Pow2(7) == 128 && Pow2(1) == 2 && Pow2(23) == 0x80_0000
  {
    assert Pow2(5) == 32;
    assert Pow2(10) == 1024;
    assert Pow2(20) == 0x10_0000;
  }

  lemma LargePower()
    ensures Pow2(126) == 85070591730234615865843651857942052864
  {
    hide Pow2;
    PowersUsed();
    PowSum(7, 7);
    PowSum(14, 7);
    PowSum(21, 21);
    PowSum(42, 42);
    PowSum(84, 42);
  }

  lemma Quotient(x: nat, y: nat, d: nat)
    requires d > 0
    ensures x <= y ==> x as real / d as real <= y as real / d as real
    ensures x == y ==> x as real / d as real == y as real / d as real
    ensures (127 * x) as real / d as real == 127.0 * (x as real / d as real)
  {
  }

  lemma PeakValues()
    ensures Value(MAX_PEAK_BITS) <= 127.0 * Value(MAX_SCALE_BITS)
    ensures Value(MAX_PEAK_BITS + 1) == 127.0 * Value(MAX_SCALE_BITS + 1)
  {
    hide Pow2, Units;
    PeakUnits();
    var d := Pow2(149);
    Quotient(Units(MAX_SCALE_BITS), Units(MAX_SCALE_BITS), d);
    Quotient(Units(MAX_SCALE_BITS + 1), Units(MAX_SCALE_BITS + 1), d);
    Quotient(Units(MAX_PEAK_BITS), 127 * Units(MAX_SCALE_BITS), d);
    Quotient(Units(MAX_PEAK_BITS + 1), 127 * Units(MAX_SCALE_BITS + 1), d);
  }

  /** `f32::MIN_POSITIVE` */
  const MIN_BITS: U32 := 0x80_0000

  lemma MinValue()
    ensures Value(MIN_BITS) == MIN_POSITIVE && Value(0) == 0.0
  {
    hide Pow2;
    UnitsOf(MIN_BITS, 1, 0);
    assert Units(0) == 0;
    PowSum(23, 126);
    PowersUsed();
    LargePower();
    assert Scaled(0x80_0000, 0) == 0x80_0000 by { ScaledAtZero(0x80_0000); }
    hide Units, Scaled;
    Lowest(Pow2(149) as real);
  }

  lemma ScaledAtZero(m: nat)
    ensures Scaled(m, 0) == m
  {
  }

  lemma Lowest(d: real)
    requires d == 8388608.0 * 85070591730234615865843651857942052864.0
    ensures 8388608.0 / d == MIN_POSITIVE && 0.0 / d == 0.0
  {
  }

  /** 1.0 */
  const ONE_BITS: U32 := 0x3F80_0000

  lemma OneUnits()
    ensures Units(ONE_BITS) == Pow2(149)
  {
    hide Pow2, Units;
    UnitsOf(ONE_BITS, 127, 0);
    PowSum(23, 126);
    PowersUsed();
  }

  lemma OneValue()
    ensures Value(ONE_BITS) == 1.0
  {
    hide Pow2, Units;
    OneUnits();
  }

  // ----- what is written --------------------------------------------------------------------------

  /** Exact reals: a scale of at least one bounds what is written exactly if 127 of it bound the peak. */
  lemma ScaleBound(row: seq<real>, c: real)
    requires c >= 1.0
    ensures Scale(row) <= c <==> Peak(row, |row|) <= 127.0 * c
  {
    hide Peak;
  }

  /** The rounded scale is always a positive finite float, and is within an 128th of the largest for peaks up to the bound. */
  lemma RoundedScale(round: real -> U32, peak: U32)
    requires IsRounding(round) && Nonnegative(peak)
    ensures Value(peak) >= 0.0
    ensures var bits := round(ScaleOf(Value(peak)));
      && MIN_BITS <= bits <= MAX_BITS
      && (bits <= MAX_SCALE_BITS <==> Value(peak) <= 127.0 * Value(MAX_SCALE_BITS))
  {
    hide Value, ScaleOf, MIN_POSITIVE;
    MinValue();
    PeakValues();
    MaxOver128();
    ValueOrdered(0, peak);
    ValueOrdered(peak, MAX_BITS);
    ValueOrdered(MAX_SCALE_BITS, MAX_BITS);
    ValueOrdered(MAX_PEAK_BITS, peak);
    ValueOrdered(MAX_PEAK_BITS + 1, peak);
    ValueOrdered(MAX_SCALE_BITS, MAX_SCALE_BITS + 1);
    var p := Value(peak);
    ScaleOfBetween(p, Value(MAX_SCALE_BITS));
    ScaleOfBetween(p, Value(MAX_BITS));
    ScaleOfBetween(p, Value(MAX_SCALE_BITS + 1));
    if p <= 127.0 * Value(MAX_SCALE_BITS) {
      assert round(ScaleOf(p)) <= round(Value(MAX_SCALE_BITS));
    } else {
      // The next float above the largest admitted peak is 127 times the next one above the largest admitted scale.
      assert round(Value(MAX_SCALE_BITS + 1)) <= round(ScaleOf(p));
    }
  }

  /** The source rounds the quotient and then takes the larger of two floats: the same pattern. */
  lemma RoundedOnce(round: real -> U32, p: real)
    requires IsRounding(round) && 0.0 <= p <= Value(MAX_BITS)
    ensures p == 0.0 ==> round(ScaleOf(p)) == ONE_BITS
    ensures p > 0.0 ==> round(ScaleOf(p)) == if round(p / 127.0) >= MIN_BITS then round(p / 127.0) else MIN_BITS
  {
    hide Value;
    OneValue();
    MinValue();
    MaxOver128();
    assert round(Value(MIN_BITS)) == MIN_BITS && round(Value(ONE_BITS)) == ONE_BITS;
    if p > 0.0 {
      assert 0.0 <= p / 127.0 <= Value(MAX_BITS);
      assert p / 127.0 <= MIN_POSITIVE ==> round(p / 127.0) <= MIN_BITS;
      assert MIN_POSITIVE <= p / 127.0 ==> MIN_BITS <= round(p / 127.0);
    }
  }

  lemma ScaleOfBetween(p: real, c: real)
    requires p >= 0.0 && c >= 1.0
    ensures 0.0 < MIN_POSITIVE <= ScaleOf(p)
    ensures p <= 127.0 * c ==> ScaleOf(p) <= c
    ensures p >= 127.0 * c ==> ScaleOf(p) >= c
  {
  }

  /** What is written for a row of finite floats: in range exactly if no entry is too large. */
  lemma WrittenScale(round: real -> U32, bits: U32, row: seq<real>)
    requires IsRounding(round) && Written(round, bits, row)
    ensures MIN_BITS <= bits <= MAX_BITS && (bits <= MAX_SCALE_BITS <==> Moderate(row))
  {
    hide Value, IsRounding, ScaleOf, Nonnegative;
    PeakIsFloat(row);
    var p :| Nonnegative(p) && Value(p) == Peak(row, |row|);
    hide Peak;
    RoundedScale(round, p);
  }

  lemma PeakIsFloat(row: seq<real>)
    requires forall i | 0 <= i < |row| :: IsFloat(row[i])
    ensures exists b :: Nonnegative(b) && Value(b) == Peak(row, |row|)
  {
    hide Value, Abs;
    if Peak(row, |row|) > 0.0 {
      PeakReached(row, |row|);
      var i :| 0 <= i < |row| && Abs(row[i]) == Peak(row, |row|);
      assert IsFloat(row[i]);
    } else {
      MinValue();
      assert Nonnegative(0);
    }
  }

  /** A row with the largest float in it is not moderate. */
  lemma LargestEntry(row: seq<real>, i: nat)
    requires i < |row| && row[i] == Value(MAX_BITS)
    ensures !Moderate(row)
  {
    hide Value, Peak;
    PeakBounds(row, |row|, i);
    MaxOver128();
  }

  // ----- rounding towards zero is one such rounding -------------------------------------------------

  /** The largest pattern up to `b` that is worth at most `x`, or 0. */
  function Down(x: real, b: U32): U32
    requires Nonnegative(b)
  {
    if b == 0 || Value(b) <= x then b else Down(x, b - 1)
  }

  lemma {:induction false} DownIs(x: real, b: U32)
    requires Nonnegative(b)
    ensures Down(x, b) <= b && (Down(x, b) == 0 || Value(Down(x, b)) <= x)
    ensures forall c | Down(x, b) < c <= b :: Value(c) > x
  {
    hide Value;
    if b == 0 || Value(b) <= x {
    } else {
      DownIs(x, b - 1);
    }
  }

  lemma DownRounds()
    ensures IsRounding(x => Down(x, MAX_BITS))
  {
    hide Value;
    forall x: real, y: real | 0.0 <= x <= y <= Value(MAX_BITS) ensures Down(x, MAX_BITS) <= Down(y, MAX_BITS) {
      DownIs(x, MAX_BITS);
      DownIs(y, MAX_BITS);
    }
    forall b | Nonnegative(b) ensures Down(Value(b), MAX_BITS) == b {
      DownIs(Value(b), MAX_BITS);
      ValueOrdered(Down(Value(b), MAX_BITS), b);
      ValueOrdered(0, b);
    }
  }
}
