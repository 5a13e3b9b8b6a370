/**
 Symmetric row quantization (crates/laya-candle/src/int8_quant.rs) in exact arithmetic: one
 scale per row, codes within -127..127, in the scalar and the four-lane build.
 */
module Int8Quant {
  import opened Arithmetic
  import opened Rounding
  import opened Wrappers

  /** `f32::MIN_POSITIVE`, 2^-126. */
  const MIN_POSITIVE: real := 1.0 / 85070591730234615865843651857942052864.0

  function Max(x: real, y: real): real {
    if x >= y then x else y
  }

  /** Largest magnitude among the first `n` entries. */
  function Peak(v: seq<real>, n: nat): (p: real)
    requires n <= |v|
    ensures p >= 0.0
  {
    if n == 0 then 0.0 else Max(Peak(v, n - 1), Abs(v[n - 1]))
  }

  /** The quotient by 127 would fall below the smallest scale. */
  predicate Tiny(peak: real) {
    peak / 127.0 < MIN_POSITIVE
  }

  function ScaleOf(peak: real): (s: real)
    requires peak >= 0.0
    ensures s > 0.0
  {
    if peak == 0.0 then 1.0 else Max(peak / 127.0, MIN_POSITIVE)
  }

  function Scale(v: seq<real>): (s: real)
    ensures s > 0.0
  {
    ScaleOf(Peak(v, |v|))
  }

  function Code(x: real, scale: real): int
    requires scale > 0.0
  {
    Clamp(Round(Over(x, scale)), 127)
  }

  function Codes(v: seq<real>): (c: seq<int>)
    ensures |c| == |v|
  {
    seq(|v|, i requires 0 <= i < |v| => Code(v[i], Scale(v)))
  }

  function Dequantize(codes: seq<int>, scale: real): (v: seq<real>)
    ensures |v| == |codes|
  {
    seq(|codes|, i requires 0 <= i < |codes| => Times(codes[i] as real, scale))
  }

  // ----- the peak -----------------------------------------------------------------------------

  lemma {:induction false} PeakBounds(v: seq<real>, n: nat, i: nat)
    requires i < n <= |v|
    ensures Abs(v[i]) <= Peak(v, n)
  {
    if i < n - 1 {
      PeakBounds(v, n - 1, i);
    }
  }

  lemma {:induction false} PeakReached(v: seq<real>, n: nat)
    requires n <= |v| && Peak(v, n) > 0.0
    ensures exists i :: 0 <= i < n && Abs(v[i]) == Peak(v, n)
  {
    if Peak(v, n) == Abs(v[n - 1]) {
    } else {
      PeakReached(v, n - 1);
    }
  }

  lemma PeakIs(v: seq<real>, p: real)
    requires forall i | 0 <= i < |v| :: Abs(v[i]) <= p
    requires p == 0.0 || exists i :: 0 <= i < |v| && Abs(v[i]) == p
    ensures Peak(v, |v|) == p
  {
    if p != 0.0 {
      var i :| 0 <= i < |v| && Abs(v[i]) == p;
      PeakBounds(v, |v|, i);
    }
    if Peak(v, |v|) > 0.0 {
      PeakReached(v, |v|);
    }
  }

  // ----- dividing by the scale ------------------------------------------------------------------

  lemma Ratio(x: real, s: real)
    requires s > 0.0
    ensures Times(Over(x, s), s) == x
  {
  }

  lemma Larger(x: real, y: real, s: real)
    requires x > y && s > 0.0
    ensures Times(x, s) > Times(y, s)
  {
    assert (x - y) * s > 0.0;
  }

  lemma Opposite(x: real, s: real)
    ensures Times(-x, s) == -Times(x, s)
  {
  }

  lemma Cancel(x: real, y: real, s: real)
    requires s > 0.0 && Times(x, s) == Times(y, s)
    ensures x == y
  {
    hide Times;
    if x > y {
      Larger(x, y, s);
    } else if x < y {
      Larger(y, x, s);
    }
  }

  lemma RatioBound(x: real, s: real, c: real)
    requires s > 0.0 && Abs(x) <= Times(c, s)
    ensures Abs(Over(x, s)) <= c
  {
    hide Over, Times;
    var r := Over(x, s);
    Ratio(x, s);
    Opposite(r, s);
    if r > c {
      Larger(r, c, s);
    } else if -r > c {
      Larger(-r, c, s);
    }
  }

  lemma PeakOverScale(p: real)
    requires p >= 0.0
    ensures p <= Times(127.0, ScaleOf(p))
    ensures p > 0.0 && !Tiny(p) ==> p == Times(127.0, ScaleOf(p))
  {
  }

  /** Every entry is at most 127 scales away from zero, so the clamp never changes a code. */
  lemma ClampIdle(v: seq<real>, i: nat)
    requires i < |v|
    ensures Abs(Over(v[i], Scale(v))) <= 127.0
    ensures Codes(v)[i] == Round(Over(v[i], Scale(v))) && -127 <= Codes(v)[i] <= 127
  {
    hide Over, Times, Peak, ScaleOf, Abs, Round;
    PeakBounds(v, |v|, i);
    PeakOverScale(Peak(v, |v|));
    RatioBound(v[i], Scale(v), 127.0);
    InRange(Over(v[i], Scale(v)));
  }

  lemma InRange(r: real)
    requires Abs(r) <= 127.0
    ensures -127 <= Round(r) <= 127
  {
  }

  /** The reconstruction error is at most half a scale. */
  lemma ErrorBound(v: seq<real>, i: nat)
    requires i < |v|
    ensures Abs(Dequantize(Codes(v), Scale(v))[i] - v[i]) <= Scale(v) / 2.0
  {
    hide Round, Scale, Codes, Clamp, Over, Times, Abs;
    ClampIdle(v, i);
    var s := Scale(v);
    RoundIsNearest(Over(v[i], s), Round(Over(v[i], s)));
    Ratio(v[i], s);
    HalfScale(Round(Over(v[i], s)) as real, Over(v[i], s), s);
  }

  lemma HalfScale(q: real, r: real, s: real)
    requires s > 0.0 && Abs(q - r) <= 0.5
    ensures Abs(Times(q, s) - Times(r, s)) <= s / 2.0
  {
    Spread(q - r, 0.5, s);
    assert Times(q, s) - Times(r, s) == Times(q - r, s);
  }

  // ----- idempotence ---------------------------------------------------------------------------

  /** The entry of largest magnitude gets code 127 or -127, unless the smallest scale was substituted. */
  lemma PeakCode(v: seq<real>, i: nat)
    requires i < |v| && Abs(v[i]) == Peak(v, |v|) && Peak(v, |v|) > 0.0 && !Tiny(Peak(v, |v|))
    ensures Codes(v)[i] == 127 || Codes(v)[i] == -127
  {
    hide Peak, ScaleOf, Codes, Over, Times, Round, Tiny;
    var s := Scale(v);
    ClampIdle(v, i);
    PeakOverScale(Peak(v, |v|));
    Ratio(v[i], s);
    Opposite(127.0, s);
    RoundInteger(127);
    RoundInteger(-127);
    if v[i] >= 0.0 {
      Cancel(Over(v[i], s), 127.0, s);
    } else {
      Cancel(Over(v[i], s), -127.0, s);
    }
  }

  /** Rounding cannot carry an entry past the peak, nor a scale below the smallest one past it. */
  lemma CodeBound(v: seq<real>, i: nat)
    requires i < |v|
    ensures Abs(Times(Codes(v)[i] as real, Scale(v))) <= Times(127.0, Scale(v))
  {
    hide Peak, Codes, Over, Scale;
    ClampIdle(v, i);
    Spread(Codes(v)[i] as real, 127.0, Scale(v));
  }

  lemma Spread(x: real, c: real, s: real)
    requires s > 0.0 && -c <= x <= c
    ensures Abs(Times(x, s)) <= Times(c, s)
  {
    assert (c - x) * s >= 0.0 && (c + x) * s >= 0.0;
  }

  /** Reconstructing and quantizing again: the scale survives, unless every code was zero. */
  lemma ScaleAgain(v: seq<real>)
    ensures var d := Dequantize(Codes(v), Scale(v));
      Scale(d) == Scale(v) || forall i | 0 <= i < |v| :: Codes(v)[i] == 0
  {
    hide Codes, Over, Times, Round, Peak, Tiny;
    var s, d, p := Scale(v), Dequantize(Codes(v), Scale(v)), Peak(v, |v|);
    forall i | 0 <= i < |d| ensures Abs(d[i]) <= Times(127.0, s) {
      CodeBound(v, i);
    }
    if p > 0.0 && !Tiny(p) {
      PeakReached(v, |v|);
      var i :| 0 <= i < |v| && Abs(v[i]) == p;
      PeakCode(v, i);
      Opposite(127.0, s);
      PeakOverScale(p);
      assert Abs(d[i]) == p;
      PeakIs(d, p);
    } else if exists i :: 0 <= i < |v| && Codes(v)[i] != 0 {
      var i :| 0 <= i < |v| && Codes(v)[i] != 0;
      SmallestScale(v, d, i);
    }
  }

  /** Up to 127 times the smallest scale, the smallest scale is used. */
  lemma SmallPeak(p: real)
    requires p > 0.0
    ensures MIN_POSITIVE > 0.0
    ensures Tiny(p) || p <= Times(127.0, MIN_POSITIVE) ==> ScaleOf(p) == MIN_POSITIVE
  {
  }

  lemma SmallestScale(v: seq<real>, d: seq<real>, i: nat)
    requires i < |v| && d == Dequantize(Codes(v), Scale(v)) && Codes(v)[i] != 0
    requires Peak(v, |v|) == 0.0 || Tiny(Peak(v, |v|))
    ensures Scale(d) == Scale(v)
  {
    hide Codes, Over, Times, Round, Peak, ScaleOf, MIN_POSITIVE, Tiny, Dequantize;
    PeakBounds(v, |v|, i);
    if Peak(v, |v|) == 0.0 {
      ZeroCode(v, i);
    } else {
      SmallPeak(Peak(v, |v|));
      SmallReconstruction(v, d, i);
      SmallPeak(Peak(d, |d|));
    }
  }

  lemma SmallReconstruction(v: seq<real>, d: seq<real>, i: nat)
    requires i < |v| && d == Dequantize(Codes(v), Scale(v)) && Codes(v)[i] != 0
    ensures 0.0 < Peak(d, |d|) <= Times(127.0, Scale(v))
  {
    hide Codes, Over, Times, Round, Peak, Scale;
    NonZero(Codes(v)[i] as real, Scale(v));
    PeakBounds(d, |d|, i);
    PeakReached(d, |d|);
    var k :| 0 <= k < |d| && Abs(d[k]) == Peak(d, |d|);
    CodeBound(v, k);
  }

  lemma NonZero(x: real, s: real)
    requires s > 0.0 && x != 0.0
    ensures Times(x, s) != 0.0
  {
    hide Times;
    if Times(x, s) == 0.0 {
      Zero(s);
      Cancel(x, 0.0, s);
    }
  }

  lemma Zero(s: real)
    ensures Times(0.0, s) == 0.0
  {
  }

  lemma ZeroCode(v: seq<real>, i: nat)
    requires i < |v| && v[i] == 0.0
    ensures Codes(v)[i] == 0
  {
    hide Peak, Scale, Over, Times, Round;
    var s := Scale(v);
    Ratio(0.0, s);
    Zero(s);
    Cancel(Over(0.0, s), 0.0, s);
    RoundInteger(0);
  }

  /** Quantizing a reconstruction gives the same codes, so reconstructing again gives the same values. */
  lemma Idempotent(v: seq<real>)
    ensures var d := Dequantize(Codes(v), Scale(v));
      Codes(d) == Codes(v) && Dequantize(Codes(d), Scale(d)) == d
  {
    hide Over, Times, Round, Peak, Scale, Clamp;
    var s, d := Scale(v), Dequantize(Codes(v), Scale(v));
    ScaleAgain(v);
    forall i | 0 <= i < |v| ensures Codes(d)[i] == Codes(v)[i] && Times(Codes(v)[i] as real, Scale(d)) == d[i] {
      ClampIdle(v, i);
      ClampIdle(d, i);
      if Scale(d) == s {
        Ratio(d[i], s);
        Cancel(Over(d[i], s), Codes(v)[i] as real, s);
        RoundInteger(Codes(v)[i]);
      } else {
        Zero(s);
        Zero(Scale(d));
        ZeroCode(d, i);
      }
    }
    assert Codes(d) == Codes(v);
  }

  // ----- the two builds of `row` ----------------------------------------------------------------

  /** An activation: a number, or an infinity or NaN. */
  datatype Float = Finite(x: real) | NonFinite

  predicate AllFinite(v: seq<Float>) {
    forall i | 0 <= i < |v| :: v[i].Finite?
  }

  function Values(v: seq<Float>): (r: seq<real>)
    requires AllFinite(v)
    ensures |r| == |v|
  {
    seq(|v|, i requires 0 <= i < |v| => v[i].x)
  }

  lemma PeakOfPrefix(v: seq<real>, w: seq<real>, n: nat)
    requires n <= |v| && n <= |w| && v[..n] == w[..n]
    ensures Peak(v, n) == Peak(w, n)
  {
    if n > 0 {
      assert v[..n - 1] == v[..n][..n - 1];
      assert w[..n - 1] == w[..n][..n - 1];
      assert v[n - 1] == v[..n][n - 1] && w[n - 1] == w[..n][n - 1];
      PeakOfPrefix(v, w, n - 1);
    }
  }

  /** Scalar build: a fold for the peak, then one rounded and clamped quotient per entry. */
  method RowPlain(input: seq<Float>, out: array<int>) returns (scale: Result<real, ()>)
    requires out.Length == |input|
    modifies out
    ensures scale.Ok? <==> AllFinite(input)
    ensures scale.Ok? ==> scale.value == Scale(Values(input)) && out[..] == Codes(Values(input))
    ensures scale.Err? ==> out[..] == old(out[..])
  {
    hide Code, Peak, ScaleOf;
    if i :| 0 <= i < |input| && input[i].NonFinite? {
      return Err(());
    }
    ghost var v := Values(input);
    var peak := 0.0;
    NoPeak(v);
    for i := 0 to |input|
      invariant peak == Peak(v, i)
    {
      NextPeak(v, i);
      peak := Max(peak, Abs(input[i].x));
    }
    var s := ScaleOf(peak);
    for i := 0 to |input|
      invariant forall k | 0 <= k < i :: out[k] == Code(v[k], s)
    {
      out[i] := Code(input[i].x, s);
    }
    scale := Ok(s);
  }

  lemma NoPeak(v: seq<real>)
    ensures Peak(v, 0) == 0.0
  {
  }

  lemma NextPeak(v: seq<real>, i: nat)
    requires i < |v|
    ensures Peak(v, i + 1) == Max(Peak(v, i), Abs(v[i]))
  {
  }

  /** Four lanes of running maxima. */
  datatype R4 = R4(l0: real, l1: real, l2: real, l3: real)

  function Max4(p: R4): real {
    Max(Max(Max(p.l0, p.l1), p.l2), p.l3)
  }

  /** f32x4_trunc, compare, add one, sign bit, clamp, and the exact narrowing to a byte. */
  function CodeSimd(x: real, scale: real): int
    requires scale > 0.0
  {
    var q := Over(x, scale);
    Clamp(if q < 0.0 then -TruncHalf(Abs(q)) else TruncHalf(Abs(q)), 127)
  }

  lemma CodesAgree(x: real, scale: real)
    requires scale > 0.0
    ensures CodeSimd(x, scale) == Code(x, scale)
  {
    TruncHalfRounds(Over(x, scale));
  }

  lemma NextPeaks(v: seq<real>, i: nat, p: R4)
    requires i + 4 <= |v| && Max4(p) == Peak(v, i)
    ensures Max4(R4(Max(p.l0, Abs(v[i])), Max(p.l1, Abs(v[i + 1])), Max(p.l2, Abs(v[i + 2])), Max(p.l3, Abs(v[i + 3])))) == Peak(v, i + 4)
  {
    NextPeak(v, i);
    NextPeak(v, i + 1);
    NextPeak(v, i + 2);
    NextPeak(v, i + 3);
    hide Peak;
  }

  /** SIMD build: four maxima and four codes at a time, the last entries one by one. */
  method RowSimd(input: seq<Float>, out: array<int>) returns (scale: Result<real, ()>)
    requires out.Length == |input|
    modifies out
    ensures scale.Ok? <==> AllFinite(input)
    ensures scale.Ok? ==> scale.value == Scale(Values(input)) && out[..] == Codes(Values(input))
    ensures scale.Err? ==> out[..] == old(out[..])
  {
    hide Code, CodeSimd, Peak, ScaleOf, Max4;
    var found := PeakSimd(input);
    if found.Err? {
      return Err(());
    }
    ghost var v := Values(input);
    var s := ScaleOf(found.value);
    var i, end := 0, |input| / 4 * 4;
    while i < end
      invariant i % 4 == 0 && i <= end
      invariant forall k | 0 <= k < i :: out[k] == Code(v[k], s)
    {
      forall k | i <= k < i + 4 ensures CodeSimd(v[k], s) == Code(v[k], s) {
        CodesAgree(v[k], s);
      }
      out[i], out[i + 1] := CodeSimd(input[i].x, s), CodeSimd(input[i + 1].x, s);
      out[i + 2], out[i + 3] := CodeSimd(input[i + 2].x, s), CodeSimd(input[i + 3].x, s);
      i := i + 4;
    }
    while i < |input|
      invariant end <= i <= |input|
      invariant forall k | 0 <= k < i :: out[k] == Code(v[k], s)
    {
      out[i] := Code(input[i].x, s);
      i := i + 1;
    }
    scale := Ok(s);
  }

  method PeakSimd(input: seq<Float>) returns (peak: Result<real, ()>)
    ensures peak.Ok? <==> AllFinite(input)
    ensures peak.Ok? ==> peak.value == Peak(Values(input), |input|)
  {
    hide Peak, Max4;
    var lanes, i, end := R4(0.0, 0.0, 0.0, 0.0), 0, |input| / 4 * 4;
    StartLanes();
    while i < end
      invariant i % 4 == 0 && i <= end && AllFinite(input[..i])
      invariant Max4(lanes) == Peak(Values(input[..i]), i)
    {
      if input[i].NonFinite? || input[i + 1].NonFinite? || input[i + 2].NonFinite? || input[i + 3].NonFinite? {
        return Err(());
      }
      ghost var v := Values(input[..i + 4]);
      PeakOfPrefix(v, Values(input[..i]), i);
      NextPeaks(v, i, lanes);
      lanes := R4(Max(lanes.l0, Abs(input[i].x)), Max(lanes.l1, Abs(input[i + 1].x)),
                  Max(lanes.l2, Abs(input[i + 2].x)), Max(lanes.l3, Abs(input[i + 3].x)));
      i := i + 4;
    }
    var p := Max4(lanes);
    while i < |input|
      invariant end <= i <= |input| && AllFinite(input[..i])
      invariant p == Peak(Values(input[..i]), i)
    {
      if input[i].NonFinite? {
        return Err(());
      }
      ghost var v := Values(input[..i + 1]);
      PeakOfPrefix(v, Values(input[..i]), i);
      NextPeak(v, i);
      p := Max(p, Abs(input[i].x));
      i := i + 1;
    }
    assert input[..i] == input;
    peak := Ok(p);
  }

  lemma StartLanes()
    ensures Max4(R4(0.0, 0.0, 0.0, 0.0)) == 0.0 == Peak([], 0)
  {
  }
}
