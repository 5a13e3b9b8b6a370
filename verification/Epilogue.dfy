/**
 The Q31 fixed-point epilogue (crates/laya-candle/src/epilogue.rs): integer sums are scaled to
 bytes without floating point per cell. Machine words are written out: every i64 addition is
 shown as it wraps, and proved not to.
 */
module Epilogue {
  import opened Arithmetic
  import opened Grid
  import opened Rounding
  import opened Wrappers

  const Q: int := 0x8000_0000
  const HALF: int := 0x4000_0000
  const MAX_SUM: int := 0x1000_0000
  const I64_MAX: int := 0x7FFF_FFFF_FFFF_FFFF
  /** `i64::MAX - (1 << 59) - HALF` */
  const BIAS_LIMIT: int := I64_MAX - 0x800_0000_0000_0000 - HALF

  function Wrap64(n: int): int {
    (n + 0x8000_0000_0000_0000) % 0x1_0000_0000_0000_0000 - 0x8000_0000_0000_0000
  }

  lemma WrapExact(n: int)
    requires -I64_MAX - 1 <= n <= I64_MAX
    ensures Wrap64(n) == n
  {
  }

  function Magnitude(n: int): int {
    if n < 0 then -n else n
  }

  // ----- one cell -----------------------------------------------------------------------------

  /** `sums[c] as i64 * m as i64 + bias[c]` */
  function Scaled(sum: int, m: int, bias: int): int {
    Wrap64(Wrap64(sum * m) + bias)
  }

  lemma Grow(p: int, q: int, r: int)
    requires 0 <= p <= q && r >= 0
    ensures 0 <= p * r <= q * r
  {
    assert (q - p) * r >= 0;
  }

  lemma ProductBound(sum: int, m: int)
    requires Magnitude(sum) <= MAX_SUM && 0 <= m < Q
    ensures Magnitude(sum * m) <= MAX_SUM * (Q - 1)
  {
    Grow(Magnitude(sum), MAX_SUM, m);
    assert Magnitude(sum) * m == Magnitude(sum * m);
  }

  /** Neither the product, nor the sum with the bias, nor the later addition of the half leaves an i64. */
  ghost predicate Fits(sum: int, m: int, bias: int) {
    Scaled(sum, m, bias) == sum * m + bias && Magnitude(sum * m + bias) + HALF <= I64_MAX
  }

  /** Inputs `validate` and `prepare` let through, with a bias limit of `limit`. */
  ghost predicate Admitted(sum: int, m: int, bias: int, limit: int) {
    Magnitude(sum) <= MAX_SUM && 0 <= m < Q && Magnitude(bias) <= limit
  }

  lemma NoOverflow(sum: int, m: int, bias: int)
    requires Admitted(sum, m, bias, BIAS_LIMIT + 0x1000_0000)
    ensures Fits(sum, m, bias)
  {
    ProductBound(sum, m);
    WrapExact(sum * m);
    WrapExact(sum * m + bias);
  }

  /** How tight the limit is: all admitted inputs fit exactly up to 2^28 above it. */
  lemma LimitIsTight(limit: nat)
    ensures (forall sum, m, bias | Admitted(sum, m, bias, limit) :: Fits(sum, m, bias)) <==> limit <= BIAS_LIMIT + 0x1000_0000
  {
    if limit <= BIAS_LIMIT + 0x1000_0000 {
      forall sum, m, bias | Admitted(sum, m, bias, limit) ensures Fits(sum, m, bias) {
        NoOverflow(sum, m, bias);
      }
    } else {
      assert Admitted(MAX_SUM, Q - 1, BIAS_LIMIT + 0x1000_0001, limit);
      assert !Fits(MAX_SUM, Q - 1, BIAS_LIMIT + 0x1000_0001);
    }
  }

  datatype Cell = Cell(q: int, clipped: bool)

  /** `shifted` */
  function Shifted(n: int): Cell {
    var mag := (Magnitude(n) + HALF) / Q;
    var q := if mag > 127 then 127 else mag;
    Cell(if n < 0 then -q else q, mag > 127)
  }

  /** Round half away from zero, clipped to a symmetric byte, with the flag telling whether clipping happened. */
  function Clipped(x: real): Cell {
    Cell(Clamp(Round(x), 127), Round(x) != Clamp(Round(x), 127))
  }

  lemma DivFloor(n: int)
    requires n >= 0
    ensures (n as real / Q as real + 0.5).Floor == (n + HALF) / Q
  {
    var k, x := (n + HALF) / Q, n as real / Q as real;
    assert x * Q as real == n as real;
    assert k * Q <= n + HALF < (k + 1) * Q;
    assert (k as real) <= x + 0.5 < (k + 1) as real;
  }

  /** The shift is exactly rounding half away from zero of n / 2^31, and the flag is exact. */
  lemma ShiftedRounds(n: int)
    ensures Shifted(n) == Clipped(n as real / Q as real)
  {
    DivFloor(Magnitude(n));
    assert (-n) as real / Q as real == -(n as real / Q as real);
  }

  // ----- the SIMD lane --------------------------------------------------------------------------

  /** `rounded`: absolute value, add, arithmetic shift, two selects and a negation on one i64 lane. */
  function Rounded(n: int): Cell {
    var mag := Wrap64(Wrap64(Magnitude(n)) + HALF) / Q;
    var q := if mag > 127 then 127 else mag;
    Cell(if n < 0 then Wrap64(-q) else q, mag > 127)
  }

  /** Wherever nothing wraps, the lane form is the scalar form. */
  lemma LaneAgrees(n: int)
    requires Magnitude(n) + HALF <= I64_MAX
    ensures Rounded(n) == Shifted(n) && -127 <= Rounded(n).q <= 127
  {
    WrapExact(Magnitude(n));
    WrapExact(Magnitude(n) + HALF);
  }

  /** Keeping the low word of an i64 lane and narrowing it twice with saturation. */
  function Narrow(q: int): int {
    var word := (q + 0x8000_0000) % 0x1_0000_0000 - 0x8000_0000;
    Clamp2(Clamp2(word, -0x8000, 0x7FFF), -128, 127)
  }

  function Clamp2(n: int, low: int, high: int): int {
    if n < low then low else if n > high then high else n
  }

  lemma NarrowExact(q: int)
    requires -128 <= q <= 127
    ensures Narrow(q) == q
  {
  }

  // ----- one row --------------------------------------------------------------------------------

  /** The Q31 multiplier of a nonnegative fraction of 2^31: `round() as i32`, which saturates. */
  function Multiplier(f: real): (m: int)
    requires f >= 0.0
    ensures 0 <= m < Q
  {
    if Round(f) >= Q then Q - 1 else Round(f)
  }

  /** The SIMD form: trunc, compare with a half, add one, saturating conversion. */
  function MultiplierSimd(f: real): int
    requires f >= 0.0
  {
    if TruncHalf(f) >= Q then Q - 1 else TruncHalf(f)
  }

  lemma MultipliersAgree(f: real)
    requires f >= 0.0
    ensures MultiplierSimd(f) == Multiplier(f)
  {
    TruncHalfRounds(f);
  }

  /** The operands of one row: its sums, its multipliers before rounding, and the biases. */
  datatype Lanes = Lanes(sums: seq<int>, fractions: seq<real>, bias: seq<int>) {
    ghost predicate Valid() {
      && |sums| == |fractions| == |bias|
      && forall c | 0 <= c < |sums| :: fractions[c] >= 0.0 && Magnitude(sums[c]) <= MAX_SUM && Magnitude(bias[c]) <= BIAS_LIMIT
    }

    /** The exact answer for one cell: no machine word in sight. */
    function Answer(c: nat): Cell
      requires c < |sums| == |fractions| == |bias| && fractions[c] >= 0.0
    {
      Clipped((sums[c] * Multiplier(fractions[c]) + bias[c]) as real / Q as real)
    }
  }

  function ClipCount(r: Lanes, n: nat): nat
    requires r.Valid() && n <= |r.sums|
  {
    if n == 0 then 0 else ClipCount(r, n - 1) + if r.Answer(n - 1).clipped then 1 else 0
  }

  /** One cell of the scalar build. */
  function CellPlain(sum: int, f: real, bias: int): Cell
    requires f >= 0.0
  {
    Shifted(Scaled(sum, Multiplier(f), bias))
  }

  /** One lane of the SIMD build. */
  function CellSimd(sum: int, f: real, bias: int): Cell
    requires f >= 0.0
  {
    var lane := Rounded(Scaled(sum, MultiplierSimd(f), bias));
    Cell(Narrow(lane.q), lane.clipped)
  }

  /** Both builds give the exact answer. */
  lemma CellsExact(r: Lanes, c: nat)
    requires r.Valid() && c < |r.sums|
    ensures CellPlain(r.sums[c], r.fractions[c], r.bias[c]) == r.Answer(c)
    ensures CellSimd(r.sums[c], r.fractions[c], r.bias[c]) == r.Answer(c)
  {
    hide Shifted, Clipped, Scaled, Rounded, Narrow, Multiplier, MultiplierSimd;
    var m, n := Multiplier(r.fractions[c]), r.sums[c] * Multiplier(r.fractions[c]) + r.bias[c];
    MultipliersAgree(r.fractions[c]);
    NoOverflow(r.sums[c], m, r.bias[c]);
    ShiftedRounds(n);
    LaneAgrees(n);
    NarrowExact(Rounded(n).q);
  }

  /** `integer_row`, scalar build. */
  method IntegerRowPlain(r: Lanes, out: array<int>, base: nat) returns (clips: nat)
    requires r.Valid() && base + |r.sums| <= out.Length
    modifies out
    ensures clips == ClipCount(r, |r.sums|)
    ensures forall c | 0 <= c < |r.sums| :: out[base + c] == r.Answer(c).q
    ensures forall k | 0 <= k < out.Length && !(base <= k < base + |r.sums|) :: out[k] == old(out[k])
  {
    clips := FinishRow(r, out, base, 0, 0);
  }

  method FinishRow(r: Lanes, out: array<int>, base: nat, start: nat, found: nat) returns (clips: nat)
    requires r.Valid() && start <= |r.sums| && base + |r.sums| <= out.Length && found == ClipCount(r, start)
    modifies out
    ensures clips == ClipCount(r, |r.sums|)
    ensures forall c | start <= c < |r.sums| :: out[base + c] == r.Answer(c).q
    ensures forall k | 0 <= k < out.Length && !(base + start <= k < base + |r.sums|) :: out[k] == old(out[k])
  {
    hide Lanes.Answer, CellPlain;
    clips := found;
    for c := start to |r.sums|
      invariant clips == ClipCount(r, c)
      invariant forall p | start <= p < c :: out[base + p] == r.Answer(p).q
      invariant forall k | 0 <= k < out.Length && !(base + start <= k < base + c) :: out[k] == old(out[k])
    {
      CellsExact(r, c);
      var cell := CellPlain(r.sums[c], r.fractions[c], r.bias[c]);
      out[base + c] := cell.q;
      clips := clips + if cell.clipped then 1 else 0;
    }
  }

  /** `integer_row`, SIMD build: four cells at a time, then the rest one by one. */
  method IntegerRowSimd(r: Lanes, out: array<int>, base: nat) returns (clips: nat)
    requires r.Valid() && base + |r.sums| <= out.Length
    modifies out
    ensures clips == ClipCount(r, |r.sums|)
    ensures forall c | 0 <= c < |r.sums| :: out[base + c] == r.Answer(c).q
    ensures forall k | 0 <= k < out.Length && !(base <= k < base + |r.sums|) :: out[k] == old(out[k])
  {
    hide Lanes.Answer, CellSimd, CellPlain;
    var c := 0;
    clips := 0;
    while c + 4 <= |r.sums|
      invariant c <= |r.sums| && clips == ClipCount(r, c)
      invariant forall p | 0 <= p < c :: out[base + p] == r.Answer(p).q
      invariant forall k | 0 <= k < out.Length && !(base <= k < base + c) :: out[k] == old(out[k])
    {
      forall k | c <= k < c + 4 ensures CellSimd(r.sums[k], r.fractions[k], r.bias[k]) == r.Answer(k) {
        CellsExact(r, k);
      }
      var w0, w1 := CellSimd(r.sums[c], r.fractions[c], r.bias[c]), CellSimd(r.sums[c + 1], r.fractions[c + 1], r.bias[c + 1]);
      var w2, w3 := CellSimd(r.sums[c + 2], r.fractions[c + 2], r.bias[c + 2]), CellSimd(r.sums[c + 3], r.fractions[c + 3], r.bias[c + 3]);
      out[base + c], out[base + c + 1], out[base + c + 2], out[base + c + 3] := w0.q, w1.q, w2.q, w3.q;
      clips := clips + (if w0.clipped then 1 else 0) + (if w1.clipped then 1 else 0)
        + (if w2.clipped then 1 else 0) + if w3.clipped then 1 else 0;
      FourMore(r, c);
      c := c + 4;
    }
    clips := FinishRow(r, out, base, c, clips);
  }

  lemma FourMore(r: Lanes, c: nat)
    requires r.Valid() && c + 4 <= |r.sums|
    ensures ClipCount(r, c + 4)
         == ClipCount(r, c) + (if r.Answer(c).clipped then 1 else 0) + (if r.Answer(c + 1).clipped then 1 else 0)
            + (if r.Answer(c + 2).clipped then 1 else 0) + if r.Answer(c + 3).clipped then 1 else 0
  {
    assert ClipCount(r, c + 2)
        == ClipCount(r, c) + (if r.Answer(c).clipped then 1 else 0) + if r.Answer(c + 1).clipped then 1 else 0;
  }

  // ----- preparation and the whole table ---------------------------------------------------------

  datatype Input = Input(tokens: nat, outputs: nat, groups: nat, sums: seq<int>, sx: seq<real>, sw: seq<real>, sy: seq<real>,
                         bias: Option<seq<real>>) {
    /** `validate`: shapes, the sum bound, and positive scales. */
    ghost predicate Valid() {
      && tokens > 0 && outputs > 0 && groups > 0 && outputs % groups == 0
      && |sums| == Area(tokens, outputs) && |sx| == tokens && |sw| == outputs && |sy| == groups
      && (bias.Some? ==> |bias.value| == outputs)
      && (forall k | 0 <= k < |sums| :: Magnitude(sums[k]) <= MAX_SUM)
      && (forall t | 0 <= t < tokens :: sx[t] > 0.0) && (forall c | 0 <= c < outputs :: sw[c] > 0.0)
      && (forall g | 0 <= g < groups :: sy[g] > 0.0)
    }

    /** The output scale of column `c`: one per group of `outputs / groups` columns. */
    function ScaleOf(c: nat): (s: real)
      requires c < outputs && 0 < groups && outputs % groups == 0 && |sy| == groups
    {
      GroupFits(c, outputs, groups);
      sy[c / (outputs / groups)]
    }

    function Bias(c: nat): real
      requires bias.Some? ==> c < |bias.value|
    {
      if bias.Some? then bias.value[c] else 0.0
    }
  }

  lemma GroupFits(c: nat, outputs: nat, groups: nat)
    requires c < outputs && 0 < groups && outputs % groups == 0
    ensures outputs / groups > 0 && c / (outputs / groups) < groups
  {
    var width := outputs / groups;
    assert outputs == groups * width;
    if width > 0 {
      assert c == width * (c / width) + c % width;
      if c / width >= groups {
        Monotone(groups, c / width, width);
      }
    }
  }

  datatype Prepared = Prepared(coeff: seq<real>, bias: seq<int>)

  /** `(sx * coeff) * Q` */
  function Fraction(sx: real, coeff: real): real {
    Times(Times(sx, coeff), Q as real)
  }

  function FixedBias(b: real, scale: real): int
    requires scale != 0.0
  {
    Round(Times(Over(b, scale), Q as real))
  }

  /** A column the fixed-point form can carry: every token's fraction below one, the bias inside the limit. */
  ghost predicate Carries(i: Input, c: nat)
    requires i.Valid() && c < i.outputs
  {
    PositiveScale(i, c);
    && (forall t | 0 <= t < i.tokens :: Fraction(i.sx[t], Over(i.sw[c], i.ScaleOf(c))) < Q as real)
    && Magnitude(FixedBias(i.Bias(c), i.ScaleOf(c))) < BIAS_LIMIT
  }

  lemma PositiveScale(i: Input, c: nat)
    requires i.Valid() && c < i.outputs
    ensures i.ScaleOf(c) > 0.0
  {
    GroupFits(c, i.outputs, i.groups);
  }

  ghost predicate PreparedFor(i: Input, p: Prepared, n: nat)
    requires i.Valid() && n <= i.outputs
  {
    && |p.coeff| == |p.bias| == n
    && forall c | 0 <= c < n ::
         PositiveScale(i, c);
         Carries(i, c) && p.coeff[c] == Over(i.sw[c], i.ScaleOf(c)) && p.bias[c] == FixedBias(i.Bias(c), i.ScaleOf(c))
  }

  lemma FractionGrows(x: real, y: real, r: real)
    requires x <= y && r > 0.0
    ensures Fraction(x, r) <= Fraction(y, r) && (x > 0.0 ==> Fraction(x, r) > 0.0)
  {
    assert (y - x) * r >= 0.0;
    assert x > 0.0 ==> x * r > 0.0;
  }

  lemma PositiveRatio(x: real, y: real)
    requires x > 0.0 && y > 0.0
    ensures Over(x, y) > 0.0
  {
  }

  /** `prepare` accepts exactly the inputs whose every column can be carried; it looks at the largest token scale only. */
  method Prepare(i: Input) returns (r: Result<Prepared, ()>)
    requires i.Valid()
    ensures r.Ok? <==> forall c | 0 <= c < i.outputs :: Carries(i, c)
    ensures r.Ok? ==> PreparedFor(i, r.value, i.outputs)
  {
    hide Fraction, Over, FixedBias, Magnitude;
    var peak, top := i.sx[0], 0;
    for t := 1 to i.tokens
      invariant 0 <= top < i.tokens && peak == i.sx[top] && forall k | 0 <= k < t :: i.sx[k] <= peak
    {
      if i.sx[t] > peak {
        peak, top := i.sx[t], t;
      }
    }
    var p := Prepared([], []);
    for c := 0 to i.outputs
      invariant PreparedFor(i, p, c)
    {
      PositiveScale(i, c);
      var scale := i.ScaleOf(c);
      var ratio := Over(i.sw[c], scale);
      PositiveRatio(i.sw[c], scale);
      forall t | 0 <= t < i.tokens ensures Fraction(i.sx[t], ratio) <= Fraction(peak, ratio) {
        FractionGrows(i.sx[t], peak, ratio);
      }
      if Fraction(peak, ratio) >= Q as real {
        assert !Carries(i, c);
        return Err(());
      }
      var fixed := FixedBias(i.Bias(c), scale);
      if Magnitude(fixed) >= BIAS_LIMIT {
        assert !Carries(i, c);
        return Err(());
      }
      p := Prepared(p.coeff + [ratio], p.bias + [fixed]);
    }
    r := Ok(p);
  }

  /** The operands of token `t`'s row. */
  function RowLanes(i: Input, p: Prepared, t: nat): Lanes
    requires t < |i.sx| && Area(t, i.outputs) + i.outputs <= |i.sums|
  {
    Lanes(i.sums[Area(t, i.outputs)..Area(t, i.outputs) + i.outputs],
          seq(|p.coeff|, c requires 0 <= c < |p.coeff| => Fraction(i.sx[t], p.coeff[c])), p.bias)
  }

  lemma RowReady(i: Input, p: Prepared, t: nat)
    requires i.Valid() && PreparedFor(i, p, i.outputs) && t < i.tokens
    ensures Area(t, i.outputs) + i.outputs <= |i.sums|
    ensures RowLanes(i, p, t).Valid() && |RowLanes(i, p, t).sums| == i.outputs
  {
    hide Fraction, Over, FixedBias, Magnitude, Area;
    AtFits(t, i.tokens, 0, i.outputs, i.outputs);
    assert At(t, 0, i.outputs) == Area(t, i.outputs) by { RowStart(t, i.outputs); }
    hide At;
    forall c | 0 <= c < i.outputs ensures Fraction(i.sx[t], p.coeff[c]) >= 0.0 {
      PositiveScale(i, c);
      PositiveRatio(i.sw[c], i.ScaleOf(c));
      FractionGrows(i.sx[t], i.sx[t], p.coeff[c]);
    }
  }

  lemma RowStart(t: nat, width: nat)
    ensures At(t, 0, width) == Area(t, width)
  {
  }

  function TotalClips(i: Input, p: Prepared, n: nat): nat
    requires i.Valid() && PreparedFor(i, p, i.outputs) && n <= i.tokens
  {
    if n == 0 then 0
    else
      RowReady(i, p, n - 1);
      TotalClips(i, p, n - 1) + ClipCount(RowLanes(i, p, n - 1), i.outputs)
  }

  /** What the table should hold at token `t`, column `c`. */
  function CellAt(i: Input, p: Prepared, t: nat, c: nat): Cell
    requires i.Valid() && PreparedFor(i, p, i.outputs) && t < i.tokens && c < i.outputs
  {
    RowReady(i, p, t);
    RowLanes(i, p, t).Answer(c)
  }

  /** `fixed_integer`: in either build the table holds the exact rounding of every cell, and clips are counted. */
  method FixedInteger(i: Input, p: Prepared, simd: bool) returns (table: seq<int>, clips: nat)
    requires i.Valid() && PreparedFor(i, p, i.outputs)
    ensures |table| == Area(i.tokens, i.outputs) && clips == TotalClips(i, p, i.tokens)
    ensures forall t: nat, c: nat | t < i.tokens && c < i.outputs :: Peek(table, t, c, i.outputs) == Some(CellAt(i, p, t, c).q)
  {
    hide Area, At, Peek, Lanes.Answer, Fraction, PreparedFor, Lanes.Valid, RowLanes, ClipCount;
    var out := new int[Area(i.tokens, i.outputs)](_ => 0);
    clips := 0;
    for t := 0 to i.tokens
      invariant clips == TotalClips(i, p, t)
      invariant forall t': nat, c: nat | t' < t && c < i.outputs :: Peek(out[..], t', c, i.outputs) == Some(CellAt(i, p, t', c).q)
    {
      RowReady(i, p, t);
      RowStart(t, i.outputs);
      var row := RowLanes(i, p, t);
      ghost var before := out[..];
      var more;
      if simd {
        more := IntegerRowSimd(row, out, Area(t, i.outputs));
      } else {
        more := IntegerRowPlain(row, out, Area(t, i.outputs));
      }
      clips := clips + more;
      RowStored(before, out[..], t, 0, i.outputs, i.outputs);
    }
    table := out[..];
  }

  // ----- how far the fixed point is from the real answer -------------------------------------------

  /** The cell in exact arithmetic: the physical value over the output scale. */
  function Physical(sum: int, sx: real, sw: real, bias: real, sy: real): real
    requires sy != 0.0
  {
    Over(Times(sum as real, Times(sx, sw)) + bias, sy)
  }

  lemma MultiplierClose(f: real)
    requires 0.0 <= f < Q as real
    ensures Abs(Multiplier(f) as real - f) <= 1.0
  {
  }

  lemma Rearranged(sum: real, sx: real, sw: real, bias: real, sy: real)
    requires sy != 0.0
    ensures Over(Times(sum, Times(sx, sw)) + bias, sy) == Times(sum, Times(sx, Over(sw, sy))) + Over(bias, sy)
  {
    assert sx * (sw / sy) == (sx * sw) / sy;
  }

  lemma SumError(sum: int, m: int, f: real, fixed: int, exact: real)
    requires Magnitude(sum) <= MAX_SUM && Abs(m as real - f) <= 1.0 && Abs(fixed as real - exact) <= 0.5
    ensures Abs((sum * m + fixed) as real - (Times(sum as real, f) + exact)) <= MAX_SUM as real + 0.5
  {
    Difference(sum, m, f);
    Shrink(sum as real, m as real - f, MAX_SUM as real);
    hide Times;
  }

  lemma Difference(sum: int, m: int, f: real)
    ensures (sum * m) as real - Times(sum as real, f) == Times(sum as real, m as real - f)
  {
    assert (sum * m) as real == sum as real * m as real;
  }

  lemma NonNegative(x: real, y: real)
    requires x >= 0.0 && y >= 0.0
    ensures Times(x, y) >= 0.0
  {
  }

  lemma Expand(x: real, d: real)
    ensures Times(x, 1.0 - d) == x - Times(x, d) && Times(x, 1.0 + d) == x + Times(x, d) && Times(-x, d) == -Times(x, d)
  {
  }

  lemma Shrink(x: real, d: real, c: real)
    requires -c <= x <= c && -1.0 <= d <= 1.0
    ensures -c <= Times(x, d) <= c
  {
    hide Times;
    var p := if x >= 0.0 then x else -x;
    NonNegative(p, 1.0 - d);
    NonNegative(p, 1.0 + d);
    Expand(p, d);
    Expand(x, d);
  }

  lemma Rescale(sum: real, g: real, b: real)
    ensures Times(sum, Times(g, Q as real)) + Times(b, Q as real) == Times(Times(sum, g) + b, Q as real)
  {
  }

  /** Rounding a value within 1/8 of `y`, with the clip. */
  lemma ClippedClose(x: real, y: real)
    requires Abs(x - y) <= 0.126
    ensures !Clipped(x).clipped ==> Abs(Clipped(x).q as real - y) <= 0.626
    ensures Clipped(x).clipped ==> Abs(y) > 127.37 && (Clipped(x).q == if y > 0.0 then 127 else -127)
  {
  }

  /** Integer arithmetic loses at most an eighth: unclipped bytes are within 0.626 of the real value, clipped ones lie past 127.37. */
  lemma Accurate(sum: int, sx: real, sw: real, bias: real, sy: real)
    requires Magnitude(sum) <= MAX_SUM && sx > 0.0 && sw > 0.0 && sy > 0.0 && Fraction(sx, Over(sw, sy)) < Q as real
    requires Fraction(sx, Over(sw, sy)) >= 0.0
    ensures var cell := Clipped((sum * Multiplier(Fraction(sx, Over(sw, sy))) + FixedBias(bias, sy)) as real / Q as real);
      var y := Physical(sum, sx, sw, bias, sy);
      && (!cell.clipped ==> Abs(cell.q as real - y) <= 0.626)
      && (cell.clipped ==> Abs(y) > 127.37 && (cell.q == if y > 0.0 then 127 else -127))
  {
    hide Multiplier, Clipped, Over, Times, Round, Magnitude;
    var f, b := Fraction(sx, Over(sw, sy)), Times(Over(bias, sy), Q as real);
    var n, y := sum * Multiplier(f) + FixedBias(bias, sy), Physical(sum, sx, sw, bias, sy);
    MultiplierClose(f);
    RoundIsNearest(b, Round(b));
    SumError(sum, Multiplier(f), f, FixedBias(bias, sy), b);
    Rearranged(sum as real, sx, sw, bias, sy);
    Rescale(sum as real, Times(sx, Over(sw, sy)), Over(bias, sy));
    Unscale(n, y);
    ClippedClose(n as real / Q as real, y);
  }

  lemma Unscale(n: int, y: real)
    requires Abs(n as real - Times(y, Q as real)) <= MAX_SUM as real + 0.5
    ensures Abs(n as real / Q as real - y) <= 0.126
  {
  }

  /** The table of `fixed_integer`, cell by cell, against the real value of the same cell. */
  lemma TableAccurate(i: Input, p: Prepared, t: nat, c: nat)
    requires i.Valid() && PreparedFor(i, p, i.outputs) && t < i.tokens && c < i.outputs
    ensures At(t, c, i.outputs) < |i.sums| && i.ScaleOf(c) > 0.0
    ensures var cell := CellAt(i, p, t, c);
      var y := Physical(i.sums[At(t, c, i.outputs)], i.sx[t], i.sw[c], i.Bias(c), i.ScaleOf(c));
      && (!cell.clipped ==> Abs(cell.q as real - y) <= 0.626)
      && (cell.clipped ==> Abs(y) > 127.37 && (cell.q == if y > 0.0 then 127 else -127))
  {
    hide Multiplier, Clipped, Over, Times, Fraction, FixedBias, Magnitude, Area, At, Physical, Abs;
    RowReady(i, p, t);
    PositiveScale(i, c);
    AtFits(t, i.tokens, c, 1, i.outputs);
    RowStart(t, i.outputs);
    AtShift(t, 0, c, i.outputs);
    PositiveRatio(i.sw[c], i.ScaleOf(c));
    FractionGrows(i.sx[t], i.sx[t], p.coeff[c]);
    Accurate(i.sums[At(t, c, i.outputs)], i.sx[t], i.sw[c], i.Bias(c), i.ScaleOf(c));
  }
}
