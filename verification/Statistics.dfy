/**
 Row statistics of quantized activations (crates/laya-candle/src/q8_ops.rs and the norm in
 quantized.rs): sum and sum of squares, in the scalar and the SIMD build, and why the variance
 computed from them is never negative.
 */
module Statistics {
  import opened Arithmetic
  import opened Int8

  function RowSum(x: seq<I8>, n: nat): int {
    if n == 0 then 0 else RowSum(x, n - 1) + Get(x, n - 1)
  }

  function Squares(x: seq<I8>, n: nat): int {
    Dot(x, x, n)
  }

  method StatisticsPlain(src: seq<I8>) returns (sum: int, squares: int)
    requires 0 < |src| <= MAX_COLS
    ensures sum == RowSum(src, |src|) && squares == Squares(src, |src|)
  {
    sum, squares := 0, 0;
    for i := 0 to |src|
      invariant sum == RowSum(src, i) && squares == Squares(src, i)
    {
      sum, squares := sum + src[i], squares + Product(src[i], src[i]);
    }
  }

  // ----- SIMD lanes -----------------------------------------------------------------------------

  /** i16x8_extadd_pairwise on eight sign-extended bytes. */
  function PairSums(x: seq<I8>): V4
    requires |x| == 8
  {
    V4((x[0] as int) + x[1], (x[2] as int) + x[3], (x[4] as int) + x[5], (x[6] as int) + x[7])
  }

  /** The sum accumulator after `n` chunks. */
  function SumLanes(x: seq<I8>, n: nat): V4 {
    if n == 0 then SPLAT_ZERO
    else Add4(SumLanes(x, n - 1), Add4(PairSums(Eight(x, 16 * (n - 1))), PairSums(Eight(x, 16 * (n - 1) + 8))))
  }

  lemma PairSumsExact(x: seq<I8>, o: nat)
    ensures Within(PairSums(Eight(x, o)), 256) && Total(PairSums(Eight(x, o))) == RowSum(x, o + 8) - RowSum(x, o)
  {
    hide Eight, Get;
    NextFour(x, o);
    NextFour(x, o + 4);
    hide RowSum;
  }

  lemma NextFour(x: seq<I8>, o: nat)
    ensures RowSum(x, o + 4) == RowSum(x, o) + Get(x, o) + Get(x, o + 1) + Get(x, o + 2) + Get(x, o + 3)
  {
    hide Get;
    assert RowSum(x, o + 2) == RowSum(x, o) + Get(x, o) + Get(x, o + 1);
  }

  /** Sum lanes stay within 2^19 and square lanes within 2^26, so no i32 addition wraps. */
  lemma {:induction false} SumLanesExact(x: seq<I8>, n: nat)
    requires 16 * n <= MAX_COLS
    ensures Within(SumLanes(x, n), 512 * n) && Within(SumLanes(x, n), 0x8_0000) && Within(Lanes(x, x, n), 0x400_0000)
    ensures Total(SumLanes(x, n)) == RowSum(x, 16 * n)
  {
    hide Add4, PairSums, Eight, RowSum, Lanes;
    LanesExact(x, x, n);
    if n > 0 {
      SumLanesExact(x, n - 1);
      PairSumsExact(x, 16 * (n - 1));
      PairSumsExact(x, 16 * (n - 1) + 8);
      var u, v := PairSums(Eight(x, 16 * (n - 1))), PairSums(Eight(x, 16 * (n - 1) + 8));
      Add4Exact(u, v, 256, 256);
      Add4Exact(SumLanes(x, n - 1), Add4(u, v), 512 * (n - 1), 512);
    } else {
      SumNone(x);
    }
  }

  lemma SumNone(x: seq<I8>)
    ensures RowSum(x, 0) == 0
  {
  }

  method StatisticsSimd(src: seq<I8>) returns (sum: int, squares: int)
    requires 0 < |src| <= MAX_COLS
    ensures sum == RowSum(src, |src|) && squares == Squares(src, |src|)
  {
    hide Add4, PairSums, DotI16, RowSum, Dot, SumLanes, Lanes, Eight, Get, Product;
    var i, sums, products := 0, SPLAT_ZERO, SPLAT_ZERO;
    ghost var n := 0;
    NoChunks(src);
    while i + 16 <= |src|
      invariant i == 16 * n <= |src| && sums == SumLanes(src, n) && products == Lanes(src, src, n)
    {
      var register := src[i..i + 16];
      var lo, hi := register[..8], register[8..];
      Loaded(src, i);
      NextChunk(src, n);
      sums := Add4(sums, Add4(PairSums(lo), PairSums(hi)));
      products := Add4(products, Add4(DotI16(lo, lo), DotI16(hi, hi)));
      i, n := i + 16, n + 1;
    }
    SumLanesExact(src, n);
    LanesExact(src, src, n);
    sum := sums.l0 + sums.l1 + sums.l2 + sums.l3;
    squares := products.l0 + products.l1 + products.l2 + products.l3;
    while i < |src|
      invariant i <= |src| && sum == RowSum(src, i) && squares == Dot(src, src, i)
    {
      NextEntry(src, i);
      sum, squares := sum + src[i], squares + Product(src[i], src[i]);
      i := i + 1;
    }
  }

  lemma NoChunks(x: seq<I8>)
    ensures SumLanes(x, 0) == SPLAT_ZERO == Lanes(x, x, 0)
  {
  }

  lemma Loaded(x: seq<I8>, i: nat)
    requires i + 16 <= |x|
    ensures x[i..i + 16][..8] == Eight(x, i) && x[i..i + 16][8..] == Eight(x, i + 8)
  {
  }

  lemma NextChunk(x: seq<I8>, n: nat)
    ensures SumLanes(x, n + 1)
         == Add4(SumLanes(x, n), Add4(PairSums(Eight(x, 16 * n)), PairSums(Eight(x, 16 * n + 8))))
    ensures Lanes(x, x, n + 1)
         == Add4(Lanes(x, x, n), Add4(DotI16(Eight(x, 16 * n), Eight(x, 16 * n)), DotI16(Eight(x, 16 * n + 8), Eight(x, 16 * n + 8))))
  {
    hide Add4, PairSums, Eight;
    NextLanes(x, x, n);
  }

  lemma NextEntry(x: seq<I8>, i: nat)
    requires i < |x|
    ensures RowSum(x, i + 1) == RowSum(x, i) + x[i] && Dot(x, x, i + 1) == Dot(x, x, i) + Product(x[i], x[i])
  {
    hide Product;
  }

  // ----- the variance is never negative -----------------------------------------------------------

  lemma Spread(x: seq<I8>, n: nat, v: int)
    ensures Squares(x, n) - 2 * Mul(v, RowSum(x, n)) + n * Mul(v, v) >= 0
  {
    if n > 0 {
      Spread(x, n - 1, v);
      SquareGap(Get(x, n - 1), v, RowSum(x, n - 1));
      hide Mul, Get, RowSum;
      assert RowSum(x, n) == RowSum(x, n - 1) + Get(x, n - 1) by { NextSum(x, n - 1); }
      assert n * Mul(v, v) == (n - 1) * Mul(v, v) + Mul(v, v);
    }
  }

  lemma NextSum(x: seq<I8>, n: nat)
    ensures RowSum(x, n + 1) == RowSum(x, n) + Get(x, n)
  {
  }

  lemma SquareGap(e: I8, v: int, s: int)
    ensures Product(e, e) - 2 * (Mul(v, s + e) - Mul(v, s)) + Mul(v, v) >= 0
  {
    var d := (e as int) - v;
    assert d * d >= 0;
    assert d * d == e * e - 2 * (v * e) + v * v;
    assert v * (s + e) == v * s + v * e;
  }

  /** n * sum of squares is at least the square of the sum, for every row. */
  lemma {:induction false} CauchySchwarz(x: seq<I8>, n: nat)
    ensures Mul(n, Squares(x, n)) >= Mul(RowSum(x, n), RowSum(x, n))
  {
    if n > 0 {
      CauchySchwarz(x, n - 1);
      Spread(x, n - 1, Get(x, n - 1));
      NextSum(x, n - 1);
      GapStep(n - 1, Squares(x, n - 1), RowSum(x, n - 1), Get(x, n - 1));
    }
  }

  lemma GapStep(n: nat, q: int, s: int, e: I8)
    requires Mul(n, q) >= Mul(s, s) && q - 2 * Mul(e, s) + n * Mul(e, e) >= 0
    ensures Mul(n + 1, q + Product(e, e)) >= Mul(s + e, s + e)
  {
    assert (n + 1) * (q + e * e) == n * q + q + n * (e * e) + e * e;
    assert (s + e) * (s + e) == s * s + 2 * (e * s) + e * e;
  }

  /** The variance the norm computes from the two statistics, before its `max(0.)`. */
  function Variance(sum: int, squares: int, cols: nat): real
    requires cols > 0
  {
    var mean := sum as real / cols as real;
    squares as real / cols as real - mean * mean
  }

  /** In exact arithmetic the `max(0.)` guard of the norm never acts. */
  lemma VarianceNonNegative(x: seq<I8>)
    requires |x| > 0
    ensures Variance(RowSum(x, |x|), Squares(x, |x|), |x|) >= 0.0
  {
    CauchySchwarz(x, |x|);
    hide RowSum, Squares;
    Divide(RowSum(x, |x|), Squares(x, |x|), |x|);
  }

  lemma Divide(s: int, q: int, n: nat)
    requires n > 0 && Mul(n, q) >= Mul(s, s)
    ensures Variance(s, q, n) >= 0.0
  {
    var c := n as real;
    assert (n * q) as real == c * q as real && (s * s) as real == s as real * s as real;
    assert Variance(s, q, n) * (c * c) == c * q as real - s as real * s as real;
  }
}
