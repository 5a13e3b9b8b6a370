/**
 The int8 matrix product (crates/laya-candle/src/int8.rs): padded, tiled and unrolled SIMD
 kernels against the plain triple loop, with every 32-bit addition written as it wraps.
 Floating point stays abstract: an output cell is `cell(dot, activation scale, weight scale)`.
 */
module Int8 {
  import opened Grid

  type I8 = x: int | -128 <= x < 128
  const MAX_COLS: nat := 16384

  /** Two's-complement 32-bit result of an addition. */
  function Wrap32(x: int): int {
    (x + 0x8000_0000) % 0x1_0000_0000 - 0x8000_0000
  }

  lemma WrapExact(x: int)
    requires -0x8000_0000 <= x < 0x8000_0000
    ensures Wrap32(x) == x
  {
  }

  // ----- the plain dot product ----------------------------------------------------------------

  function Get(x: seq<I8>, k: int): I8 {
    if 0 <= k < |x| then x[k] else 0
  }

  function Product(p: I8, q: I8): int {
    (p as int) * (q as int)
  }

  function Term(x: seq<I8>, y: seq<I8>, k: int): int {
    Product(Get(x, k), Get(y, k))
  }

  lemma Scaled(p: int, q: int, c: int)
    requires -c <= q <= c && p >= 0
    ensures -(c * p) <= p * q <= c * p
  {
    assert p * (c - q) >= 0 && p * (c + q) >= 0;
  }

  lemma TermBound(x: seq<I8>, y: seq<I8>, k: int)
    ensures -16384 <= Term(x, y, k) <= 16384
  {
    var p: int, q: int := Get(x, k), Get(y, k);
    assert Term(x, y, k) == p * q;
    hide Get, Product, Term;
    if p >= 0 {
      Scaled(p, q, 128);
    } else {
      Scaled(-p, q, 128);
      assert (-p) * q == -(p * q);
    }
  }

  /** The sum of the first `n` products, over the integers. */
  function Dot(x: seq<I8>, y: seq<I8>, n: nat): int {
    if n == 0 then 0 else Dot(x, y, n - 1) + Term(x, y, n - 1)
  }

  /** Sums of up to 16384 products stay within 2^28, so they fit an i32 with room to spare. */
  lemma {:induction false} DotBound(x: seq<I8>, y: seq<I8>, n: nat)
    ensures -16384 * n <= Dot(x, y, n) <= 16384 * n
    ensures n <= MAX_COLS ==> -0x1000_0000 <= Dot(x, y, n) <= 0x1000_0000
  {
    if n > 0 {
      DotBound(x, y, n - 1);
      TermBound(x, y, n - 1);
    }
  }

  // ----- SIMD lanes ---------------------------------------------------------------------------

  /** One v128 register read as four i32 lanes. */
  datatype V4 = V4(l0: int, l1: int, l2: int, l3: int)

  const SPLAT_ZERO := V4(0, 0, 0, 0)

  /** i32x4_add: four independent wrapping additions. */
  function Add4(u: V4, v: V4): V4 {
    V4(Wrap32(u.l0 + v.l0), Wrap32(u.l1 + v.l1), Wrap32(u.l2 + v.l2), Wrap32(u.l3 + v.l3))
  }

  /** i32x4_dot_i16x8 on two registers of eight sign-extended bytes: each lane sums one adjacent pair. */
  function DotI16(x: seq<I8>, y: seq<I8>): V4
    requires |x| == 8 && |y| == 8
  {
    V4(Wrap32(Product(x[0], y[0]) + Product(x[1], y[1])), Wrap32(Product(x[2], y[2]) + Product(x[3], y[3])),
       Wrap32(Product(x[4], y[4]) + Product(x[5], y[5])), Wrap32(Product(x[6], y[6]) + Product(x[7], y[7])))
  }

  /** Eight entries from position `o`. */
  function Eight(x: seq<I8>, o: nat): (r: seq<I8>)
    ensures |r| == 8 && forall m | 0 <= m < 8 :: r[m] == Get(x, o + m)
  {
    seq<I8>(8, m requires 0 <= m < 8 => Get(x, o + m))
  }

  function Dot8(x: seq<I8>, y: seq<I8>, o: nat): V4 {
    DotI16(Eight(x, o), Eight(y, o))
  }

  /** One sixteen-byte chunk added to an accumulator: low half and high half. */
  function AddChunk(acc: V4, x: seq<I8>, y: seq<I8>, o: nat): V4 {
    Add4(acc, Add4(Dot8(x, y, o), Dot8(x, y, o + 8)))
  }

  /** The accumulator after `n` chunks. */
  function Lanes(x: seq<I8>, y: seq<I8>, n: nat): V4 {
    if n == 0 then SPLAT_ZERO else AddChunk(Lanes(x, y, n - 1), x, y, 16 * (n - 1))
  }

  function LaneSum(v: V4): int {
    Wrap32(Wrap32(Wrap32(v.l0 + v.l1) + v.l2) + v.l3)
  }

  ghost predicate Within(v: V4, bound: int) {
    -bound <= v.l0 <= bound && -bound <= v.l1 <= bound && -bound <= v.l2 <= bound && -bound <= v.l3 <= bound
  }

  function Total(v: V4): int {
    v.l0 + v.l1 + v.l2 + v.l3
  }

  lemma Add4Exact(u: V4, v: V4, m: nat, n: nat)
    requires Within(u, m) && Within(v, n) && m + n < 0x8000_0000
    ensures Within(Add4(u, v), m + n) && Total(Add4(u, v)) == Total(u) + Total(v)
  {
    WrapExact(u.l0 + v.l0);
    WrapExact(u.l1 + v.l1);
    WrapExact(u.l2 + v.l2);
    WrapExact(u.l3 + v.l3);
    hide Wrap32;
  }

  lemma PairExact(x: seq<I8>, y: seq<I8>, k: nat)
    ensures var s := Wrap32(Term(x, y, k) + Term(x, y, k + 1)); -0x8000 <= s <= 0x8000 && s == Dot(x, y, k + 2) - Dot(x, y, k)
  {
    TermBound(x, y, k);
    TermBound(x, y, k + 1);
    hide Term, Wrap32;
    WrapExact(Term(x, y, k) + Term(x, y, k + 1));
    assert Dot(x, y, k + 2) == Dot(x, y, k + 1) + Term(x, y, k + 1);
  }

  lemma Dot8Lanes(x: seq<I8>, y: seq<I8>, o: nat)
    ensures Dot8(x, y, o) == V4(
                               Wrap32(Term(x, y, o) + Term(x, y, o + 1)), Wrap32(Term(x, y, o + 2) + Term(x, y, o + 3)),
                               Wrap32(Term(x, y, o + 4) + Term(x, y, o + 5)), Wrap32(Term(x, y, o + 6) + Term(x, y, o + 7)))
  {
    hide Product, Get, Wrap32;
  }

  lemma Dot8Exact(x: seq<I8>, y: seq<I8>, o: nat)
    ensures Within(Dot8(x, y, o), 0x8000) && Total(Dot8(x, y, o)) == Dot(x, y, o + 8) - Dot(x, y, o)
  {
    hide Dot8, Term, Wrap32, Dot;
    Dot8Lanes(x, y, o);
    PairExact(x, y, o);
    PairExact(x, y, o + 2);
    PairExact(x, y, o + 4);
    PairExact(x, y, o + 6);
  }

  lemma AddChunkExact(acc: V4, x: seq<I8>, y: seq<I8>, o: nat, m: nat)
    requires Within(acc, m) && m <= 0x400_0000
    ensures Within(AddChunk(acc, x, y, o), m + 0x1_0000)
    ensures Total(AddChunk(acc, x, y, o)) == Total(acc) + Dot(x, y, o + 16) - Dot(x, y, o)
  {
    hide Add4, Dot8, Dot, Within, Total;
    Dot8Exact(x, y, o);
    Dot8Exact(x, y, o + 8);
    Add4Exact(Dot8(x, y, o), Dot8(x, y, o + 8), 0x8000, 0x8000);
    Add4Exact(acc, Add4(Dot8(x, y, o), Dot8(x, y, o + 8)), m, 0x1_0000);
  }

  lemma DotNone(x: seq<I8>, y: seq<I8>)
    ensures Dot(x, y, 0) == 0
  {
  }

  /** No addition wraps: lanes stay within 2^26 and together they are the plain dot of the chunks read so far. */
  lemma {:induction false} LanesExact(x: seq<I8>, y: seq<I8>, n: nat)
    requires 16 * n <= MAX_COLS
    ensures Within(Lanes(x, y, n), 0x1_0000 * n) && Within(Lanes(x, y, n), 0x400_0000)
    ensures Total(Lanes(x, y, n)) == Dot(x, y, 16 * n)
  {
    hide AddChunk, Dot;
    if n > 0 {
      LanesExact(x, y, n - 1);
      AddChunkExact(Lanes(x, y, n - 1), x, y, 16 * (n - 1), 0x1_0000 * (n - 1));
    } else {
      DotNone(x, y);
    }
  }

  /** Adding the four lanes one by one does not wrap either. */
  lemma LaneSumExact(x: seq<I8>, y: seq<I8>, n: nat)
    requires 16 * n <= MAX_COLS
    ensures LaneSum(Lanes(x, y, n)) == Dot(x, y, 16 * n)
  {
    hide Lanes, Dot, Wrap32;
    LanesExact(x, y, n);
    var v := Lanes(x, y, n);
    WrapExact(v.l0 + v.l1);
    WrapExact(v.l0 + v.l1 + v.l2);
    WrapExact(v.l0 + v.l1 + v.l2 + v.l3);
  }

  // ----- rows of a flat matrix ----------------------------------------------------------------

  predicate Shaped(a: seq<I8>, rows: nat, cols: nat) {
    |a| == rows * cols
  }

  /** Row `i` of a flat row-major matrix with `cols` columns. */
  function Row(a: seq<I8>, i: nat, cols: nat): seq<I8> {
    if i * cols + cols <= |a| then a[i * cols..i * cols + cols] else []
  }

  lemma RowAt(a: seq<I8>, i: nat, rows: nat, cols: nat, k: nat)
    requires i < rows && Shaped(a, rows, cols) && k < cols
    ensures i * cols + k < |a| && a[i * cols + k] == Get(Row(a, i, cols), k)
  {
    RowFits(i, rows, cols);
  }

  /** Row `i` of the slice holding rows `t..t + n` is row `t + i` of the whole. */
  lemma RowOfSlice(a: seq<I8>, t: nat, n: nat, rows: nat, cols: nat, i: nat)
    requires Shaped(a, rows, cols) && t + n <= rows && i < n
    ensures t * cols <= (t + n) * cols <= |a| && Row(a[t * cols..(t + n) * cols], i, cols) == Row(a, t + i, cols)
  {
    SliceFits(a, t, n, rows, cols);
    RowFits(i, n, cols);
    RowFits(t + i, rows, cols);
    assert t * cols + i * cols == (t + i) * cols;
    SliceOfSlice(a, t * cols, (t + n) * cols, i * cols, cols);
  }

  lemma SliceOfSlice(a: seq<I8>, u: nat, v: nat, p: nat, n: nat)
    requires u + p + n <= v <= |a|
    ensures a[u..v][p..p + n] == a[u + p..u + p + n]
  {
    var left, right := a[u..v][p..p + n], a[u + p..u + p + n];
    assert |left| == |right| && forall k | 0 <= k < n :: left[k] == right[k];
  }

  lemma SliceFits(a: seq<I8>, t: nat, n: nat, rows: nat, cols: nat)
    requires Shaped(a, rows, cols) && t + n <= rows
    ensures t * cols <= t * cols + n * cols == (t + n) * cols <= |a|
    ensures Shaped(a[t * cols..(t + n) * cols], n, cols)
  {
    Monotone(t + n, rows, cols);
  }

  function TileDot(a: seq<I8>, b: seq<I8>, cols: nat, i: nat, j: nat): int {
    Dot(Row(a, i, cols), Row(b, j, cols), cols)
  }

  /** What `dot_tile` promises: every pair of rows has its plain dot product. */
  ghost predicate TileIs(sums: array2<int>, a: seq<I8>, b: seq<I8>, cols: nat)
    reads sums
  {
    forall i, j | 0 <= i < sums.Length0 && 0 <= j < sums.Length1 :: sums[i, j] == TileDot(a, b, cols, i, j)
  }

  // ----- the two kernels ----------------------------------------------------------------------

  /** The inner loop of both kernels over positions `start..cols`, adding to what the cell already holds. */
  method AddProducts(a: seq<I8>, b: seq<I8>, rows: nat, width: nat, cols: nat, i: nat, j: nat, start: nat, held: int)
    returns (sum: int)
    requires i < rows && j < width && start <= cols <= MAX_COLS && Shaped(a, rows, cols) && Shaped(b, width, cols)
    requires held == Dot(Row(a, i, cols), Row(b, j, cols), start)
    ensures sum == TileDot(a, b, cols, i, j)
  {
    hide Shaped, Dot, Row, Wrap32, Product, Get;
    var k := start;
    sum := held;
    while k < cols
      invariant start <= k <= cols && sum == Dot(Row(a, i, cols), Row(b, j, cols), k)
    {
      RowAt(a, i, rows, cols, k);
      RowAt(b, j, width, cols, k);
      NextProduct(Row(a, i, cols), Row(b, j, cols), k);
      sum := Wrap32(sum + Product(a[i * cols + k], b[j * cols + k]));
      k := k + 1;
    }
  }

  lemma NextProduct(x: seq<I8>, y: seq<I8>, k: nat)
    requires k < MAX_COLS
    ensures Wrap32(Dot(x, y, k) + Product(Get(x, k), Get(y, k))) == Dot(x, y, k + 1)
  {
    DotBound(x, y, k + 1);
    hide Wrap32;
    WrapExact(Dot(x, y, k + 1));
  }

  /** The plain triple loop. */
  method DotTilePlain(a: seq<I8>, b: seq<I8>, rows: nat, width: nat, cols: nat) returns (result: array2<int>)
    requires cols <= MAX_COLS && Shaped(a, rows, cols) && Shaped(b, width, cols)
    ensures fresh(result) && result.Length0 == rows && result.Length1 == width && TileIs(result, a, b, cols)
  {
    hide Shaped, Row, Dot, TileDot;
    result := new int[rows, width]((_, _) => 0);
    for i := 0 to rows
      invariant forall p, j | 0 <= p < i && 0 <= j < width :: result[p, j] == TileDot(a, b, cols, p, j)
      invariant forall p, j | i <= p < rows && 0 <= j < width :: result[p, j] == 0
    {
      for j := 0 to width
        invariant forall p, q | 0 <= p < i && 0 <= q < width :: result[p, q] == TileDot(a, b, cols, p, q)
        invariant forall q | 0 <= q < j :: result[i, q] == TileDot(a, b, cols, i, q)
        invariant forall q | j <= q < width :: result[i, q] == 0
        invariant forall p, q | i < p < rows && 0 <= q < width :: result[p, q] == 0
      {
        DotNone(Row(a, i, cols), Row(b, j, cols));
        var sum := AddProducts(a, b, rows, width, cols, i, j, 0, result[i, j]);
        result[i, j] := sum;
      }
    }
  }

  /** Both halves of a 16-byte load at `offset` in row `i`, sign-extended. */
  method LoadHalves(a: seq<I8>, rows: nat, cols: nat, i: nat, offset: nat) returns (low: seq<I8>, high: seq<I8>)
    requires i < rows && offset + 16 <= cols && Shaped(a, rows, cols)
    ensures low == Eight(Row(a, i, cols), offset) && high == Eight(Row(a, i, cols), offset + 8)
  {
    RowFits(i, rows, cols);
    var register := a[i * cols + offset..i * cols + offset + 16];
    low, high := register[..8], register[8..];
    var row := Row(a, i, cols);
    assert forall m | 0 <= m < 16 :: register[m] == Get(row, offset + m);
    hide Row, Get;
  }

  ghost predicate AccIs(acc: array2<V4>, a: seq<I8>, b: seq<I8>, cols: nat, n: nat)
    reads acc
  {
    forall i, j | 0 <= i < acc.Length0 && 0 <= j < acc.Length1 :: acc[i, j] == Lanes(Row(a, i, cols), Row(b, j, cols), n)
  }

  /** One unrolled step: the sixteen bytes at `offset` of every row are multiplied into the accumulators. */
  method AddChunks(a: seq<I8>, b: seq<I8>, rows: nat, width: nat, cols: nat, n: nat, acc: array2<V4>)
    requires acc.Length0 == rows && acc.Length1 == width && 16 * n + 16 <= cols
    requires Shaped(a, rows, cols) && Shaped(b, width, cols) && AccIs(acc, a, b, cols, n)
    modifies acc
    ensures AccIs(acc, a, b, cols, n + 1)
  {
    hide Shaped, Row, Lanes, Add4, DotI16, Eight;
    var lo, hi := new seq<I8>[width](_ => []), new seq<I8>[width](_ => []);
    for c := 0 to width
      invariant AccIs(acc, a, b, cols, n)
      invariant forall q | 0 <= q < c :: lo[q] == Eight(Row(b, q, cols), 16 * n) && hi[q] == Eight(Row(b, q, cols), 16 * n + 8)
    {
      lo[c], hi[c] := LoadHalves(b, width, cols, c, 16 * n);
    }
    for r := 0 to rows
      invariant HalvesIs(lo[..], hi[..], b, width, cols, n)
      invariant forall p, q | 0 <= p < r && 0 <= q < width :: acc[p, q] == Lanes(Row(a, p, cols), Row(b, q, cols), n + 1)
      invariant forall p, q | r <= p < rows && 0 <= q < width :: acc[p, q] == Lanes(Row(a, p, cols), Row(b, q, cols), n)
    {
      AddRow(a, b, rows, width, cols, n, r, lo[..], hi[..], acc);
    }
  }

  ghost predicate HalvesIs(lo: seq<seq<I8>>, hi: seq<seq<I8>>, b: seq<I8>, width: nat, cols: nat, n: nat) {
    |lo| == |hi| == width
    && forall q | 0 <= q < width :: lo[q] == Eight(Row(b, q, cols), 16 * n) && hi[q] == Eight(Row(b, q, cols), 16 * n + 8)
  }

  /** The `columns!` expansion for one row: every accumulator of row `r` takes one more chunk. */
  method AddRow(a: seq<I8>, b: seq<I8>, rows: nat, width: nat, cols: nat, n: nat, r: nat,
                lo: seq<seq<I8>>, hi: seq<seq<I8>>, acc: array2<V4>)
    requires r < rows == acc.Length0 && acc.Length1 == width && 16 * n + 16 <= cols && Shaped(a, rows, cols)
    requires HalvesIs(lo, hi, b, width, cols, n)
    requires forall q | 0 <= q < width :: acc[r, q] == Lanes(Row(a, r, cols), Row(b, q, cols), n)
    modifies acc
    ensures forall q | 0 <= q < width :: acc[r, q] == Lanes(Row(a, r, cols), Row(b, q, cols), n + 1)
    ensures forall p, q | 0 <= p < rows && 0 <= q < width && p != r :: acc[p, q] == old(acc[p, q])
  {
    hide Shaped, Row, Lanes, Add4, DotI16, Eight;
    var xl, xh := LoadHalves(a, rows, cols, r, 16 * n);
    for c := 0 to width
      invariant forall q | 0 <= q < c :: acc[r, q] == Lanes(Row(a, r, cols), Row(b, q, cols), n + 1)
      invariant forall q | c <= q < width :: acc[r, q] == Lanes(Row(a, r, cols), Row(b, q, cols), n)
      invariant forall p, q | 0 <= p < rows && 0 <= q < width && p != r :: acc[p, q] == old(acc[p, q])
    {
      NextLanes(Row(a, r, cols), Row(b, c, cols), n);
      acc[r, c] := Add4(acc[r, c], Add4(DotI16(xl, lo[c]), DotI16(xh, hi[c])));
    }
  }

  lemma NextLanes(x: seq<I8>, y: seq<I8>, n: nat)
    ensures Lanes(x, y, n + 1)
         == Add4(Lanes(x, y, n), Add4(DotI16(Eight(x, 16 * n), Eight(y, 16 * n)), DotI16(Eight(x, 16 * n + 8), Eight(y, 16 * n + 8))))
  {
    hide Add4, DotI16, Eight;
  }

  /** The SIMD kernel: pairs of chunks, a last odd chunk, the lane sums, then the bytes after the last chunk. */
  method DotTileSimd(a: seq<I8>, b: seq<I8>, rows: nat, width: nat, cols: nat) returns (result: array2<int>)
    requires cols <= MAX_COLS && Shaped(a, rows, cols) && Shaped(b, width, cols)
    ensures fresh(result) && result.Length0 == rows && result.Length1 == width && TileIs(result, a, b, cols)
  {
    hide Shaped, Row, Lanes, Dot, TileDot, LaneSum;
    var acc := new V4[rows, width]((_, _) => SPLAT_ZERO);
    var end := cols / 16 * 16;
    var k := 0;
    forall i, j | 0 <= i < rows && 0 <= j < width ensures acc[i, j] == Lanes(Row(a, i, cols), Row(b, j, cols), 0) {
      NoLanes(Row(a, i, cols), Row(b, j, cols));
    }
    while k + 16 < end
      invariant k % 16 == 0 && k <= end && AccIs(acc, a, b, cols, k / 16)
    {
      AddChunks(a, b, rows, width, cols, k / 16, acc);
      AddChunks(a, b, rows, width, cols, k / 16 + 1, acc);
      k := k + 32;
    }
    if k < end {
      AddChunks(a, b, rows, width, cols, k / 16, acc);
    }
    result := Finish(a, b, rows, width, cols, acc);
  }

  lemma NoLanes(x: seq<I8>, y: seq<I8>)
    ensures Lanes(x, y, 0) == SPLAT_ZERO
  {
  }

  method Finish(a: seq<I8>, b: seq<I8>, rows: nat, width: nat, cols: nat, acc: array2<V4>) returns (result: array2<int>)
    requires acc.Length0 == rows && acc.Length1 == width && cols <= MAX_COLS
    requires Shaped(a, rows, cols) && Shaped(b, width, cols) && AccIs(acc, a, b, cols, cols / 16)
    ensures fresh(result) && result.Length0 == rows && result.Length1 == width && TileIs(result, a, b, cols)
  {
    hide Shaped, Row, Lanes, Dot, TileDot, LaneSum;
    result := new int[rows, width]((_, _) => 0);
    for i := 0 to rows
      invariant forall p, q | 0 <= p < i && 0 <= q < width :: result[p, q] == TileDot(a, b, cols, p, q)
    {
      for j := 0 to width
        invariant forall p, q | 0 <= p < i && 0 <= q < width :: result[p, q] == TileDot(a, b, cols, p, q)
        invariant forall q | 0 <= q < j :: result[i, q] == TileDot(a, b, cols, i, q)
      {
        LaneSumExact(Row(a, i, cols), Row(b, j, cols), cols / 16);
        var sum := AddProducts(a, b, rows, width, cols, i, j, cols / 16 * 16, LaneSum(acc[i, j]));
        result[i, j] := sum;
      }
    }
  }
}
