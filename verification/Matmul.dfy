/**
 Tiling around the int8 kernels (crates/laya-candle/src/int8.rs): row and column dispatch,
 padding of the token tail, and the row-major output. Each store is counted, so that filling
 all cells with as many stores as there are cells means every cell is written exactly once.
 */
module Matmul {
  import opened Grid
  import opened Int8
  import opened Wrappers

  /** A quantized weight: one scale per output row. */
  datatype Int8Matrix<F> = Int8Matrix(rows: nat, cols: nat, values: seq<I8>, scales: seq<F>) {
    /** The shape `from_bytes` accepts. */
    predicate Valid() {
      0 < rows && 0 < cols <= MAX_COLS && Shaped(values, rows, cols) && |scales| == rows
    }
  }

  // ----- stores -------------------------------------------------------------------------------

  /** One row of a tile: `sums[i][j] * sx * sw[j]` into consecutive cells. */
  method StoreRow<F, G>(out: array<F>, base: nat, sums: array2<int>, i: nat, sx: F, sw: seq<G>, cell: (int, F, G) -> F)
    returns (ghost stores: nat)
    requires i < sums.Length0 && |sw| == sums.Length1 && base + |sw| <= out.Length
    modifies out
    ensures stores == |sw|
    ensures forall j | 0 <= j < |sw| :: out[base + j] == cell(sums[i, j], sx, sw[j])
    ensures forall k | 0 <= k < out.Length && !(base <= k < base + |sw|) :: out[k] == old(out[k])
  {
    stores := 0;
    for j := 0 to |sw|
      invariant stores == j
      invariant forall q | 0 <= q < j :: out[base + q] == cell(sums[i, q], sx, sw[q])
      invariant forall k | 0 <= k < out.Length && !(base <= k < base + j) :: out[k] == old(out[k])
    {
      out[base + j] := cell(sums[i, j], sx, sw[j]);
      stores := stores + 1;
    }
  }

  ghost predicate InTile(t: nat, r: nat, t0: nat, n: nat, r0: nat, c: nat) {
    t0 <= t < t0 + n && r0 <= r < r0 + c
  }

  /** `store_tile`: the tile's cells receive their sums scaled, every other cell is left alone. */
  method StoreTile<F, G>(out: array<F>, sums: array2<int>, t: nat, r: nat, width: nat, sx: seq<F>, sw: seq<G>,
                         cell: (int, F, G) -> F) returns (ghost stores: nat)
    requires t + sums.Length0 <= |sx| && r + sums.Length1 <= width == |sw| && out.Length == Area(|sx|, width)
    modifies out
    ensures stores == Area(sums.Length0, sums.Length1)
    ensures forall t': nat, r': nat | InTile(t', r', t, sums.Length0, r, sums.Length1) ::
              Peek(out[..], t', r', width) == Some(cell(sums[t' - t, r' - r], sx[t'], sw[r']))
    ensures forall t': nat, r': nat | r' < width && !InTile(t', r', t, sums.Length0, r, sums.Length1) ::
              Peek(out[..], t', r', width) == old(Peek(out[..], t', r', width))
  {
    hide At, Peek, Area;
    var n, c := sums.Length0, sums.Length1;
    stores := 0;
    NextRow(0, c);
    for i := 0 to n
      invariant stores == Area(i, c)
      invariant forall t': nat, r': nat | InTile(t', r', t, i, r, c) ::
                  Peek(out[..], t', r', width) == Some(cell(sums[t' - t, r' - r], sx[t'], sw[r']))
      invariant forall t': nat, r': nat | r' < width && !InTile(t', r', t, i, r, c) ::
                  Peek(out[..], t', r', width) == old(Peek(out[..], t', r', width))
    {
      AtFits(t + i, |sx|, r, c, width);
      NextRow(i, c);
      ghost var before := out[..];
      ghost var more := StoreRow(out, At(t + i, r, width), sums, i, sx[t + i], sw[r..r + c], cell);
      stores := stores + more;
      RowStored(before, out[..], t + i, r, c, width);
    }
  }

  // ----- dispatch -----------------------------------------------------------------------------

  /** The cell the plain triple loop would write. */
  function Plain<F>(a: seq<I8>, sx: seq<F>, w: Int8Matrix<F>, cell: (int, F, F) -> F, t: nat, r: nat): Option<F> {
    if t < |sx| && r < |w.scales| then Some(cell(TileDot(a, w.values, w.cols, t, r), sx[t], w.scales[r])) else None
  }

  function TileRows(left: nat): (n: nat)
    requires left > 0
    ensures 0 < n <= left
  {
    if left >= 64 then 64 else if left >= 32 then 32 else if left >= 16 then 16 else if left >= 8 then 8
    else if left >= 4 then 4 else if left >= 2 then 2 else 1
  }

  function TileCols(left: nat): (n: nat)
    requires left > 0
    ensures 0 < n <= left
  {
    if left >= 16 then 16 else if left >= 8 then 8 else if left >= 4 then 4 else 1
  }

  /** `dot_tile` on rows `t..t + n` of `a` and rows `r..r + c` of `b`, in either build. */
  method DotTile(a: seq<I8>, b: seq<I8>, cols: nat, tokens: nat, t: nat, n: nat, width: nat, r: nat, c: nat, simd: bool)
    returns (sums: array2<int>)
    requires cols <= MAX_COLS && Shaped(a, tokens, cols) && Shaped(b, width, cols) && t + n <= tokens && r + c <= width
    ensures fresh(sums) && sums.Length0 == n && sums.Length1 == c
    ensures forall i, j | 0 <= i < n && 0 <= j < c :: sums[i, j] == TileDot(a, b, cols, t + i, r + j)
  {
    hide Shaped, Row, Dot;
    SliceFits(a, t, n, tokens, cols);
    SliceFits(b, r, c, width, cols);
    var left, right := a[t * cols..(t + n) * cols], b[r * cols..(r + c) * cols];
    if simd {
      sums := DotTileSimd(left, right, n, c, cols);
    } else {
      sums := DotTilePlain(left, right, n, c, cols);
    }
    forall i, j | 0 <= i < n && 0 <= j < c ensures sums[i, j] == TileDot(a, b, cols, t + i, r + j) {
      RowOfSlice(a, t, n, tokens, cols, i);
      RowOfSlice(b, r, c, width, cols, j);
    }
  }

  /** `write_tile`: all the columns of `n` output rows. */
  method WriteTile<F>(a: seq<I8>, sx: seq<F>, w: Int8Matrix<F>, t: nat, n: nat, out: array<F>, cell: (int, F, F) -> F, simd: bool)
    returns (ghost stores: nat)
    requires w.Valid() && Shaped(a, |sx|, w.cols) && t + n <= |sx| && out.Length == Area(|sx|, w.rows)
    modifies out
    ensures stores == Area(n, w.rows)
    ensures forall t': nat, r: nat | InTile(t', r, t, n, 0, w.rows) :: Peek(out[..], t', r, w.rows) == Plain(a, sx, w, cell, t', r)
    ensures forall t': nat, r: nat | r < w.rows && !(t <= t' < t + n) ::
              Peek(out[..], t', r, w.rows) == old(Peek(out[..], t', r, w.rows))
  {
    hide Shaped, Peek, TileDot, Area;
    var r := 0;
    stores := 0;
    AreaSplits(n, 0, 0);
    while r < w.rows
      invariant r <= w.rows && stores == Area(n, r)
      invariant forall t': nat, r': nat | InTile(t', r', t, n, 0, r) :: Peek(out[..], t', r', w.rows) == Plain(a, sx, w, cell, t', r')
      invariant forall t': nat, r': nat | r' < w.rows && !(t <= t' < t + n) ::
                  Peek(out[..], t', r', w.rows) == old(Peek(out[..], t', r', w.rows))
    {
      var c := TileCols(w.rows - r);
      var sums := DotTile(a, w.values, w.cols, |sx|, t, n, w.rows, r, c, simd);
      ghost var more := StoreTile(out, sums, t, r, w.rows, sx, w.scales, cell);
      AreaSplits(n, r, c);
      stores := stores + more;
      r := r + c;
    }
  }

  function PaddedTokens(tokens: nat): (p: nat)
    ensures tokens <= p <= tokens + 1
  {
    if tokens % 4 == 3 then (tokens + 3) / 4 * 4 else tokens
  }

  /** The tile loop over all rows, padded or not. */
  method FillRows<F>(a: seq<I8>, sx: seq<F>, w: Int8Matrix<F>, out: array<F>, cell: (int, F, F) -> F, simd: bool)
    returns (ghost stores: nat)
    requires w.Valid() && Shaped(a, |sx|, w.cols) && out.Length == Area(|sx|, w.rows)
    modifies out
    ensures stores == Area(|sx|, w.rows)
    ensures forall t: nat, r: nat | InTile(t, r, 0, |sx|, 0, w.rows) :: Peek(out[..], t, r, w.rows) == Plain(a, sx, w, cell, t, r)
  {
    hide Shaped, Peek, TileDot, Area;
    var t := 0;
    stores := 0;
    AreaSplits(w.rows, 0, 0);
    while t < |sx|
      invariant t <= |sx| && stores == Area(t, w.rows)
      invariant forall t': nat, r: nat | InTile(t', r, 0, t, 0, w.rows) :: Peek(out[..], t', r, w.rows) == Plain(a, sx, w, cell, t', r)
    {
      var n := TileRows(|sx| - t);
      AreaSplits(w.rows, t, n);
      ghost var more := WriteTile(a, sx, w, t, n, out, cell, simd);
      stores := stores + more;
      t := t + n;
    }
  }

  lemma PaddedShape(a: seq<I8>, more: seq<I8>, tokens: nat, padded: nat, cols: nat)
    requires Shaped(a, tokens, cols) && tokens <= padded && |more| == (padded - tokens) * cols
    ensures Shaped(a + more, padded, cols)
    ensures forall t: nat | t < tokens :: Row(a + more, t, cols) == Row(a, t, cols)
  {
    assert Area(tokens, cols) + Area(padded - tokens, cols) == Area(padded, cols) by {
      AreaSplits(cols, tokens, padded - tokens);
    }
    forall t: nat | t < tokens ensures Row(a + more, t, cols) == Row(a, t, cols) {
      RowFits(t, tokens, cols);
    }
  }

  lemma Truncated<F>(s: seq<F>, tokens: nat, padded: nat, width: nat, t: nat, r: nat)
    requires |s| == Area(padded, width) && t < tokens <= padded && r < width
    ensures Area(tokens, width) <= |s| && Peek(s[..Area(tokens, width)], t, r, width) == Peek(s, t, r, width)
  {
    AtFits(t, tokens, r, 1, width);
    Monotone(tokens, padded, width);
  }

  lemma TruncatedCells<F>(s: seq<F>, activation: seq<I8>, a: seq<I8>, scales: seq<F>, sx: seq<F>, w: Int8Matrix<F>, cell: (int, F, F) -> F)
    requires w.Valid() && |s| == Area(|sx|, w.rows) && scales <= sx
    requires forall t: nat | t < |scales| :: Row(a, t, w.cols) == Row(activation, t, w.cols)
    requires forall t: nat, r: nat | InTile(t, r, 0, |sx|, 0, w.rows) :: Peek(s, t, r, w.rows) == Plain(a, sx, w, cell, t, r)
    ensures Area(|scales|, w.rows) <= |s|
    ensures forall t: nat, r: nat | t < |scales| && r < w.rows ::
              Peek(s[..Area(|scales|, w.rows)], t, r, w.rows)
              == Some(cell(TileDot(activation, w.values, w.cols, t, r), scales[t], w.scales[r]))
  {
    hide Shaped, Peek, Row, Dot;
    Monotone(|scales|, |sx|, w.rows);
    forall t: nat, r: nat | t < |scales| && r < w.rows
      ensures Peek(s[..Area(|scales|, w.rows)], t, r, w.rows)
           == Some(cell(TileDot(activation, w.values, w.cols, t, r), scales[t], w.scales[r]))
    {
      Truncated(s, |scales|, |sx|, w.rows, t, r);
      assert InTile(t, r, 0, |sx|, 0, w.rows);
    }
  }

  /**
   `matmul`: in either build, and with or without the padded tail row, the result is the plain triple loop,
   cell by cell; nothing of the padding (`zero` entries, scale `one`) is left in it, and no cell is written twice.
   */
  method Matmul<F>(activation: seq<I8>, scales: seq<F>, w: Int8Matrix<F>, tokens: nat, cell: (int, F, F) -> F, zero: F, one: F, simd: bool)
    returns (result: seq<F>, ghost stores: nat)
    requires w.Valid() && Shaped(activation, tokens, w.cols) && |scales| == tokens
    ensures |result| == Area(tokens, w.rows) && stores == Area(PaddedTokens(tokens), w.rows)
    ensures forall t: nat, r: nat | t < tokens && r < w.rows ::
              Peek(result, t, r, w.rows) == Some(cell(TileDot(activation, w.values, w.cols, t, r), scales[t], w.scales[r]))
  {
    hide Shaped, Peek, Row, Dot, PaddedTokens;
    var padded := PaddedTokens(tokens);
    var more := seq<I8>((padded - tokens) * w.cols, _ => 0);
    var a, sx := activation + more, scales + seq(padded - tokens, _ => one);
    PaddedShape(activation, more, tokens, padded, w.cols);
    var out := new F[Area(padded, w.rows)](_ => zero);
    stores := FillRows(a, sx, w, out, cell, simd);
    TruncatedCells(out[..], activation, a, scales, sx, w, cell);
    result := out[..][..Area(tokens, w.rows)];
  }

  /** `integer_dots`: many dots of one vector, tiled over the outputs. */
  method IntegerDots(a: seq<I8>, b: seq<I8>, out: array<int>, simd: bool)
    requires 0 < |a| <= MAX_COLS && Shaped(b, out.Length, |a|)
    modifies out
    ensures forall c | 0 <= c < out.Length :: out[c] == Dot(a, Row(b, c, |a|), |a|)
  {
    hide Shaped, Dot;
    assert Shaped(a, 1, |a|) && Row(a, 0, |a|) == a by { OneRow(a); }
    hide Row;
    var c := 0;
    while c < out.Length
      invariant c <= out.Length
      invariant forall q | 0 <= q < c :: out[q] == Dot(a, Row(b, q, |a|), |a|)
    {
      var n := TileCols(out.Length - c);
      var sums := DotTile(a, b, |a|, 1, 0, 1, out.Length, c, n, simd);
      for j := 0 to n
        modifies out
        invariant forall q | 0 <= q < c + j :: out[q] == Dot(a, Row(b, q, |a|), |a|)
      {
        out[c + j] := sums[0, j];
      }
      c := c + n;
    }
  }

  lemma OneRow(a: seq<I8>)
    ensures Shaped(a, 1, |a|) && Row(a, 0, |a|) == a
  {
  }
}
