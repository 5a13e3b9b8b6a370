/**
 The fused int8 linear of the quantized engine (`forward_q8_grouped` and `q8_tile` in
 crates/laya-candle/src/int8.rs): tiles of exact dots go into one reusable block per output group,
 and each row of a block is requantized straight into the result. No full float output ever exists,
 yet every row and group is quantized as if it did.
 */
module FusedLinear {
  import opened Wrappers
  import opened Grid
  import opened Int8
  import opened Matmul

  /** Bytes and their scale, or a failure on a row that is not finite. */
  type Quantizer<!F> = seq<F> -> Option<(seq<I8>, F)>

  ghost predicate Fitting<F(!new)>(quant: Quantizer<F>) {
    forall row: seq<F> :: quant(row).Some? ==> |quant(row).value.0| == |row|
  }

  /** The operands: activations with a scale per token, the weight, and a bias per output or none. */
  datatype Operands<F> = Operands(a: seq<I8>, sx: seq<F>, w: Int8Matrix<F>, bias: Option<seq<F>>, groups: nat, width: nat) {
    predicate Valid() {
      && w.Valid() && Shaped(a, |sx|, w.cols) && 0 < groups && 0 < width && w.rows == Area(groups, width)
      && (bias.Some? ==> |bias.value| == w.rows)
    }

    /** Weight scale and bias of every output, side by side. */
    function Scales(): (s: seq<(F, Option<F>)>)
      requires Valid()
      ensures |s| == w.rows
    {
      seq(w.rows, r requires 0 <= r < w.rows && Valid() => (w.scales[r], if bias.Some? then Some(bias.value[r]) else None))
    }
  }

  /** One float of the output: the scaled dot plus bias. */
  type Cell<!F> = (int, F, (F, Option<F>)) -> F

  /** Row `t` of output group `g`, as the plain triple loop would compute it before quantization. */
  function PlainRow<F>(o: Operands<F>, cell: Cell<F>, t: nat, g: nat): (row: seq<F>)
    requires o.Valid() && t < |o.sx| && g < o.groups
    ensures |row| == o.width
  {
    AtFits(g, o.groups, 0, o.width, o.width);
    seq(o.width, j requires 0 <= j < o.width && o.Valid() && t < |o.sx| && At(g, 0, o.width) + o.width <= o.w.rows =>
      cell(TileDot(o.a, o.w.values, o.w.cols, t, At(g, 0, o.width) + j), o.sx[t], o.Scales()[At(g, 0, o.width) + j]))
  }

  /** Row `t`, group `g` of the result holds the quantized plain row. */
  ghost predicate Stored<F>(o: Operands<F>, cell: Cell<F>, quant: Quantizer<F>, values: seq<I8>, scales: seq<F>, t: nat, g: nat)
    requires o.Valid() && t < |o.sx| && g < o.groups
  {
    var q := quant(PlainRow(o, cell, t, g));
    && q.Some? && Peek(scales, t, g, o.groups) == Some(q.value.1) && |q.value.0| == o.width
    && forall r | At(g, 0, o.width) <= r < At(g, 0, o.width) + o.width ::
         Peek(values, t, r, o.w.rows) == Some(q.value.0[r - At(g, 0, o.width)])
  }

  /** All dots of one tile and group into the block. */
  method FillBlock<F>(o: Operands<F>, cell: Cell<F>, t: nat, n: nat, g: nat, block: array<F>, simd: bool)
    requires o.Valid() && t + n <= |o.sx| && g < o.groups && block.Length == Area(n, o.width)
    modifies block
    ensures forall i: nat, j: nat | InTile(i, j, 0, n, 0, o.width) :: Peek(block[..], i, j, o.width) == Some(PlainRow(o, cell, t + i, g)[j])
  {
    hide Operands.Valid, Operands.Scales, Peek, At, Area, TileDot, Shaped;
    AtFits(g, o.groups, 0, o.width, o.width);
    ValidParts(o);
    var base := At(g, 0, o.width);
    var r := 0;
    while r < o.width
      invariant r <= o.width
      invariant forall i: nat, j: nat | InTile(i, j, 0, n, 0, r) :: Peek(block[..], i, j, o.width) == Some(PlainRow(o, cell, t + i, g)[j])
    {
      var c := TileCols(o.width - r);
      var sums := DotTile(o.a, o.w.values, o.w.cols, |o.sx|, t, n, o.w.rows, base + r, c, simd);
      ghost var _ := StoreTile(block, sums, 0, r, o.width, o.sx[t..t + n], o.Scales()[base..base + o.width], cell);
      r := r + c;
    }
  }

  lemma ValidParts<F>(o: Operands<F>)
    requires o.Valid()
    ensures Shaped(o.a, |o.sx|, o.w.cols) && Shaped(o.w.values, o.w.rows, o.w.cols) && o.w.cols <= MAX_COLS
    ensures o.w.rows == Area(o.groups, o.width) && 0 < o.width && 0 < o.groups
  {
  }

  /** Storing the quantized row at (t, g) leaves every other row and group as it was. */
  lemma OthersStay<F>(o: Operands<F>, cell: Cell<F>, quant: Quantizer<F>, v: seq<I8>, v': seq<I8>, s: seq<F>, s': seq<F>, t: nat, g: nat, t': nat, g': nat)
    requires o.Valid() && t < |o.sx| && g < o.groups && t' < |o.sx| && g' < o.groups && (t != t' || g != g')
    requires forall p: nat, r: nat | r < o.w.rows && !(t == p && At(g, 0, o.width) <= r < At(g, 0, o.width) + o.width) ::
               Peek(v', p, r, o.w.rows) == Peek(v, p, r, o.w.rows)
    requires forall p: nat, r: nat | r < o.groups && !(t == p && g <= r < g + 1) :: Peek(s', p, r, o.groups) == Peek(s, p, r, o.groups)
    requires Stored(o, cell, quant, v, s, t', g')
    ensures Stored(o, cell, quant, v', s', t', g')
  {
    hide Operands.Valid, Operands.Scales, Peek, At, Area, PlainRow;
    ValidParts(o);
    AtFits(g', o.groups, 0, o.width, o.width);
    forall r | At(g', 0, o.width) <= r < At(g', 0, o.width) + o.width ensures Peek(v', t', r, o.w.rows) == Peek(v, t', r, o.w.rows) {
      if g != g' {
        Apart(g, 0, g', r - At(g', 0, o.width), o.width, o.width);
        AtShift(g', 0, r - At(g', 0, o.width), o.width);
      }
    }
  }

  /** Quantize one row of the block into its place. */
  method WriteRow<F(!new)>(o: Operands<F>, cell: Cell<F>, quant: Quantizer<F>, row: seq<F>, t: nat, g: nat, values: array<I8>, scales: array<F>)
    returns (ok: bool)
    requires o.Valid() && Fitting(quant) && t < |o.sx| && g < o.groups && row == PlainRow(o, cell, t, g)
    requires values.Length == Area(|o.sx|, o.w.rows) && scales.Length == Area(|o.sx|, o.groups) && (values as object) != scales
    modifies values, scales
    ensures ok <==> quant(row).Some?
    ensures ok ==> Stored(o, cell, quant, values[..], scales[..], t, g)
    ensures ok ==> forall t': nat, g': nat | t' < |o.sx| && g' < o.groups && (t != t' || g != g') ::
              Stored(o, cell, quant, old(values[..]), old(scales[..]), t', g') ==> Stored(o, cell, quant, values[..], scales[..], t', g')
  {
    hide Operands.Valid, Operands.Scales, Peek, At, Area, PlainRow, Stored;
    var q := quant(row);
    if q.None? {
      return false;
    }
    ghost var v, s := values[..], scales[..];
    ValidParts(o);
    AtFits(g, o.groups, 0, o.width, o.width);
    AtFits(t, |o.sx|, At(g, 0, o.width), o.width, o.w.rows);
    AtFits(t, |o.sx|, g, 1, o.groups);
    var base := At(t, At(g, 0, o.width), o.w.rows);
    scales[At(t, g, o.groups)] := q.value.1;
    for j := 0 to o.width
      modifies values
      invariant forall k | 0 <= k < j :: values[base + k] == q.value.0[k]
      invariant forall k | 0 <= k < values.Length && !(base <= k < base + j) :: values[k] == v[k]
    {
      values[base + j] := q.value.0[j];
    }
    RowStored(v, values[..], t, At(g, 0, o.width), o.width, o.w.rows);
    RowStored(s, scales[..], t, g, 1, o.groups);
    IsStored(o, cell, quant, values[..], scales[..], t, g);
    forall t': nat, g': nat | t' < |o.sx| && g' < o.groups && (t != t' || g != g') && Stored(o, cell, quant, v, s, t', g')
      ensures Stored(o, cell, quant, values[..], scales[..], t', g')
    {
      OthersStay(o, cell, quant, v, values[..], s, scales[..], t, g, t', g');
    }
    ok := true;
  }

  lemma IsStored<F>(o: Operands<F>, cell: Cell<F>, quant: Quantizer<F>, v: seq<I8>, s: seq<F>, t: nat, g: nat)
    requires o.Valid() && t < |o.sx| && g < o.groups && quant(PlainRow(o, cell, t, g)).Some?
    requires |quant(PlainRow(o, cell, t, g)).value.0| == o.width
    requires Peek(s, t, g, o.groups) == Some(quant(PlainRow(o, cell, t, g)).value.1)
    requires forall r | At(g, 0, o.width) <= r < At(g, 0, o.width) + o.width ::
               Peek(v, t, r, o.w.rows) == Some(quant(PlainRow(o, cell, t, g)).value.0[r - At(g, 0, o.width)])
    ensures Stored(o, cell, quant, v, s, t, g)
  {
    hide Peek, At, Area, PlainRow, Operands.Valid, Operands.Scales;
  }

  /** The block's row `i` is the plain row. */
  lemma BlockRow<F>(o: Operands<F>, cell: Cell<F>, t: nat, n: nat, g: nat, block: seq<F>, i: nat)
    requires o.Valid() && t + n <= |o.sx| && g < o.groups && |block| == Area(n, o.width) && i < n
    requires forall i: nat, j: nat | InTile(i, j, 0, n, 0, o.width) :: Peek(block, i, j, o.width) == Some(PlainRow(o, cell, t + i, g)[j])
    ensures At(i, 0, o.width) + o.width <= |block| && block[At(i, 0, o.width)..At(i, 0, o.width) + o.width] == PlainRow(o, cell, t + i, g)
  {
    hide Operands.Valid, Operands.Scales, At, Area, PlainRow;
    AtFits(i, n, 0, o.width, o.width);
    var row := block[At(i, 0, o.width)..At(i, 0, o.width) + o.width];
    forall j | 0 <= j < o.width ensures row[j] == PlainRow(o, cell, t + i, g)[j] {
      AtShift(i, 0, j, o.width);
      assert InTile(i, j, 0, n, 0, o.width);
    }
  }

  /** `q8_tile`: for every group, one block of dots, then its rows quantized into the result. */
  method Q8Tile<F(!new)>(o: Operands<F>, cell: Cell<F>, quant: Quantizer<F>, zero: F, t: nat, n: nat, values: array<I8>, scales: array<F>, simd: bool)
    returns (ok: bool)
    requires o.Valid() && Fitting(quant) && t + n <= |o.sx|
    requires values.Length == Area(|o.sx|, o.w.rows) && scales.Length == Area(|o.sx|, o.groups) && (values as object) != scales
    requires forall p: nat, g: nat | p < t && g < o.groups :: Stored(o, cell, quant, values[..], scales[..], p, g)
    modifies values, scales
    ensures ok ==> forall p: nat, g: nat | p < t + n && g < o.groups :: Stored(o, cell, quant, values[..], scales[..], p, g)
    ensures !ok ==> exists p: nat, g: nat :: p < t + n && g < o.groups && quant(PlainRow(o, cell, p, g)).None?
  {
    hide Operands.Valid, Operands.Scales, Peek, At, Area, PlainRow, Stored, Fitting;
    for group := 0 to o.groups
      invariant forall p: nat, g: nat | p < t && g < o.groups :: Stored(o, cell, quant, values[..], scales[..], p, g)
      invariant forall p: nat, g: nat | t <= p < t + n && g < group :: Stored(o, cell, quant, values[..], scales[..], p, g)
    {
      var block := new F[Area(n, o.width)](_ => zero);
      FillBlock(o, cell, t, n, group, block, simd);
      ghost var filled := block[..];
      for i := 0 to n
        modifies values, scales
        invariant block[..] == filled
        invariant forall p: nat, g: nat | p < t && g < o.groups :: Stored(o, cell, quant, values[..], scales[..], p, g)
        invariant forall p: nat, g: nat | t <= p < t + n && g < group :: Stored(o, cell, quant, values[..], scales[..], p, g)
        invariant forall p: nat | t <= p < t + i :: Stored(o, cell, quant, values[..], scales[..], p, group)
      {
        BlockRow(o, cell, t, n, group, block[..], i);
        var row := block[..][At(i, 0, o.width)..At(i, 0, o.width) + o.width];
        ok := WriteRow(o, cell, quant, row, t + i, group, values, scales);
        if !ok {
          return;
        }
      }
    }
    ok := true;
  }

  /**
   `forward_q8_grouped`: in either build, every row and group of the result is the quantized plain row, and the
   operation fails exactly when some row cannot be quantized.
   */
  method Forward<F(!new)>(o: Operands<F>, cell: Cell<F>, quant: Quantizer<F>, zero: F, one: F, simd: bool)
    returns (ok: bool, values: seq<I8>, scales: seq<F>)
    requires o.Valid() && Fitting(quant)
    ensures ok <==> forall t: nat, g: nat | t < |o.sx| && g < o.groups :: quant(PlainRow(o, cell, t, g)).Some?
    ensures ok ==> |values| == Area(|o.sx|, o.w.rows) && |scales| == Area(|o.sx|, o.groups)
    ensures ok ==> forall t: nat, g: nat | t < |o.sx| && g < o.groups :: Stored(o, cell, quant, values, scales, t, g)
  {
    hide Operands.Valid, Operands.Scales, Peek, At, Area, PlainRow, Stored, Fitting;
    var v, s := new I8[Area(|o.sx|, o.w.rows)](_ => 0), new F[Area(|o.sx|, o.groups)](_ => one);
    values, scales := [], [];
    var t := 0;
    while t < |o.sx|
      invariant t <= |o.sx|
      invariant forall p: nat, g: nat | p < t && g < o.groups :: Stored(o, cell, quant, v[..], s[..], p, g)
    {
      var n := TileRows(|o.sx| - t);
      ok := Q8Tile(o, cell, quant, zero, t, n, v, s, simd);
      if !ok {
        return;
      }
      t := t + n;
    }
    forall t: nat, g: nat | t < |o.sx| && g < o.groups ensures quant(PlainRow(o, cell, t, g)).Some? {
      StoredQuantizes(o, cell, quant, v[..], s[..], t, g);
    }
    ok, values, scales := true, v[..], s[..];
  }

  lemma StoredQuantizes<F>(o: Operands<F>, cell: Cell<F>, quant: Quantizer<F>, v: seq<I8>, s: seq<F>, t: nat, g: nat)
    requires o.Valid() && t < |o.sx| && g < o.groups && Stored(o, cell, quant, v, s, t, g)
    ensures quant(PlainRow(o, cell, t, g)).Some?
  {
  }

  lemma GroupWidth(rows: nat, groups: nat)
    requires rows > 0 && groups > 0 && rows % groups == 0
    ensures rows / groups > 0 && rows == Area(groups, rows / groups)
  {
    assert rows == groups * (rows / groups) + rows % groups;
  }

  /** The public entry: shapes are checked first, and a mismatch is the same failure as a row that cannot be quantized. */
  method ForwardQ8Grouped<F(!new)>(a: seq<I8>, sx: seq<F>, tokens: nat, cols: nat, given: nat, w: Int8Matrix<F>, bias: Option<seq<F>>,
                                   groups: nat, cell: Cell<F>, quant: Quantizer<F>, zero: F, one: F, simd: bool)
    returns (ok: bool, values: seq<I8>, scales: seq<F>)
    requires w.Valid() && Fitting(quant) && Shaped(a, tokens, cols) && |sx| == Area(tokens, given)
    ensures ok ==> cols == w.cols && given == 1 && groups > 0 && w.rows % groups == 0 && (bias.Some? ==> |bias.value| == w.rows)
    ensures cols == w.cols && given == 1 && groups > 0 && w.rows % groups == 0 && (bias.Some? ==> |bias.value| == w.rows) ==>
              var o := Operands(a, sx, w, bias, groups, w.rows / groups);
              && o.Valid() && |sx| == tokens
              && (ok <==> forall t: nat, g: nat | t < tokens && g < groups :: quant(PlainRow(o, cell, t, g)).Some?)
              && (ok ==> forall t: nat, g: nat | t < tokens && g < groups :: Stored(o, cell, quant, values, scales, t, g))
  {
    ok, values, scales := false, [], [];
    if cols != w.cols || given != 1 || groups == 0 || w.rows % groups != 0 || (bias.Some? && |bias.value| != w.rows) {
      return;
    }
    GroupWidth(w.rows, groups);
    hide PlainRow, Stored, Fitting, Shaped;
    assert |sx| == tokens;
    var o := Operands(a, sx, w, bias, groups, w.rows / groups);
    ok, values, scales := Forward(o, cell, quant, zero, one, simd);
  }
}
