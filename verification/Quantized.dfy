/** The LAYI continuation of the int8 engine (crates/laya-candle/src/quantized.rs): bytes plus one scale per row. */
module Quantized {
  import opened Wrappers
  import opened Numbers
  import opened Floats
  import opened Grid
  import opened Types
  import opened SchemaCompiler
  import opened Bytes
  import opened Int8
  import Int8Quant
  import opened Inference
  import opened Continuation
  import opened Scales

  /** Signed bytes with one scale, kept as its bit pattern, per row and group. */
  datatype QMatrix = QMatrix(rows: nat, cols: nat, values: seq<I8>, scales: seq<U32>, groups: nat)
  type QTensor = q: QMatrix | |q.values| == Area(q.rows, q.cols) && |q.scales| == Area(q.rows, q.groups)
    witness QMatrix(0, 0, [], [], 1)

  // ----- bytes ------------------------------------------------------------------------------------

  /** `v as u8` and back. */
  function ToByte(v: I8): U8 {
    if v < 0 then v + 256 else v
  }

  function FromByte(b: U8): I8 {
    if b >= 128 then b - 256 else b
  }

  function ToBytes(v: seq<I8>): (b: seq<U8>)
    ensures |b| == |v|
  {
    seq<U8>(|v|, i requires 0 <= i < |v| => ToByte(v[i]))
  }

  function FromBytes(b: seq<U8>): (v: seq<I8>)
    ensures |v| == |b|
  {
    seq<I8>(|b|, i requires 0 <= i < |b| => FromByte(b[i]))
  }

  lemma BytesRoundTrip(v: seq<I8>, b: seq<U8>)
    ensures FromBytes(ToBytes(v)) == v && ToBytes(FromBytes(b)) == b
  {
    assert |FromBytes(ToBytes(v))| == |v| && |ToBytes(FromBytes(b))| == |b|;
  }

  /** Finite, positive, and at most `f32::MAX / 128`, on the bit pattern of a float. */
  predicate ScaleOk(bits: U32) {
    1 <= bits <= MAX_SCALE_BITS
  }

  /** What the pattern test says of the float: larger patterns are negative, infinite or not numbers. */
  lemma ScaleOkMeans(bits: U32)
    ensures ScaleOk(bits) <==> Nonnegative(bits) && 0.0 < Value(bits) <= Value(MAX_BITS) / 128.0
  {
    hide Value;
    MaxOver128();
    if Nonnegative(bits) {
      ValueOrdered(0, bits);
      ValueOrdered(MAX_SCALE_BITS, bits);
      MinValue();
    }
  }

  predicate ScalesOk(v: seq<U32>) {
    forall i | 0 <= i < |v| :: ScaleOk(v[i])
  }

  // ----- export and import --------------------------------------------------------------------------

  function EncodeQuantized(s: Session<QTensor>): seq<U8>
    requires |s.input.inputIds| < TWO_32 && |s.input.markers| < TWO_32 && s.next < TWO_32
  {
    Preamble(LAYI, QUANTIZED_REVISION, s.bundle, s.next, s.input) + Words(s.hidden.scales) + ToBytes(s.hidden.values)
  }

  /** `q8_rows` */
  function QuantizedRows(m: LayaModel, x: TokenInput, next: nat): Fallible<nat> {
    if next >= m.InferenceSteps() then Err(Transition)
    else Ok(RowsAt(m.InferenceSteps(), |x.inputIds|, |x.markers|, next))
  }

  /** `export_quantized`: shapes are checked, scales are not. */
  function ExportQuantized(m: LayaModel, s: Session<QTensor>): Fallible<seq<U8>>
    requires m.Valid()
  {
    if s.bundle != m.bundle then Err(BindingMismatch) else
    var _ :- m.ValidateInput(s.input);
    var rows :- QuantizedRows(m, s.input, s.next);
    if s.hidden.rows != rows || s.hidden.cols != m.hiddenSize || s.hidden.groups != 1 then Err(Invalid("q8 continuation shape"))
    else Ok(EncodeQuantized(s))
  }

  /** `import_quantized` */
  function ImportQuantized(m: LayaModel, b: seq<U8>): Fallible<Session<QTensor>>
    requires m.Valid()
  {
    if |b| > MAX_QUANTIZED_BYTES then Err(TooLong)
    else if |b| < HEADER || b[..4] != LAYI then Err(Invalid("q8 continuation header"))
    else if Read(b, 4) != 1 || Read(b, 8) != QUANTIZED_REVISION || b[12..44] != m.bundle then Err(BindingMismatch)
    else
      var next, tokens, markers := Read(b, 44), Read(b, 52), Read(b, 56);
      if !(1 <= tokens <= MAX_TOKENS) || !(2 <= markers <= 7) then Err(Invalid("q8 input lengths"))
      else
        var rows := RowsAt(m.InferenceSteps(), tokens, markers, next);
        var end := HEADER + 4 * (tokens + markers);
        if |b| != end + 4 * rows + Area(rows, m.hiddenSize) then Err(Invalid("q8 continuation length"))
        else
          var x := ReadInput(b, tokens, markers);
          var _ :- m.ValidateInput(x);
          var _ :- QuantizedRows(m, x, next);
          var scales := ReadWords(b, end, rows);
          if !ScalesOk(scales) then Err(Numeric)
          else
            OneGroup(rows);
            Ok(Session(m.bundle, x, QMatrix(rows, m.hiddenSize, FromBytes(b[end + 4 * rows..]), scales, 1), next))
  }

  lemma OneGroup(rows: nat)
    ensures Area(rows, 1) == rows
  {
  }

  ghost predicate QPortable(m: LayaModel, s: Session<QTensor>) {
    && s.bundle == m.bundle && ModelAccepts(s.input, m.mask, m.vocab, m.qtypes) && s.next < m.InferenceSteps()
    && s.hidden.rows == RowsAt(m.InferenceSteps(), |s.input.inputIds|, |s.input.markers|, s.next)
    && s.hidden.cols == m.hiddenSize && s.hidden.groups == 1 && |s.hidden.scales| == s.hidden.rows
  }

  lemma ExportQuantizedExact(m: LayaModel, s: Session<QTensor>)
    requires m.Valid()
    ensures ExportQuantized(m, s).Ok? <==> QPortable(m, s)
    ensures ExportQuantized(m, s).Ok? ==>
              ExportQuantized(m, s) == Ok(EncodeQuantized(s)) && |EncodeQuantized(s)| <= MAX_QUANTIZED_BYTES
  {
    hide Area, EncodeQuantized, LayaModel.ValidateInput;
    if ExportQuantized(m, s).Ok? {
      OneGroup(s.hidden.rows);
      SizeFits(s.hidden.rows, s.hidden.cols);
      EncodedQuantizedSize(s);
    }
  }

  lemma EncodedQuantizedSize(s: Session<QTensor>)
    requires |s.input.inputIds| < TWO_32 && |s.input.markers| < TWO_32 && s.next < TWO_32
    ensures |EncodeQuantized(s)|
         == HEADER + 4 * (|s.input.inputIds| + |s.input.markers| + |s.hidden.scales|) + |s.hidden.values|
  {
    hide Fixed, Words, ToBytes;
  }

  /** What the bytes of a quantized export hold. */
  ghost predicate QCarries(b: seq<U8>, s: Session<QTensor>) {
    var tokens, markers, rows := |s.input.inputIds|, |s.input.markers|, |s.hidden.scales|;
    var end := HEADER + 4 * (tokens + markers);
    && tokens < TWO_32 && markers < TWO_32 && s.next < TWO_32
    && |b| == end + 4 * rows + |s.hidden.values|
    && Holds(b, LAYI, QUANTIZED_REVISION, s.bundle, s.next, s.input.qtypeId, tokens, markers)
    && ReadInput(b, tokens, markers) == s.input
    && ReadWords(b, end, rows) == s.hidden.scales && FromBytes(b[end + 4 * rows..]) == s.hidden.values
  }

  lemma EncodedQuantizedReads(s: Session<QTensor>)
    requires |s.input.inputIds| < TWO_32 && |s.input.markers| < TWO_32 && s.next < TWO_32
    ensures QCarries(EncodeQuantized(s), s)
  {
    hide Words, Read, ReadWords, Preamble, Holds, ReadInput, ToBytes, FromBytes;
    var b, end, rows := EncodeQuantized(s), HEADER + 4 * (|s.input.inputIds| + |s.input.markers|), |s.hidden.scales|;
    var p, tail := Preamble(LAYI, QUANTIZED_REVISION, s.bundle, s.next, s.input), Words(s.hidden.scales) + ToBytes(s.hidden.values);
    PreambleReads(tail, LAYI, QUANTIZED_REVISION, s.bundle, s.next, s.input);
    assert b == p + tail;
    assert b[end..] == tail;
    assert b[end..end + 4 * rows] == tail[..4 * rows] == Words(s.hidden.scales);
    assert b[end + 4 * rows..] == tail[4 * rows..] == ToBytes(s.hidden.values);
    ReadBack(b, end, s.hidden.scales);
    BytesRoundTrip(s.hidden.values, []);
  }

  lemma QCarriedEncodes(b: seq<U8>, s: Session<QTensor>)
    requires QCarries(b, s)
    ensures |s.input.inputIds| < TWO_32 && |s.input.markers| < TWO_32 && s.next < TWO_32 && EncodeQuantized(s) == b
  {
    hide Words, Read, Preamble, ReadWords, ReadInput, Holds, FromBytes, ToBytes;
    var tokens, markers, rows := |s.input.inputIds|, |s.input.markers|, |s.hidden.scales|;
    var end := HEADER + 4 * (tokens + markers);
    PreambleRebuilt(b, LAYI, QUANTIZED_REVISION, s.bundle, s.next, s.input.qtypeId, tokens, markers);
    WriteBack(b, end, rows);
    BytesRoundTrip([], b[end + 4 * rows..]);
    assert b == b[..end] + b[end..end + 4 * rows] + b[end + 4 * rows..];
  }

  lemma ImportQuantizedPortable(m: LayaModel, s: Session<QTensor>, b: seq<U8>)
    requires m.Valid() && QPortable(m, s) && QCarries(b, s) && |b| <= MAX_QUANTIZED_BYTES
    ensures ImportQuantized(m, b) == if ScalesOk(s.hidden.scales) then Ok(s) else Err(Numeric)
  {
    hide Area, LayaModel.ValidateInput, Words, Read, ReadWords, Preamble, ReadInput, ScalesOk, FromBytes;
  }

  /** An exported session is read back exactly if its scales are in range; the export itself does not look. */
  lemma ImportExportQuantized(m: LayaModel, s: Session<QTensor>)
    requires m.Valid() && ExportQuantized(m, s).Ok?
    ensures ImportQuantized(m, ExportQuantized(m, s).value) == if ScalesOk(s.hidden.scales) then Ok(s) else Err(Numeric)
  {
    hide ExportQuantized, ImportQuantized, EncodeQuantized, QCarries, ScalesOk;
    ExportQuantizedExact(m, s);
    EncodedQuantizedReads(s);
    ImportQuantizedPortable(m, s, EncodeQuantized(s));
  }

  /** With the scales the row quantizer writes, the round trip holds exactly if no row has an entry too large. */
  lemma RoundTripIffModerate(m: LayaModel, s: Session<QTensor>, round: real -> U32, rows: seq<seq<real>>)
    requires m.Valid() && ExportQuantized(m, s).Ok? && IsRounding(round) && |rows| == |s.hidden.scales|
    requires forall r | 0 <= r < |rows| :: Written(round, s.hidden.scales[r], rows[r])
    ensures ImportQuantized(m, ExportQuantized(m, s).value)
         == if forall r | 0 <= r < |rows| :: Moderate(rows[r]) then Ok(s) else Err(Numeric)
  {
    hide ImportQuantized, ExportQuantized, IsRounding, Written, Moderate;
    ImportExportQuantized(m, s);
    forall r | 0 <= r < |rows| ensures ScaleOk(s.hidden.scales[r]) <==> Moderate(rows[r]) {
      WrittenScale(round, s.hidden.scales[r], rows[r]);
    }
  }

  /** Any exportable session, with the scale written for a row that holds `f32::MAX`: exported, then refused on import. */
  lemma LargestEntryIsRefused(m: LayaModel, s: Session<QTensor>, r: nat, round: real -> U32, row: seq<real>)
    requires m.Valid() && ExportQuantized(m, s).Ok? && r < |s.hidden.scales|
    requires IsRounding(round) && Written(round, round(Int8Quant.Scale(row)), row)
    requires exists i :: 0 <= i < |row| && row[i] == Value(MAX_BITS)
    ensures var bits := round(Int8Quant.Scale(row));
      var t := s.(hidden := s.hidden.(scales := s.hidden.scales[r := bits]));
      && MAX_SCALE_BITS < bits <= MAX_BITS
      && ExportQuantized(m, t).Ok? && ImportQuantized(m, ExportQuantized(m, t).value) == Err(Numeric)
  {
    hide ImportQuantized, ExportQuantized, EncodeQuantized, IsRounding, Written, Value;
    var t := s.(hidden := s.hidden.(scales := s.hidden.scales[r := round(Int8Quant.Scale(row))]));
    var i :| 0 <= i < |row| && row[i] == Value(MAX_BITS);
    LargestEntry(row, i);
    WrittenScale(round, round(Int8Quant.Scale(row)), row);
    ExportQuantizedExact(m, s);
    ExportQuantizedExact(m, t);
    assert !ScaleOk(t.hidden.scales[r]);
    ImportExportQuantized(m, t);
  }

  lemma ImportedQuantized(m: LayaModel, b: seq<U8>)
    requires m.Valid() && ImportQuantized(m, b).Ok?
    ensures QCarries(b, ImportQuantized(m, b).value) && QPortable(m, ImportQuantized(m, b).value)
    ensures ScalesOk(ImportQuantized(m, b).value.hidden.scales)
  {
    hide Area, LayaModel.ValidateInput, Words, Read, Preamble, ScalesOk, FromBytes;
  }

  /** Whatever is accepted was written by an export. */
  lemma ExportImportQuantized(m: LayaModel, b: seq<U8>)
    requires m.Valid() && ImportQuantized(m, b).Ok?
    ensures ExportQuantized(m, ImportQuantized(m, b).value) == Ok(b)
  {
    hide ExportQuantized, ImportQuantized, EncodeQuantized, QCarries, ScalesOk, QPortable;
    ImportedQuantized(m, b);
    ExportQuantizedExact(m, ImportQuantized(m, b).value);
    QCarriedEncodes(b, ImportQuantized(m, b).value);
  }

  method WriteQuantized(m: LayaModel, s: Session<QTensor>) returns (r: Fallible<seq<U8>>)
    requires m.Valid()
    ensures r == ExportQuantized(m, s)
  {
    hide Area, LayaModel.ValidateInput, Words, Preamble, Fixed;
    if s.bundle != m.bundle {
      return Err(BindingMismatch);
    }
    var valid := m.ValidateInput(s.input);
    if valid.Err? {
      return Err(valid.error);
    }
    var rows := QuantizedRows(m, s.input, s.next);
    if rows.Err? {
      return Err(rows.error);
    }
    if s.hidden.rows != rows.value || s.hidden.cols != m.hiddenSize || s.hidden.groups != 1 {
      return Err(Invalid("q8 continuation shape"));
    }
    var bytes := WritePreamble(LAYI, QUANTIZED_REVISION, s.bundle, s.next, s.input);
    bytes := AppendWords(bytes, s.hidden.scales);
    r := Ok(bytes + ToBytes(s.hidden.values));
  }

  /** The reading loop of `import_quantized`: the scales are taken first and checked as a whole. */
  method ReadQuantized(m: LayaModel, b: seq<U8>) returns (r: Fallible<Session<QTensor>>)
    requires m.Valid()
    ensures r == ImportQuantized(m, b)
  {
    hide Area, LayaModel.ValidateInput, Read, Words, ScaleOk, FromByte;
    if |b| > MAX_QUANTIZED_BYTES {
      return Err(TooLong);
    }
    if |b| < HEADER || b[..4] != LAYI {
      return Err(Invalid("q8 continuation header"));
    }
    if Read(b, 4) != 1 || Read(b, 8) != QUANTIZED_REVISION || b[12..44] != m.bundle {
      return Err(BindingMismatch);
    }
    var next, tokens, markers := Read(b, 44), Read(b, 52), Read(b, 56);
    if !(1 <= tokens <= MAX_TOKENS) || !(2 <= markers <= 7) {
      return Err(Invalid("q8 input lengths"));
    }
    var rows := RowsAt(m.InferenceSteps(), tokens, markers, next);
    var end := HEADER + 4 * (tokens + markers);
    if |b| != end + 4 * rows + Area(rows, m.hiddenSize) {
      return Err(Invalid("q8 continuation length"));
    }
    var ids := ReadInputWords(b, HEADER, tokens);
    var marks := ReadInputWords(b, HEADER + 4 * tokens, markers);
    var x := TokenInput(ids, marks, Read(b, 48));
    var valid := m.ValidateInput(x);
    if valid.Err? {
      return Err(valid.error);
    }
    var checked := QuantizedRows(m, x, next);
    if checked.Err? {
      return Err(checked.error);
    }
    var scales := ReadInputWords(b, end, rows);
    for i := 0 to rows
      invariant ScalesOk(scales[..i])
    {
      if !ScaleOk(scales[i]) {
        return Err(Numeric);
      }
    }
    var values := ReadCodes(b[end + 4 * rows..]);
    OneGroup(rows);
    r := Ok(Session(m.bundle, x, QMatrix(rows, m.hiddenSize, values, scales, 1), next));
  }

  method ReadCodes(b: seq<U8>) returns (v: seq<I8>)
    ensures v == FromBytes(b)
  {
    hide FromByte;
    v := [];
    for i := 0 to |b|
      invariant |v| == i && forall k | 0 <= k < i :: v[k] == FromByte(b[k])
    {
      v := v + [FromByte(b[i])];
    }
  }
}
