/**
 The client-held continuation formats: LAYQ for the F32 engine (crates/laya-candle/src/continuation.rs)
 and LAYI for the int8 engine (crates/laya-candle/src/quantized.rs). Both start with the same 60 bytes.
 */
module Continuation {
  import opened Wrappers
  import opened Numbers
  import opened Floats
  import opened Grid
  import opened Types
  import opened SchemaCompiler
  import opened Bytes
  import opened Int8
  import opened Inference

  const HEADER: nat := 60
  const MAX_CONTINUATION_BYTES: nat := 60 + 128 * 4 + 7 * 4 + 128 * 2048 * 4
  const MAX_QUANTIZED_BYTES: nat := 60 + 4 * (128 + 7 + 128) + 128 * 2048
  const INFERENCE_REVISION: U32 := 1
  const QUANTIZED_REVISION: U32 := 2

  const LAYQ: seq<U8> := [76, 65, 89, 81]
  const LAYI: seq<U8> := [76, 65, 89, 73]

  // ----- the fixed header -------------------------------------------------------------------------

  function Fixed(magic: seq<U8>, revision: U32, bundle: Bytes32, next: U32, qtype: U32, tokens: U32, markers: U32): (b: seq<U8>)
    requires |magic| == 4
    ensures |b| == HEADER
  {
    magic + Le32(1) + Le32(revision) + bundle + Le32(next) + Le32(qtype) + Le32(tokens) + Le32(markers)
  }

  /** What the fixed offsets hold. */
  ghost predicate Holds(b: seq<U8>, magic: seq<U8>, revision: U32, bundle: Bytes32, next: U32, qtype: U32, tokens: U32, markers: U32) {
    && |b| >= HEADER && b[..4] == magic && Read(b, 4) == 1 && Read(b, 8) == revision && b[12..44] == bundle
    && Read(b, 44) == next && Read(b, 48) == qtype && Read(b, 52) == tokens && Read(b, 56) == markers
  }

  lemma FixedReads(rest: seq<U8>, magic: seq<U8>, revision: U32, bundle: Bytes32, next: U32, qtype: U32, tokens: U32, markers: U32)
    requires |magic| == 4
    ensures Holds(Fixed(magic, revision, bundle, next, qtype, tokens, markers) + rest, magic, revision, bundle, next, qtype, tokens, markers)
  {
    hide Le32, Read;
    var b := Fixed(magic, revision, bundle, next, qtype, tokens, markers) + rest;
    assert b[4..8] == Le32(1) && b[8..12] == Le32(revision) && b[12..44] == bundle;
    assert b[44..48] == Le32(next) && b[48..52] == Le32(qtype) && b[52..56] == Le32(tokens) && b[56..60] == Le32(markers);
    ReadLe(b, 4, 1);
    ReadLe(b, 8, revision);
    ReadLe(b, 44, next);
    ReadLe(b, 48, qtype);
    ReadLe(b, 52, tokens);
    ReadLe(b, 56, markers);
  }

  lemma Joined(b: seq<U8>, i: nat, j: nat)
    requires i <= j <= |b|
    ensures b[..j] == b[..i] + b[i..j]
  {
  }

  lemma FixedRebuilt(b: seq<U8>, magic: seq<U8>, revision: U32, bundle: Bytes32, next: U32, qtype: U32, tokens: U32, markers: U32)
    requires |magic| == 4 && Holds(b, magic, revision, bundle, next, qtype, tokens, markers)
    ensures b[..HEADER] == Fixed(magic, revision, bundle, next, qtype, tokens, markers)
  {
    hide Le32, Read;
    LeRead(b, 4);
    LeRead(b, 8);
    LeRead(b, 44);
    LeRead(b, 48);
    LeRead(b, 52);
    LeRead(b, 56);
    Joined(b, 4, 8);
    Joined(b, 8, 12);
    Joined(b, 12, 44);
    Joined(b, 44, 48);
    Joined(b, 48, 52);
    Joined(b, 52, 56);
    Joined(b, 56, 60);
  }

  /** The header followed by the token ids and the markers. */
  function Preamble(magic: seq<U8>, revision: U32, bundle: Bytes32, next: U32, x: TokenInput): seq<U8>
    requires |magic| == 4 && |x.inputIds| < TWO_32 && |x.markers| < TWO_32
  {
    Fixed(magic, revision, bundle, next, x.qtypeId, |x.inputIds|, |x.markers|) + Words(x.inputIds) + Words(x.markers)
  }

  /** The input as read back from the fixed offsets. */
  function ReadInput(b: seq<U8>, tokens: nat, markers: nat): TokenInput
    requires HEADER + 4 * (tokens + markers) <= |b|
  {
    TokenInput(ReadWords(b, HEADER, tokens), ReadWords(b, HEADER + 4 * tokens, markers), Read(b, 48))
  }

  lemma PreambleReads(rest: seq<U8>, magic: seq<U8>, revision: U32, bundle: Bytes32, next: U32, x: TokenInput)
    requires |magic| == 4 && |x.inputIds| < TWO_32 && |x.markers| < TWO_32
    ensures var b := Preamble(magic, revision, bundle, next, x) + rest;
      && |b| >= HEADER + 4 * (|x.inputIds| + |x.markers|)
      && Holds(b, magic, revision, bundle, next, x.qtypeId, |x.inputIds|, |x.markers|)
      && ReadInput(b, |x.inputIds|, |x.markers|) == x
      && b[HEADER + 4 * (|x.inputIds| + |x.markers|)..] == rest
  {
    hide Words, Read, ReadWords, Fixed, Holds;
    var f := Fixed(magic, revision, bundle, next, x.qtypeId, |x.inputIds|, |x.markers|);
    var b := Preamble(magic, revision, bundle, next, x) + rest;
    assert b == f + (Words(x.inputIds) + Words(x.markers) + rest);
    FixedReads(Words(x.inputIds) + Words(x.markers) + rest, magic, revision, bundle, next, x.qtypeId, |x.inputIds|, |x.markers|);
    assert b[HEADER..HEADER + 4 * |x.inputIds|] == Words(x.inputIds);
    ReadBack(b, HEADER, x.inputIds);
    var at := HEADER + 4 * |x.inputIds|;
    assert b[at..at + 4 * |x.markers|] == Words(x.markers);
    ReadBack(b, at, x.markers);
    HeldType(b, magic, revision, bundle, next, x.qtypeId, |x.inputIds|, |x.markers|);
  }

  lemma HeldType(b: seq<U8>, magic: seq<U8>, revision: U32, bundle: Bytes32, next: U32, qtype: U32, tokens: U32, markers: U32)
    requires Holds(b, magic, revision, bundle, next, qtype, tokens, markers)
    ensures |b| >= HEADER && Read(b, 48) == qtype
  {
  }

  lemma PreambleRebuilt(b: seq<U8>, magic: seq<U8>, revision: U32, bundle: Bytes32, next: U32, qtype: U32, tokens: U32, markers: U32)
    requires |magic| == 4 && Holds(b, magic, revision, bundle, next, qtype, tokens, markers)
    requires HEADER + 4 * (tokens + markers) <= |b|
    ensures b[..HEADER + 4 * (tokens + markers)] == Preamble(magic, revision, bundle, next, ReadInput(b, tokens, markers))
  {
    hide Words, Read, ReadWords, Fixed, Holds;
    FixedRebuilt(b, magic, revision, bundle, next, qtype, tokens, markers);
    HeldType(b, magic, revision, bundle, next, qtype, tokens, markers);
    WriteBack(b, HEADER, tokens);
    WriteBack(b, HEADER + 4 * tokens, markers);
    var end := HEADER + 4 * (tokens + markers);
    assert b[..end] == b[..HEADER] + b[HEADER..HEADER + 4 * tokens] + b[HEADER + 4 * tokens..end];
  }

  // ----- LAYQ -------------------------------------------------------------------------------------

  /** Before the scorer only marker rows remain. */
  function RowsAt(steps: nat, tokens: nat, markers: nat, next: nat): nat {
    if next + 1 == steps then markers else tokens
  }

  /** `continuation_shape` */
  function ContinuationRows(m: LayaModel, x: TokenInput, next: nat): Fallible<nat> {
    var _ :- m.ValidateInput(x);
    if next >= m.InferenceSteps() then Err(Transition)
    else Ok(RowsAt(m.InferenceSteps(), |x.inputIds|, |x.markers|, next))
  }

  function EncodeInference(s: Session<Tensor>): seq<U8>
    requires |s.input.inputIds| < TWO_32 && |s.input.markers| < TWO_32 && s.next < TWO_32
  {
    Preamble(LAYQ, INFERENCE_REVISION, s.bundle, s.next, s.input) + Words(s.hidden.values)
  }

  /** `export_inference` */
  function Export(m: LayaModel, s: Session<Tensor>): Fallible<seq<U8>>
    requires m.Valid()
  {
    if s.bundle != m.bundle then Err(BindingMismatch) else
    var rows :- ContinuationRows(m, s.input, s.next);
    if s.hidden.rows != rows || s.hidden.cols != m.hiddenSize then Err(Invalid("continuation shape"))
    else if !AllFinite(s.hidden.values) then Err(Numeric)
    else if HEADER + 4 * (|s.input.inputIds| + |s.input.markers| + |s.hidden.values|) > MAX_CONTINUATION_BYTES then Err(TooLong)
    else Ok(EncodeInference(s))
  }

  /** `import_inference` */
  function Import(m: LayaModel, b: seq<U8>): Fallible<Session<Tensor>>
    requires m.Valid()
  {
    if |b| > MAX_CONTINUATION_BYTES then Err(TooLong)
    else if |b| < HEADER || b[..4] != LAYQ then Err(Invalid("continuation header"))
    else if Read(b, 4) != 1 || Read(b, 8) != INFERENCE_REVISION || b[12..44] != m.bundle then Err(BindingMismatch)
    else
      var next, tokens, markers := Read(b, 44), Read(b, 52), Read(b, 56);
      if !(1 <= tokens <= MAX_TOKENS) || !(2 <= markers <= 7) then Err(Invalid("continuation input lengths"))
      else if next >= m.InferenceSteps() then Err(Transition)
      else
        var rows := RowsAt(m.InferenceSteps(), tokens, markers, next);
        var end := HEADER + 4 * (tokens + markers);
        if |b| != end + 4 * Area(rows, m.hiddenSize) then Err(Invalid("continuation byte length"))
        else
          var x := ReadInput(b, tokens, markers);
          var _ :- ContinuationRows(m, x, next);
          var values := ReadWords(b, end, Area(rows, m.hiddenSize));
          if !AllFinite(values) then Err(Numeric)
          else Ok(Session(m.bundle, x, Matrix(rows, m.hiddenSize, values), next))
  }

  /** A session the format can carry: nothing but its binding, its phase, its shape and finite values. */
  ghost predicate Portable(m: LayaModel, s: Session<Tensor>) {
    && s.bundle == m.bundle && ModelAccepts(s.input, m.mask, m.vocab, m.qtypes) && s.next < m.InferenceSteps()
    && s.hidden.rows == RowsAt(m.InferenceSteps(), |s.input.inputIds|, |s.input.markers|, s.next)
    && s.hidden.cols == m.hiddenSize && AllFinite(s.hidden.values)
  }

  lemma SizeFits(rows: nat, width: nat)
    requires rows <= 128 && width <= 2048
    ensures Area(rows, width) <= 128 * 2048
  {
    Monotone(rows, 128, width);
  }

  /** Export succeeds on exactly the portable sessions: the size limit is never what refuses one. */
  lemma ExportExact(m: LayaModel, s: Session<Tensor>)
    requires m.Valid()
    ensures Export(m, s).Ok? <==> Portable(m, s)
    ensures Export(m, s).Ok? ==> Export(m, s) == Ok(EncodeInference(s)) && |Export(m, s).value| <= MAX_CONTINUATION_BYTES
  {
    hide Area, EncodeInference, AllFinite, LayaModel.ValidateInput;
    if ContinuationRows(m, s.input, s.next).Ok? && s.hidden.rows == ContinuationRows(m, s.input, s.next).value && s.hidden.cols == m.hiddenSize {
      SizeFits(s.hidden.rows, s.hidden.cols);
      EncodedSize(s);
    }
  }

  lemma EncodedSize(s: Session<Tensor>)
    requires |s.input.inputIds| < TWO_32 && |s.input.markers| < TWO_32 && s.next < TWO_32
    ensures |EncodeInference(s)| == HEADER + 4 * (|s.input.inputIds| + |s.input.markers| + |s.hidden.values|)
  {
    hide Fixed, Words;
  }

  /** Reading an exported continuation gives back the session, bit for bit. */
  lemma ImportExport(m: LayaModel, s: Session<Tensor>)
    requires m.Valid() && Export(m, s).Ok?
    ensures Import(m, Export(m, s).value) == Ok(s)
  {
    hide Area, EncodeInference, AllFinite, LayaModel.ValidateInput, Export, Words, Read, ReadWords, Preamble, Import;
    ExportExact(m, s);
    EncodedSize(s);
    EncodedReads(m, s);
    ImportPortable(m, s, EncodeInference(s));
  }

  /** What the bytes of an export hold. */
  ghost predicate Carries(b: seq<U8>, s: Session<Tensor>)
  {
    var tokens, markers := |s.input.inputIds|, |s.input.markers|;
    && tokens < TWO_32 && markers < TWO_32 && s.next < TWO_32
    && |b| == HEADER + 4 * (tokens + markers) + 4 * |s.hidden.values|
    && Holds(b, LAYQ, INFERENCE_REVISION, s.bundle, s.next, s.input.qtypeId, tokens, markers)
    && ReadInput(b, tokens, markers) == s.input
    && ReadWords(b, HEADER + 4 * (tokens + markers), |s.hidden.values|) == s.hidden.values
  }

  lemma EncodedReads(m: LayaModel, s: Session<Tensor>)
    requires |s.input.inputIds| < TWO_32 && |s.input.markers| < TWO_32 && s.next < TWO_32
    ensures Carries(EncodeInference(s), s)
  {
    hide Words, Read, ReadWords, Preamble, Holds, ReadInput;
    var b, end := EncodeInference(s), HEADER + 4 * (|s.input.inputIds| + |s.input.markers|);
    PreambleReads(Words(s.hidden.values), LAYQ, INFERENCE_REVISION, s.bundle, s.next, s.input);
    assert b[end..end + 4 * |s.hidden.values|] == b[end..];
    ReadBack(b, end, s.hidden.values);
  }

  lemma ImportPortable(m: LayaModel, s: Session<Tensor>, b: seq<U8>)
    requires m.Valid() && Portable(m, s) && Carries(b, s) && |b| <= MAX_CONTINUATION_BYTES
    ensures Import(m, b) == Ok(s)
  {
    hide Area, AllFinite, LayaModel.ValidateInput, Words, Read, ReadWords, Preamble, ReadInput;
    assert ContinuationRows(m, s.input, s.next) == Ok(s.hidden.rows);
  }

  /** Whatever is accepted was written by an export: the format has one encoding per session. */
  lemma ExportImport(m: LayaModel, b: seq<U8>)
    requires m.Valid() && Import(m, b).Ok?
    ensures Export(m, Import(m, b).value) == Ok(b)
  {
    hide Import, Export, Portable, EncodeInference, Carries;
    ImportedPortable(m, b);
    ExportExact(m, Import(m, b).value);
    ImportedParts(m, b);
    CarriedEncodes(b, Import(m, b).value);
  }

  lemma ImportedPortable(m: LayaModel, b: seq<U8>)
    requires m.Valid() && Import(m, b).Ok?
    ensures Portable(m, Import(m, b).value)
  {
    hide Area, Words, Read, AllFinite;
  }

  lemma ImportedParts(m: LayaModel, b: seq<U8>)
    requires m.Valid() && Import(m, b).Ok?
    ensures Carries(b, Import(m, b).value) && Import(m, b).value.bundle == m.bundle
  {
    hide Area, AllFinite, LayaModel.ValidateInput, Words, Read, Preamble;
  }

  lemma CarriedEncodes(b: seq<U8>, s: Session<Tensor>)
    requires Carries(b, s)
    ensures |s.input.inputIds| < TWO_32 && |s.input.markers| < TWO_32 && s.next < TWO_32 && EncodeInference(s) == b
  {
    hide Words, Read, Preamble, ReadWords, ReadInput, Holds;
    var tokens, markers := |s.input.inputIds|, |s.input.markers|;
    var end := HEADER + 4 * (tokens + markers);
    PreambleRebuilt(b, LAYQ, INFERENCE_REVISION, s.bundle, s.next, s.input.qtypeId, tokens, markers);
    WriteBack(b, end, |s.hidden.values|);
    assert b[end..end + 4 * |s.hidden.values|] == b[end..];
    assert b == b[..end] + b[end..];
  }

  method ExportInference(m: LayaModel, s: Session<Tensor>) returns (r: Fallible<seq<U8>>)
    requires m.Valid()
    ensures r == Export(m, s)
  {
    hide Area, AllFinite, LayaModel.ValidateInput, Le32, Words;
    if s.bundle != m.bundle {
      return Err(BindingMismatch);
    }
    var rows := ContinuationRows(m, s.input, s.next);
    if rows.Err? {
      return Err(rows.error);
    }
    if s.hidden.rows != rows.value || s.hidden.cols != m.hiddenSize {
      return Err(Invalid("continuation shape"));
    }
    if !AllFinite(s.hidden.values) {
      return Err(Numeric);
    }
    var size := HEADER + 4 * (|s.input.inputIds| + |s.input.markers| + |s.hidden.values|);
    if size > MAX_CONTINUATION_BYTES {
      return Err(TooLong);
    }
    var bytes := WritePreamble(LAYQ, INFERENCE_REVISION, s.bundle, s.next, s.input);
    bytes := AppendWords(bytes, s.hidden.values);
    r := Ok(bytes);
  }

  method WritePreamble(magic: seq<U8>, revision: U32, bundle: Bytes32, next: U32, x: TokenInput) returns (bytes: seq<U8>)
    requires |magic| == 4 && |x.inputIds| < TWO_32 && |x.markers| < TWO_32
    ensures bytes == Preamble(magic, revision, bundle, next, x)
  {
    hide Le32, Words;
    bytes := magic + Le32(1) + Le32(revision) + bundle;
    bytes := bytes + Le32(next) + Le32(x.qtypeId) + Le32(|x.inputIds|) + Le32(|x.markers|);
    bytes := AppendWords(bytes, x.inputIds);
    bytes := AppendWords(bytes, x.markers);
  }

  method ReadInputWords(b: seq<U8>, at: nat, n: nat) returns (v: seq<U32>)
    requires at + 4 * n <= |b|
    ensures v == ReadWords(b, at, n)
  {
    hide Read;
    v := [];
    for i := 0 to n
      invariant |v| == i && forall k | 0 <= k < i :: v[k] == Read(b, at + 4 * k)
    {
      v := v + [Read(b, at + 4 * i)];
    }
  }

  method ImportInference(m: LayaModel, b: seq<U8>) returns (r: Fallible<Session<Tensor>>)
    requires m.Valid()
    ensures r == Import(m, b)
  {
    hide Area, LayaModel.ValidateInput, Read, Words, FiniteBits;
    if |b| > MAX_CONTINUATION_BYTES {
      return Err(TooLong);
    }
    if |b| < HEADER || b[..4] != LAYQ {
      return Err(Invalid("continuation header"));
    }
    if Read(b, 4) != 1 || Read(b, 8) != INFERENCE_REVISION || b[12..44] != m.bundle {
      return Err(BindingMismatch);
    }
    var next, tokens, markers := Read(b, 44), Read(b, 52), Read(b, 56);
    if !(1 <= tokens <= MAX_TOKENS) || !(2 <= markers <= 7) {
      return Err(Invalid("continuation input lengths"));
    }
    if next >= m.InferenceSteps() {
      return Err(Transition);
    }
    var rows := RowsAt(m.InferenceSteps(), tokens, markers, next);
    var end, elements := HEADER + 4 * (tokens + markers), Area(rows, m.hiddenSize);
    if |b| != end + 4 * elements {
      return Err(Invalid("continuation byte length"));
    }
    var ids := ReadInputWords(b, HEADER, tokens);
    var marks := ReadInputWords(b, HEADER + 4 * tokens, markers);
    var x := TokenInput(ids, marks, Read(b, 48));
    var checked := ContinuationRows(m, x, next);
    if checked.Err? {
      return Err(checked.error);
    }
    var values: seq<U32> := [];
    ghost var all := ReadWords(b, end, elements);
    for i := 0 to elements
      invariant |values| == i && values == all[..i] && AllFinite(all[..i])
    {
      var value := Read(b, end + 4 * i);
      if !FiniteBits(value) {
        assert all[i] == value;
        return Err(Numeric);
      }
      values := values + [value];
    }
    assert values == all;
    r := Ok(Session(m.bundle, x, Matrix(rows, m.hiddenSize, values), next));
  }
}
