/**
 Why a client-held inference completes (canisters/decision-engine/src/lib.rs, tools/client_held_query.py): what a true
 canister answers, call by call, and that the client can read it.
 */
module QueryCompletion {
  import opened Arithmetic
  import opened Wrappers
  import opened Numbers
  import opened Types
  import opened Bytes
  import opened Inference
  import opened Continuation
  import opened Quantized
  import opened Transport
  import opened Queries
  import opened QueryCalls

  // ----- what an exported state looks like to a client ------------------------------------------------

  /** Every exported state starts with the header of this activation format, and can be packed. */
  ghost predicate Speaks<H(!new)>(z: Zlib, f: Format<H>, int8: bool) {
    forall s: Session<H> :: f.exportState(s).Ok? ==> Readable(z, f.exportState(s).value, s.bundle, s.next, int8)
  }

  ghost predicate Readable(z: Zlib, b: seq<U8>, bundle: Bytes32, next: nat, int8: bool) {
    && HEADER <= |b| <= MAX && Pack(z, b).Ok? && GoodHeader(b[..HEADER], |b|)
    && b[..4] == (if int8 then LAYI else LAYQ) && Read(b, 4) == 1
    && Read(b, 8) == (if int8 then QUANTIZED_REVISION else INFERENCE_REVISION)
    && b[12..44] == bundle && Read(b, 44) == next
  }

  lemma HeadReads(b: seq<U8>, at: nat)
    requires HEADER <= |b| && at + 4 <= HEADER
    ensures Read(b[..HEADER], at) == Read(b, at)
  {
    assert b[..HEADER][at..at + 4] == b[at..at + 4];
  }

  lemma F32Speaks(z: Zlib, m: LayaModel)
    requires m.Valid()
    ensures Speaks(z, F32(m), false)
  {
    hide Readable, Export;
    forall s: Session<Tensor> | F32(m).exportState(s).Ok? ensures Readable(z, F32(m).exportState(s).value, s.bundle, s.next, false) {
      F32Readable(z, m, s);
    }
  }

  lemma F32Readable(z: Zlib, m: LayaModel, s: Session<Tensor>)
    requires m.Valid() && Export(m, s).Ok?
    ensures Readable(z, Export(m, s).value, s.bundle, s.next, false)
  {
    hide Export, Pack, Read, ReadInput, ReadWords, EncodeInference, LayaModel.ValidateInput;
    ExportPacks(z, m, s);
    ExportExact(m, s);
    EncodedReads(m, s);
    var b := EncodeInference(s);
    HeadReads(b, 52);
    HeadReads(b, 56);
    assert b[..HEADER][..4] == b[..4];
    PackedFits(z, b);
  }

  lemma PackedFits(z: Zlib, b: seq<U8>)
    requires Pack(z, b).Ok?
    ensures HEADER <= |b| <= MAX
  {
  }

  lemma Q8Speaks(z: Zlib, m: LayaModel, e: Engine<QTensor>)
    requires m.Valid()
    ensures Speaks(z, Q8(m, e), true)
  {
    hide Readable, ExportQuantized;
    forall s: Session<QTensor> | Q8(m, e).exportState(s).Ok?
      ensures Readable(z, Q8(m, e).exportState(s).value, s.bundle, s.next, true)
    {
      Q8Readable(z, m, s);
    }
  }

  lemma Q8Readable(z: Zlib, m: LayaModel, s: Session<QTensor>)
    requires m.Valid() && ExportQuantized(m, s).Ok?
    ensures Readable(z, ExportQuantized(m, s).value, s.bundle, s.next, true)
  {
    hide ExportQuantized, Pack, Read, ReadInput, ReadWords, EncodeQuantized, LayaModel.ValidateInput, FromBytes;
    QuantizedExportPacks(z, m, s);
    ExportQuantizedExact(m, s);
    EncodedQuantizedReads(s);
    var b := EncodeQuantized(s);
    HeadReads(b, 52);
    HeadReads(b, 56);
    assert b[..HEADER][..4] == b[..4];
    PackedFits(z, b);
  }

  /** The state as it travels. */
  function WireOf<H>(z: Zlib, f: Format<H>, compressed: bool, s: Session<H>): seq<U8>
    requires f.exportState(s).Ok? && Pack(z, f.exportState(s).value).Ok?
  {
    if compressed then Pack(z, f.exportState(s).value).value else f.exportState(s).value
  }

  lemma Unwraps<H(!new)>(z: Zlib, f: Format<H>, int8: bool, compressed: bool, s: Session<H>)
    requires Lossless(z) && Speaks(z, f, int8) && f.exportState(s).Ok?
    ensures Pack(z, f.exportState(s).value).Ok? && Unpack(z, WireOf(z, f, compressed, s)) == Ok(f.exportState(s).value)
  {
    hide Pack, Read, GoodHeader, Lossless;
    var b := f.exportState(s).value;
    assert Readable(z, b, s.bundle, s.next, int8);
    UnpackPack(z, b);
    NotEnvelope(b);
  }

  /** The client reads off the header what the session was. */
  lemma Decodes<H(!new)>(z: Zlib, f: Format<H>, int8: bool, compressed: bool, s: Session<H>, total: nat)
    requires Lossless(z) && Speaks(z, f, int8) && f.exportState(s).Ok?
    ensures Pack(z, f.exportState(s).value).Ok?
    ensures var wire := WireOf(z, f, compressed, s);
      Decode(z, Continue(wire, s.next, total)) == Some(Progress(false, wire, s.next, total, [], s.bundle, int8))
  {
    hide Pack, Read, GoodHeader, Lossless, Unpack;
    var b := f.exportState(s).value;
    assert Readable(z, b, s.bundle, s.next, int8);
    Unwraps(z, f, int8, compressed, s);
    HeadReads(b, 4);
    HeadReads(b, 8);
    HeadReads(b, 44);
    assert b[..HEADER][..4] == b[..4] && b[..HEADER][12..44] == b[12..44];
  }

  // ----- what a true canister answers -------------------------------------------------------------------

  /** Direct inference succeeds, every intermediate value can travel, and the client knows the format and model. */
  ghost predicate Completable<H(!new)>(z: Zlib, f: Format<H>, x: TokenInput, int8: bool, auto: bool) {
    && Lossless(z) && Speaks(z, f, int8) && Travels(f, x) && InputOk(x)
    && Infer(f.engine, x).Ok? && |Infer(f.engine, x).value| == |x.markers| && f.engine.steps > 0
    && (auto ==> f.engine.steps == 32 && f.engine.bundle == AUTO_BUNDLE)
  }

  ghost predicate Wired<H>(z: Zlib, f: Format<H>, x: TokenInput, n: nat) {
    && HiddenAt(f.engine, x, n).Ok? && f.exportState(SessionAt(f.engine, x, n)).Ok?
    && Pack(z, f.exportState(SessionAt(f.engine, x, n)).value).Ok?
  }

  lemma AlwaysWired<H(!new)>(z: Zlib, f: Format<H>, x: TokenInput, int8: bool, auto: bool, n: nat)
    requires Completable(z, f, x, int8, auto) && n < f.engine.steps
    ensures Wired(z, f, x, n)
  {
    hide Infer, HiddenAt, Pack, Reached;
    SessionReached(f.engine, x, n);
    var s := SessionAt(f.engine, x, n);
    assert Crosses(f, s);
    assert Readable(z, f.exportState(s).value, s.bundle, s.next, int8);
  }

  /** The exact reply after `n` phases: the logits, or the session. */
  ghost function Reply<H>(f: Format<H>, x: TokenInput, n: nat): QueryProgress
    requires Infer(f.engine, x).Ok? && (n < f.engine.steps ==> HiddenAt(f.engine, x, n).Ok? && f.exportState(SessionAt(f.engine, x, n)).Ok?)
  {
    if n < f.engine.steps then Continue(f.exportState(SessionAt(f.engine, x, n)).value, n, f.engine.steps)
    else Done(Infer(f.engine, x).value, f.engine.steps, f.engine.steps)
  }

  lemma BeginExact<H>(f: Format<H>, x: TokenInput)
    requires Infer(f.engine, x).Ok? && Travels(f, x) && f.engine.steps > 0
    ensures HiddenAt(f.engine, x, 0).Ok? && f.exportState(SessionAt(f.engine, x, 0)).Ok?
    ensures QueryBegin(f, x) == Ok(Reply(f, x, 0))
  {
    SessionReached(f.engine, x, 0);
    assert Begin(f.engine, x) == Ok(SessionAt(f.engine, x, 0));
    hide SessionAt, HiddenAt, Infer, Begin;
    assert Crosses(f, SessionAt(f.engine, x, 0));
  }

  lemma BatchExact<H>(f: Format<H>, x: TokenInput, w: nat)
    requires Infer(f.engine, x).Ok? && Travels(f, x) && f.engine.steps > 0 && 1 <= w <= 16
    ensures var n := Min(w, f.engine.steps);
      && (n < f.engine.steps ==> HiddenAt(f.engine, x, n).Ok? && f.exportState(SessionAt(f.engine, x, n)).Ok?)
      && QueryBeginBatch(f, x, w) == Ok(Reply(f, x, n))
  {
    SessionReached(f.engine, x, 0);
    assert Begin(f.engine, x) == Ok(SessionAt(f.engine, x, 0));
    hide SessionAt, HiddenAt, Infer, Begin, Steps, Reached;
    var n := Min(w, f.engine.steps);
    SuccessSteps(f.engine, x, 0, n);
    SessionReached(f.engine, x, n);
    if n < f.engine.steps {
      assert Crosses(f, SessionAt(f.engine, x, n));
    }
  }

  lemma ContinueExact<H>(f: Format<H>, x: TokenInput, n: nat, w: nat)
    requires Infer(f.engine, x).Ok? && Travels(f, x) && n < f.engine.steps && 1 <= w <= 16
    ensures HiddenAt(f.engine, x, n).Ok? && f.exportState(SessionAt(f.engine, x, n)).Ok?
    ensures var next := Min(n + w, f.engine.steps);
      && (next < f.engine.steps ==> HiddenAt(f.engine, x, next).Ok? && f.exportState(SessionAt(f.engine, x, next)).Ok?)
      && QueryContinue(f, f.exportState(SessionAt(f.engine, x, n)).value, w) == Ok(Reply(f, x, next))
  {
    hide Infer, HiddenAt, SessionAt, QueryContinue, Travels;
    NextSession(f, x, n, w);
  }

  /** What the client holds after `n` phases. */
  ghost function Ahead<H>(z: Zlib, f: Format<H>, compressed: bool, int8: bool, x: TokenInput, n: nat): Progress
    requires Infer(f.engine, x).Ok? && (n < f.engine.steps ==> Wired(z, f, x, n))
  {
    if n < f.engine.steps then
      Progress(false, WireOf(z, f, compressed, SessionAt(f.engine, x, n)), n, f.engine.steps, [], f.engine.bundle, int8)
    else Progress(true, [], f.engine.steps, f.engine.steps, Infer(f.engine, x).value, NoBundle(), false)
  }

  /** Where a call takes a session that stands at `p`. */
  function After(steps: nat, p: Option<Progress>, direct: bool, fused: bool, w: nat): nat {
    if direct then steps
    else if p.None? then if fused then Min(w, steps) else 0
    else Min(p.value.completed + w, steps)
  }

  /** The client holds exactly what a true canister has answered so far. */
  ghost predicate OnCourse<H>(z: Zlib, f: Format<H>, compressed: bool, int8: bool, x: TokenInput, p: Option<Progress>, bundle: Option<Bytes32>)
  {
    && Infer(f.engine, x).Ok?
    && (p.Some? ==>
          && p.value.completed <= f.engine.steps && (p.value.completed < f.engine.steps ==> Wired(z, f, x, p.value.completed))
          && p.value == Ahead(z, f, compressed, int8, x, p.value.completed))
    && (bundle.Some? ==> bundle.value == f.engine.bundle)
  }

  /** The reply as it is sent. */
  ghost function Sent<H>(z: Zlib, f: Format<H>, compressed: bool, x: TokenInput, n: nat): QueryProgress
    requires Infer(f.engine, x).Ok? && (n < f.engine.steps ==> Wired(z, f, x, n))
  {
    if n < f.engine.steps then Continue(WireOf(z, f, compressed, SessionAt(f.engine, x, n)), n, f.engine.steps) else Reply(f, x, n)
  }

  lemma SentIs<H>(z: Zlib, f: Format<H>, x: TokenInput, n: nat)
    requires Infer(f.engine, x).Ok? && (n < f.engine.steps ==> Wired(z, f, x, n))
    ensures Sent(z, f, false, x, n) == Reply(f, x, n) && Packed(z, Reply(f, x, n)) == Ok(Sent(z, f, true, x, n))
  {
    hide Infer, HiddenAt, Pack, SessionAt;
  }

  lemma FiniteLogits<H>(e: Engine<H>, x: TokenInput)
    requires Infer(e, x).Ok?
    ensures AllFinite(Infer(e, x).value)
  {
    hide HiddenAt, AllFinite;
  }

  /** The client reads every such reply, and as what it is. */
  lemma SentDecodes<H(!new)>(z: Zlib, f: Format<H>, x: TokenInput, int8: bool, auto: bool, compressed: bool, n: nat)
    requires Completable(z, f, x, int8, auto) && (n < f.engine.steps ==> Wired(z, f, x, n))
    ensures Decode(z, Sent(z, f, compressed, x, n)) == Some(Ahead(z, f, compressed, int8, x, n))
  {
    hide Infer, HiddenAt, Pack, Lossless, Speaks, Travels, WireOf, AllFinite, Inspected, Read;
    if n < f.engine.steps {
      Decodes(z, f, int8, compressed, SessionAt(f.engine, x, n), f.engine.steps);
    } else {
      FiniteLogits(f.engine, x);
    }
  }

  lemma FirstServed<H(!new)>(z: Zlib, f: Format<H>, x: TokenInput, int8: bool, auto: bool, compressed: bool, fused: bool, w: nat)
    requires Completable(z, f, x, int8, auto) && 1 <= w <= 16
    ensures var n := if fused then Min(w, f.engine.steps) else 0;
      && (n < f.engine.steps ==> Wired(z, f, x, n))
      && Serve(z, f, compressed, if fused then BeginMany(x, w) else BeginOne(x)) == Ok(Sent(z, f, compressed, x, n))
  {
    hide Infer, Lossless, Speaks, Travels, QueryBegin, QueryBeginBatch, Packed, Sent, Reply, Wired;
    var n := if fused then Min(w, f.engine.steps) else 0;
    if n < f.engine.steps {
      AlwaysWired(z, f, x, int8, auto, n);
    }
    BeginExact(f, x);
    BatchExact(f, x, w);
    SentIs(z, f, x, n);
  }

  lemma LaterServed<H(!new)>(z: Zlib, f: Format<H>, x: TokenInput, int8: bool, auto: bool, compressed: bool, n: nat, w: nat)
    requires Completable(z, f, x, int8, auto) && 1 <= w <= 16 && n < f.engine.steps && Wired(z, f, x, n)
    ensures var next := Min(n + w, f.engine.steps);
      && (next < f.engine.steps ==> Wired(z, f, x, next))
      && Serve(z, f, compressed, ContinueFrom(WireOf(z, f, compressed, SessionAt(f.engine, x, n)), w)) == Ok(Sent(z, f, compressed, x, next))
  {
    hide Infer, HiddenAt, Lossless, Speaks, Travels, QueryContinue, Packed, Sent, Reply, Pack, Unpack, SessionAt;
    var next := Min(n + w, f.engine.steps);
    if next < f.engine.steps {
      AlwaysWired(z, f, x, int8, auto, next);
    }
    ContinueExact(f, x, n, w);
    Unwraps(z, f, int8, compressed, SessionAt(f.engine, x, n));
    SentIs(z, f, x, next);
  }

  /** Whatever call comes next, a true canister answers it, and the client reads the answer as where the call leads. */
  lemma Answers<H(!new)>(z: Zlib, f: Format<H>, x: TokenInput, int8: bool, auto: bool, compressed: bool, p: Option<Progress>,
                         bundle: Option<Bytes32>, direct: bool, fused: bool, w: nat) returns (q: QueryProgress)
    requires Completable(z, f, x, int8, auto) && OnCourse(z, f, compressed, int8, x, p, bundle) && (p.Some? ==> !p.value.done)
    requires 1 <= w <= 16 && (direct ==> auto)
    ensures Serve(z, f, compressed, Ask(x, direct, fused, p, w)) == Ok(q)
    ensures var n := After(f.engine.steps, p, direct, fused, w);
      && n <= f.engine.steps && (n < f.engine.steps ==> Wired(z, f, x, n))
      && (if direct then DecodeDirect(q) else Decode(z, q)) == Some(Ahead(z, f, compressed, int8, x, n))
  {
    hide Infer, HiddenAt, Lossless, Speaks, Travels, Decode, AllFinite, Wired, WireOf, Transported, QueryBegin, QueryContinue;
    if direct {
      q := Done(Infer(f.engine, x).value, f.engine.steps, f.engine.steps);
      FiniteLogits(f.engine, x);
    } else {
      var n := After(f.engine.steps, p, direct, fused, w);
      if p.None? {
        FirstServed(z, f, x, int8, auto, compressed, fused, w);
      } else {
        LaterServed(z, f, x, int8, auto, compressed, p.value.completed, w);
      }
      q := Sent(z, f, compressed, x, n);
      SentDecodes(z, f, x, int8, auto, compressed, n);
      hide Sent, Ahead;
    }
  }

  /** A transport that passes on what a true canister answers, up to failures that retrying gets over. */
  ghost predicate Dependable<H>(net: Network, z: Zlib, f: Format<H>, compressed: bool, retries: nat) {
    Faithful(net, z, f, compressed) && Willing(net, z, f, compressed) && Patient(net, retries)
  }

  /** Everything a session needs to complete. */
  ghost predicate Smooth<H(!new)>(net: Network, z: Zlib, f: Format<H>, x: TokenInput, int8: bool, auto: bool, compressed: bool, retries: nat,
                                  p: Option<Progress>, bundle: Option<Bytes32>) {
    Completable(z, f, x, int8, auto) && Dependable(net, z, f, compressed, retries) && OnCourse(z, f, compressed, int8, x, p, bundle)
  }

  lemma SmoothFacts<H(!new)>(net: Network, z: Zlib, f: Format<H>, x: TokenInput, int8: bool, auto: bool, compressed: bool, retries: nat,
                             p: Option<Progress>, bundle: Option<Bytes32>)
    requires Smooth(net, z, f, x, int8, auto, compressed, retries, p, bundle)
    ensures Patient(net, retries) && InputOk(x) && (auto ==> f.engine.steps == 32 && f.engine.bundle == AUTO_BUNDLE)
    ensures p.Some? ==> p.value.total == f.engine.steps
    ensures p.Some? && p.value.done ==> Infer(f.engine, x) == Ok(p.value.logits)
    ensures bundle.Some? ==> bundle.value == f.engine.bundle
  {
    hide Infer, Lossless, Speaks, Travels, Patient, Wired, WireOf;
  }

  /** What a session on course learns from its next call: nothing the client checks fails, and it stays on course. */
  lemma Heard<H(!new)>(net: Network, i: nat, z: Zlib, f: Format<H>, x: TokenInput, int8: bool, auto: bool, compressed: bool, retries: nat,
                       p: Option<Progress>, bundle: Option<Bytes32>, direct: bool, fused: bool, w: nat, reply: Option<QueryProgress>)
    requires Smooth(net, z, f, x, int8, auto, compressed, retries, p, bundle)
    requires (p.Some? ==> !p.value.done) && 1 <= w <= 16 && (direct ==> auto)
    requires if reply.Some? then net(i, Ask(x, direct, fused, p, w)) == Answer(reply.value) else net(i, Ask(x, direct, fused, p, w)).Refused?
    ensures reply.Some? && (if direct then DecodeDirect(reply.value) else Decode(z, reply.value)).Some?
    ensures var next := (if direct then DecodeDirect(reply.value) else Decode(z, reply.value)).value;
      && next.completed == After(f.engine.steps, p, direct, fused, w) <= next.total == f.engine.steps
      && (next.done <==> next.completed == f.engine.steps) && (next.done ==> |next.logits| == |x.markers|)
      && (!next.done ==> next.int8 == int8 && next.bundle == f.engine.bundle)
      && Smooth(net, z, f, x, int8, auto, compressed, retries, Some(next), None)
      && Smooth(net, z, f, x, int8, auto, compressed, retries, Some(next), bundle)
      && Smooth(net, z, f, x, int8, auto, compressed, retries, Some(next), Some(f.engine.bundle))
  {
    hide Infer, Lossless, Speaks, Travels, Decode, DecodeDirect, Wired, WireOf, Serve, Ask, Patient;
    var q := Answers(z, f, x, int8, auto, compressed, p, bundle, direct, fused, w);
    hide After;
  }

  /** A new F32 session completes wherever direct inference does and every hidden value is finite and of its phase's shape. */
  lemma F32Smooth(net: Network, z: Zlib, m: LayaModel, x: TokenInput, auto: bool, compressed: bool, retries: nat)
    requires m.Valid() && Lossless(z) && InputOk(x) && Dependable(net, z, F32(m), compressed, retries)
    requires Infer(m.AsEngine(), x).Ok? && |Infer(m.AsEngine(), x).value| == |x.markers|
    requires auto ==> m.InferenceSteps() == 32 && m.bundle == AUTO_BUNDLE
    requires forall n: nat | n < m.InferenceSteps() && HiddenAt(m.AsEngine(), x, n).Ok? :: Portable(m, SessionAt(m.AsEngine(), x, n))
    ensures Smooth(net, z, F32(m), x, false, auto, compressed, retries, None, None)
  {
    hide Infer, HiddenAt, Lossless, Speaks, Travels, Portable, Dependable, SessionAt;
    F32Speaks(z, m);
    F32Travels(m, x);
  }

  /** A new int8 session, where the scales are in range besides. */
  lemma Q8Smooth(net: Network, z: Zlib, m: LayaModel, e: Engine<QTensor>, x: TokenInput, auto: bool, compressed: bool, retries: nat)
    requires m.Valid() && Lossless(z) && InputOk(x) && Dependable(net, z, Q8(m, e), compressed, retries)
    requires e.steps > 0 && Infer(e, x).Ok? && |Infer(e, x).value| == |x.markers|
    requires auto ==> e.steps == 32 && e.bundle == AUTO_BUNDLE
    requires forall n: nat | n < e.steps && HiddenAt(e, x, n).Ok? ::
               QPortable(m, SessionAt(e, x, n)) && ScalesOk(SessionAt(e, x, n).hidden.scales)
    ensures Smooth(net, z, Q8(m, e), x, true, auto, compressed, retries, None, None)
  {
    hide Infer, HiddenAt, Lossless, Speaks, Travels, QPortable, ScalesOk, Dependable, SessionAt;
    Q8Speaks(z, m, e);
    Q8Travels(m, e, x);
  }
}
