/**
 Client-held inference (canisters/decision-engine/src/lib.rs): every query call reads a
 continuation, runs some phases and hands the next continuation back; the canister keeps nothing.
 */
module Queries {
  import opened Arithmetic
  import opened Wrappers
  import opened Numbers
  import opened Grid
  import opened Bytes
  import opened Types
  import opened Inference
  import opened Continuation
  import opened Quantized
  import opened Transport

  datatype QueryProgress =
    | Continue(state: seq<U8>, completed: nat, total: nat)
    | Done(logits: seq<U32>, completed: nat, total: nat)

  /** An engine with the format its sessions travel in. */
  datatype Format<!H> = Format(
    engine: Engine<H>, exportState: Session<H> -> Fallible<seq<U8>>, importState: seq<U8> -> Fallible<Session<H>>)

  /** Exported bytes are read back as the same session or refused, and only unfinished sessions are read. */
  ghost predicate Sound<H(!new)>(f: Format<H>) {
    && (forall s: Session<H> :: f.exportState(s).Ok? ==>
          f.importState(f.exportState(s).value).Err? || f.importState(f.exportState(s).value) == Ok(s))
    && (forall b: seq<U8> :: f.importState(b).Ok? ==> f.importState(b).value.next < f.engine.steps)
  }

  function F32(m: LayaModel): Format<Tensor> {
    Format(m.AsEngine(),
           (s: Session<Tensor>) => if m.Valid() then Export(m, s) else Err(Numeric),
           (b: seq<U8>) => if m.Valid() then Import(m, b) else Err(Numeric))
  }

  /** The int8 engine runs its own phases under the same model's configuration. */
  function Q8(m: LayaModel, e: Engine<QTensor>): Format<QTensor> {
    Format(e,
           (s: Session<QTensor>) => if m.Valid() then ExportQuantized(m, s) else Err(Numeric),
           (b: seq<U8>) => if m.Valid() then ImportQuantized(m, b) else Err(Numeric))
  }

  lemma F32Sound(m: LayaModel)
    requires m.Valid()
    ensures Sound(F32(m))
  {
    var f := F32(m);
    forall s: Session<Tensor> | f.exportState(s).Ok? ensures f.importState(f.exportState(s).value) == Ok(s) {
      ImportExport(m, s);
      hide Import, Export;
    }
    forall b: seq<U8> | f.importState(b).Ok? ensures f.importState(b).value.next < f.engine.steps {
      ImportedPortable(m, b);
      hide Import, Export;
    }
  }

  lemma Q8Sound(m: LayaModel, e: Engine<QTensor>)
    requires m.Valid() && e.steps == m.InferenceSteps()
    ensures Sound(Q8(m, e))
  {
    var f := Q8(m, e);
    forall s: Session<QTensor> | f.exportState(s).Ok?
      ensures f.importState(f.exportState(s).value).Err? || f.importState(f.exportState(s).value) == Ok(s)
    {
      ImportExportQuantized(m, s);
      hide ImportQuantized, ExportQuantized;
    }
    forall b: seq<U8> | f.importState(b).Ok? ensures f.importState(b).value.next < f.engine.steps {
      ImportedQuantized(m, b);
      hide ImportQuantized, ExportQuantized;
    }
  }

  // ----- the three handlers -----------------------------------------------------------------------

  /** What is left of `total` phases. */
  function Left(total: nat, done: nat): nat {
    if done <= total then total - done else 0
  }

  /** The reply after running: the logits, or the exported session. */
  function Report<H>(f: Format<H>, r: (Session<H>, Option<seq<U32>>)): Fallible<QueryProgress> {
    if r.1.Some? then Ok(Done(r.1.value, f.engine.steps, f.engine.steps)) else
    var state :- f.exportState(r.0);
    Ok(Continue(state, r.0.next, f.engine.steps))
  }

  /** `query_begin` */
  function QueryBegin<H>(f: Format<H>, x: TokenInput): Fallible<QueryProgress> {
    var s :- Begin(f.engine, x);
    var state :- f.exportState(s);
    Ok(Continue(state, 0, f.engine.steps))
  }

  /** `query_continue` */
  function QueryContinue<H>(f: Format<H>, state: seq<U8>, maxSteps: nat): Fallible<QueryProgress> {
    if !(1 <= maxSteps <= 16) then Err(Invalid("query max_steps must be 1..=16")) else
    var s :- f.importState(state);
    var r :- Steps(f.engine, s, Min(maxSteps, Left(f.engine.steps, s.next)));
    Report(f, r)
  }

  /** `query_begin_batch` */
  function QueryBeginBatch<H>(f: Format<H>, x: TokenInput, maxSteps: nat): Fallible<QueryProgress> {
    if !(1 <= maxSteps <= 16) then Err(Invalid("query max_steps must be 1..=16")) else
    var s :- Begin(f.engine, x);
    var r :- Steps(f.engine, s, Min(maxSteps, f.engine.steps));
    Report(f, r)
  }

  lemma {:induction false} StepsCount<H>(e: Engine<H>, s: Session<H>, k: nat)
    requires s.next + k <= e.steps
    ensures Steps(e, s, k).Ok? ==>
              && Steps(e, s, k).value.0.next == s.next + k
              && (Steps(e, s, k).value.1.Some? <==> k > 0 && s.next + k == e.steps)
  {
    if k > 0 {
      StepsCount(e, s, k - 1);
    }
  }

  /** The handlers' loop, which returns as soon as a phase yields logits. */
  method RunAndReport<H>(f: Format<H>, start: Session<H>, k: nat) returns (r: Fallible<QueryProgress>)
    requires start.next + k <= f.engine.steps
    ensures r == (match Steps(f.engine, start, k) case Err(e) => Err(e) case Ok(v) => Report(f, v))
  {
    hide Step;
    var s := start;
    for i := 0 to k
      invariant Steps(f.engine, start, i) == Ok((s, None)) && s.next == start.next + i
    {
      StepsCount(f.engine, start, i + 1);
      var step := Step(f.engine, s);
      if step.Err? {
        NoRecovery(f.engine, start, i + 1, k);
        return Err(step.error);
      }
      if step.value.1.Some? {
        return Ok(Done(step.value.1.value, f.engine.steps, f.engine.steps));
      }
      s := step.value.0;
    }
    var state := f.exportState(s);
    r := if state.Err? then Err(state.error) else Ok(Continue(state.value, s.next, f.engine.steps));
  }

  method ContinueInference<H(!new)>(f: Format<H>, state: seq<U8>, maxSteps: nat) returns (r: Fallible<QueryProgress>)
    requires Sound(f)
    ensures r == QueryContinue(f, state, maxSteps)
  {
    if !(1 <= maxSteps <= 16) {
      return Err(Invalid("query max_steps must be 1..=16"));
    }
    var s := f.importState(state);
    if s.Err? {
      return Err(s.error);
    }
    r := RunAndReport(f, s.value, Min(maxSteps, Left(f.engine.steps, s.value.next)));
  }

  method BeginBatch<H>(f: Format<H>, x: TokenInput, maxSteps: nat) returns (r: Fallible<QueryProgress>)
    ensures r == QueryBeginBatch(f, x, maxSteps)
  {
    if !(1 <= maxSteps <= 16) {
      return Err(Invalid("query max_steps must be 1..=16"));
    }
    var s := Begin(f.engine, x);
    if s.Err? {
      return Err(s.error);
    }
    r := RunAndReport(f, s.value, Min(maxSteps, f.engine.steps));
  }

  // ----- what a continuation is ---------------------------------------------------------------------

  /** If the bytes are readable at all, they are the computation of `x` stopped after `n` phases. */
  ghost predicate HeldAt<H>(f: Format<H>, x: TokenInput, b: seq<U8>, n: nat) {
    f.importState(b).Ok? ==> Reached(f.engine, x, f.importState(b).value) && f.importState(b).value.next == n
  }

  /** A reply about `x`: a continuation of it short of the end, or the logits of the uninterrupted computation. */
  ghost predicate TrueReply<H>(f: Format<H>, x: TokenInput, p: QueryProgress) {
    && p.total == f.engine.steps
    && (p.Continue? ==> p.completed <= f.engine.steps && HeldAt(f, x, p.state, p.completed))
    && (p.Done? ==> p.completed == f.engine.steps && Infer(f.engine, x) == Ok(p.logits))
  }

  lemma ExportHeld<H(!new)>(f: Format<H>, x: TokenInput, s: Session<H>)
    requires Sound(f) && Reached(f.engine, x, s) && f.exportState(s).Ok?
    ensures HeldAt(f, x, f.exportState(s).value, s.next)
  {
  }

  lemma BeginTrue<H(!new)>(f: Format<H>, x: TokenInput)
    requires Sound(f) && QueryBegin(f, x).Ok?
    ensures TrueReply(f, x, QueryBegin(f, x).value) && QueryBegin(f, x).value.completed == 0
  {
    BeginReaches(f.engine, x);
    ExportHeld(f, x, Begin(f.engine, x).value);
    hide Begin, Reached, Infer, Sound;
  }

  lemma RunTrue<H(!new)>(f: Format<H>, x: TokenInput, s: Session<H>, k: nat)
    requires Sound(f) && Reached(f.engine, x, s) && s.next + k <= f.engine.steps
    requires Steps(f.engine, s, k).Ok? && Report(f, Steps(f.engine, s, k).value).Ok?
    ensures var p := Report(f, Steps(f.engine, s, k).value).value;
      TrueReply(f, x, p) && p.completed == s.next + k && (p.Done? <==> k > 0 && s.next + k == f.engine.steps)
  {
    StepsReach(f.engine, x, s, k);
    var r := Steps(f.engine, s, k).value;
    hide Steps, Infer, Sound, HeldAt;
    if r.1.None? {
      ExportHeld(f, x, r.0);
    }
    hide Reached;
  }

  lemma BeginBatchTrue<H(!new)>(f: Format<H>, x: TokenInput, maxSteps: nat)
    requires Sound(f) && QueryBeginBatch(f, x, maxSteps).Ok?
    ensures var p := QueryBeginBatch(f, x, maxSteps).value;
      TrueReply(f, x, p) && p.completed == Min(maxSteps, f.engine.steps)
      && (f.engine.steps > 0 ==> (p.Done? <==> p.completed == f.engine.steps))
  {
    BeginReaches(f.engine, x);
    hide Sound, Reached, Steps, Report, TrueReply, Begin;
    RunTrue(f, x, Begin(f.engine, x).value, Min(maxSteps, f.engine.steps));
  }

  /** From a held state, any width: the phases asked for and no others, ending in the direct logits. */
  lemma ContinueTrue<H(!new)>(f: Format<H>, x: TokenInput, b: seq<U8>, n: nat, maxSteps: nat)
    requires Sound(f) && HeldAt(f, x, b, n) && QueryContinue(f, b, maxSteps).Ok?
    ensures var p := QueryContinue(f, b, maxSteps).value;
      && n < f.engine.steps && TrueReply(f, x, p) && p.completed == Min(n + maxSteps, f.engine.steps)
      && (p.Done? <==> p.completed == f.engine.steps)
  {
    var s := f.importState(b).value;
    assert s.next < f.engine.steps;
    hide Sound, Reached, Steps, Report, TrueReply;
    RunTrue(f, x, s, Min(maxSteps, Left(f.engine.steps, s.next)));
  }

  // ----- any grouping -------------------------------------------------------------------------------

  /** A whole client-held run: the reply to the first call, then one call per width until a reply is final. */
  function Grouped<H>(f: Format<H>, first: QueryProgress, widths: seq<nat>): Fallible<QueryProgress>
    decreases |widths|
  {
    if widths == [] || first.Done? then Ok(first) else
    var next :- QueryContinue(f, first.state, widths[0]);
    Grouped(f, next, widths[1..])
  }

  /** However the phases are grouped into queries, a run that ends in logits ends in the direct ones. */
  lemma {:induction false} GroupedDirect<H(!new)>(f: Format<H>, x: TokenInput, first: QueryProgress, widths: seq<nat>)
    requires Sound(f) && TrueReply(f, x, first) && Grouped(f, first, widths).Ok?
    ensures TrueReply(f, x, Grouped(f, first, widths).value)
    ensures Grouped(f, first, widths).value.Done? ==> Infer(f.engine, x) == Ok(Grouped(f, first, widths).value.logits)
    decreases |widths|
  {
    if widths != [] && first.Continue? {
      ContinueTrue(f, x, first.state, first.completed, widths[0]);
      GroupedDirect(f, x, QueryContinue(f, first.state, widths[0]).value, widths[1..]);
    }
    hide QueryContinue, HeldAt, Infer, Sound;
  }

  /**
   For the F32 engine the answer to "does the next query succeed" is exact: the phases must succeed, and a value
   that has to travel must be finite and have the shape of its phase.
   */
  lemma ContinueSucceeds(m: LayaModel, x: TokenInput, s: Session<Tensor>, maxSteps: nat)
    requires m.Valid() && Reached(m.AsEngine(), x, s) && Export(m, s).Ok? && 1 <= maxSteps <= 16
    ensures var k := Min(maxSteps, m.InferenceSteps() - s.next);
      QueryContinue(F32(m), Export(m, s).value, maxSteps).Ok?
      <==> Steps(m.AsEngine(), s, k).Ok?
           && (Steps(m.AsEngine(), s, k).value.1.Some? || Portable(m, Steps(m.AsEngine(), s, k).value.0))
  {
    hide Steps, Reached, Import, Export, LayaModel.Phase;
    ImportExport(m, s);
    ExportExact(m, s);
    assert s.next < m.InferenceSteps();
    var k := Min(maxSteps, m.InferenceSteps() - s.next);
    var r := Steps(m.AsEngine(), s, k);
    if r.Ok? {
      ExportExact(m, r.value.0);
    }
    hide Portable;
  }

  function SessionAt<H>(e: Engine<H>, x: TokenInput, n: nat): Session<H>
    requires HiddenAt(e, x, n).Ok?
  {
    Session(e.bundle, x, HiddenAt(e, x, n).value, n)
  }

  /** The session is exported, and read back as it was. */
  ghost predicate Crosses<H>(f: Format<H>, s: Session<H>) {
    f.exportState(s).Ok? && f.importState(f.exportState(s).value) == Ok(s)
  }

  /** Every value a query could have to hand over can be handed over. */
  ghost predicate Travels<H>(f: Format<H>, x: TokenInput) {
    forall n: nat | n < f.engine.steps && HiddenAt(f.engine, x, n).Ok? :: Crosses(f, SessionAt(f.engine, x, n))
  }

  /** For the F32 engine: finite values, in the shape of their phase. */
  lemma F32Travels(m: LayaModel, x: TokenInput)
    requires m.Valid()
    ensures Travels(F32(m), x) <==>
      forall n: nat | n < m.InferenceSteps() && HiddenAt(m.AsEngine(), x, n).Ok? :: Portable(m, SessionAt(m.AsEngine(), x, n))
  {
    hide Import, Export, Portable, HiddenAt;
    forall n: nat | n < m.InferenceSteps() && HiddenAt(m.AsEngine(), x, n).Ok?
      ensures Crosses(F32(m), SessionAt(m.AsEngine(), x, n)) <==> Portable(m, SessionAt(m.AsEngine(), x, n))
    {
      var s := SessionAt(m.AsEngine(), x, n);
      ExportExact(m, s);
      if Export(m, s).Ok? {
        ImportExport(m, s);
      }
    }
  }

  /** For the int8 engine: the shape of the phase, and scales in range. */
  lemma Q8Travels(m: LayaModel, e: Engine<QTensor>, x: TokenInput)
    requires m.Valid()
    ensures Travels(Q8(m, e), x) <==>
      forall n: nat | n < e.steps && HiddenAt(e, x, n).Ok? ::
        QPortable(m, SessionAt(e, x, n)) && ScalesOk(SessionAt(e, x, n).hidden.scales)
  {
    hide ImportQuantized, ExportQuantized, QPortable, ScalesOk, HiddenAt;
    forall n: nat | n < e.steps && HiddenAt(e, x, n).Ok?
      ensures Crosses(Q8(m, e), SessionAt(e, x, n))
         <==> QPortable(m, SessionAt(e, x, n)) && ScalesOk(SessionAt(e, x, n).hidden.scales)
    {
      var s := SessionAt(e, x, n);
      ExportQuantizedExact(m, s);
      if ExportQuantized(m, s).Ok? {
        ImportExportQuantized(m, s);
      }
    }
  }

  lemma SessionReached<H>(e: Engine<H>, x: TokenInput, n: nat)
    requires Infer(e, x).Ok? && n <= e.steps
    ensures HiddenAt(e, x, n).Ok? && Reached(e, x, SessionAt(e, x, n)) && SessionAt(e, x, n).next == n
  {
    if HiddenAt(e, x, n).Err? {
      Stuck(e, x, n, e.steps);
    }
    hide HiddenAt;
  }

  lemma ReachedIs<H>(e: Engine<H>, x: TokenInput, s: Session<H>)
    requires Reached(e, x, s)
    ensures HiddenAt(e, x, s.next).Ok? && s == SessionAt(e, x, s.next)
  {
    hide HiddenAt;
  }

  /** Running `k` phases of a computation that succeeds. */
  lemma SuccessSteps<H>(e: Engine<H>, x: TokenInput, n: nat, k: nat)
    requires Infer(e, x).Ok? && n + k <= e.steps && k > 0
    ensures HiddenAt(e, x, n).Ok? && HiddenAt(e, x, n + k).Ok?
    ensures Steps(e, SessionAt(e, x, n), k)
         == Ok((SessionAt(e, x, n + k), if n + k == e.steps then Some(Infer(e, x).value) else None))
  {
    hide Infer, HiddenAt, Steps, SessionAt;
    SessionReached(e, x, n);
    SessionReached(e, x, n + k);
    StepsReach(e, x, SessionAt(e, x, n), k);
    StepsSucceed(e, x, SessionAt(e, x, n), k);
    hide Reached;
    ReachedIs(e, x, Steps(e, SessionAt(e, x, n), k).value.0);
  }

  /** One query from the session after `n` phases, when nothing fails. */
  lemma NextSession<H>(f: Format<H>, x: TokenInput, n: nat, width: nat)
    requires Infer(f.engine, x).Ok? && Travels(f, x) && n < f.engine.steps && 1 <= width <= 16
    ensures HiddenAt(f.engine, x, n).Ok? && Crosses(f, SessionAt(f.engine, x, n))
    ensures var next := n + Min(width, f.engine.steps - n);
      var r := QueryContinue(f, f.exportState(SessionAt(f.engine, x, n)).value, width);
      if next == f.engine.steps then r == Ok(Done(Infer(f.engine, x).value, next, next))
      else
        HiddenAt(f.engine, x, next).Ok? && Crosses(f, SessionAt(f.engine, x, next))
        && r == Ok(Continue(f.exportState(SessionAt(f.engine, x, next)).value, next, f.engine.steps))
  {
    hide Infer, HiddenAt, Steps, Reached, SessionAt;
    var k := Min(width, f.engine.steps - n);
    SessionReached(f.engine, x, n);
    SessionReached(f.engine, x, n + k);
    SuccessSteps(f.engine, x, n, k);
  }

  /** In either format, any grouping into widths 1 to 16 that covers the phases left does finish, with the direct logits. */
  lemma {:induction false} GroupedCompletes<H>(f: Format<H>, x: TokenInput, n: nat, widths: seq<nat>)
    requires Infer(f.engine, x).Ok? && Travels(f, x) && n < f.engine.steps
    requires (forall i | 0 <= i < |widths| :: 1 <= widths[i] <= 16) && n + Sum(widths) >= f.engine.steps
    requires HiddenAt(f.engine, x, n).Ok? && Crosses(f, SessionAt(f.engine, x, n))
    ensures var first := Continue(f.exportState(SessionAt(f.engine, x, n)).value, n, f.engine.steps);
      Grouped(f, first, widths) == Ok(Done(Infer(f.engine, x).value, f.engine.steps, f.engine.steps))
    decreases |widths|
  {
    hide Infer, HiddenAt, Travels, QueryContinue, SessionAt, Crosses;
    NextSession(f, x, n, widths[0]);
    var next := n + Min(widths[0], f.engine.steps - n);
    if next < f.engine.steps {
      GroupedCompletes(f, x, next, widths[1..]);
    } else {
      FinalStays(f, Done(Infer(f.engine, x).value, next, next), widths[1..]);
    }
  }

  /** From the first call to the logits. */
  lemma WholeRunCompletes<H>(f: Format<H>, x: TokenInput, widths: seq<nat>)
    requires Infer(f.engine, x).Ok? && Travels(f, x) && f.engine.steps > 0
    requires (forall i | 0 <= i < |widths| :: 1 <= widths[i] <= 16) && Sum(widths) >= f.engine.steps
    ensures QueryBegin(f, x).Ok?
    ensures Grouped(f, QueryBegin(f, x).value, widths) == Ok(Done(Infer(f.engine, x).value, f.engine.steps, f.engine.steps))
  {
    SessionReached(f.engine, x, 0);
    assert Begin(f.engine, x) == Ok(SessionAt(f.engine, x, 0));
    hide SessionAt, HiddenAt, Infer, Begin;
    assert Crosses(f, SessionAt(f.engine, x, 0));
    GroupedCompletes(f, x, 0, widths);
    hide Crosses, Grouped;
  }

  lemma FinalStays<H>(f: Format<H>, p: QueryProgress, widths: seq<nat>)
    requires p.Done?
    ensures Grouped(f, p, widths) == Ok(p)
  {
  }

  // ----- the compressed endpoints ---------------------------------------------------------------------

  function Packed(z: Zlib, p: QueryProgress): Fallible<QueryProgress> {
    if p.Done? then Ok(p) else
    var wire :- Pack(z, p.state);
    Ok(p.(state := wire))
  }

  /** `transported_query`: a first call with or without a batch, or a call on a wire. */
  function Transported<H>(z: Zlib, f: Format<H>, x: Option<TokenInput>, wire: seq<U8>, maxSteps: nat): Fallible<QueryProgress> {
    var p :- if x.Some? then
               if maxSteps > 0 then QueryBeginBatch(f, x.value, maxSteps) else QueryBegin(f, x.value)
             else
               var raw :- Unpack(z, wire);
               QueryContinue(f, raw, maxSteps);
    Packed(z, p)
  }

  /** The envelope is transparent: the same progress, with a wire that unpacks to the same state. */
  lemma PackedSame(z: Zlib, p: QueryProgress)
    requires Lossless(z) && Packed(z, p).Ok?
    ensures var q := Packed(z, p).value;
      && q.completed == p.completed && q.total == p.total && (q.Done? <==> p.Done?)
      && (p.Done? ==> q == p) && (p.Continue? ==> Unpack(z, q.state) == Ok(p.state))
  {
    if p.Continue? {
      UnpackPack(z, p.state);
    }
    hide Pack, Unpack;
  }

  /** Every exported state can be packed, in both formats. */
  lemma ExportPacks(z: Zlib, m: LayaModel, s: Session<Tensor>)
    requires m.Valid() && Export(m, s).Ok?
    ensures Pack(z, Export(m, s).value).Ok?
  {
    hide Export, Area, Read, EncodeInference;
    ExportExact(m, s);
    ImportExport(m, s);
    EncodedSize(s);
    var b := EncodeInference(s);
    EncodedReads(m, s);
    FloatsWhole(s, b);
    hide FloatOffset;
    ShuffleOkIff(b, false);
    hide Shuffle;
  }

  lemma FloatsWhole(s: Session<Tensor>, b: seq<U8>)
    requires Carries(b, s) && 1 <= |s.input.inputIds| <= 128 && 2 <= |s.input.markers| <= 7
    ensures FloatOffset(b).Ok? && CodecOf(b) == Some(2)
  {
    hide Read, ReadInput, ReadWords;
  }

  lemma QuantizedExportPacks(z: Zlib, m: LayaModel, s: Session<QTensor>)
    requires m.Valid() && ExportQuantized(m, s).Ok?
    ensures Pack(z, ExportQuantized(m, s).value).Ok?
  {
    hide ExportQuantized, Area, Read, EncodeQuantized;
    ExportQuantizedExact(m, s);
    EncodedQuantizedSize(s);
    EncodedQuantizedReads(s);
    MagicOf(s, EncodeQuantized(s));
  }

  lemma MagicOf(s: Session<QTensor>, b: seq<U8>)
    requires QCarries(b, s)
    ensures |b| >= HEADER && CodecOf(b) == Some(1)
  {
    hide Read, ReadInput, ReadWords;
  }
}
