/**
 Resumable inference (crates/laya-candle/src/lib.rs, canisters/decision-engine/src/lib.rs):
 a model is a list of phases that may each fail, hidden values are kept as raw 32-bit patterns,
 and nothing is assumed of the arithmetic inside a phase.
 */
module Inference {
  import opened Wrappers
  import opened Numbers
  import opened Floats
  import opened Types
  import opened Grid
  import opened SchemaCompiler

  predicate AllFinite(v: seq<U32>) {
    forall i | 0 <= i < |v| :: FiniteBits(v[i])
  }

  /** How one engine runs: admission, embedding, its phases, and how logits are read off the last hidden value. */
  datatype Engine<!H> = Engine(
    bundle: Bytes32, steps: nat, check: TokenInput -> Fallible<()>, embed: TokenInput -> Fallible<H>,
    phase: (TokenInput, nat, H) -> Fallible<H>, read: H -> seq<U32>)

  /** An inference between two phases; `next` phases are done. */
  datatype Session<+H> = Session(bundle: Bytes32, input: TokenInput, hidden: H, next: nat)

  // ----- what the answer is ---------------------------------------------------------------------

  /** The hidden value after the first `n` phases. */
  function HiddenAt<H>(e: Engine<H>, x: TokenInput, n: nat): Fallible<H> {
    if n == 0 then e.embed(x) else
    var h :- HiddenAt(e, x, n - 1);
    e.phase(x, n - 1, h)
  }

  /** The answer of one uninterrupted computation. */
  function Infer<H>(e: Engine<H>, x: TokenInput): Fallible<seq<U32>> {
    var _ :- e.check(x);
    var h :- HiddenAt(e, x, e.steps);
    if AllFinite(e.read(h)) then Ok(e.read(h)) else Err(Numeric)
  }

  /** The session is the computation of `x` stopped after `next` phases. */
  ghost predicate Reached<H>(e: Engine<H>, x: TokenInput, s: Session<H>) {
    && s.bundle == e.bundle && s.input == x && e.check(x).Ok? && s.next <= e.steps
    && HiddenAt(e, x, s.next) == Ok(s.hidden)
  }

  // ----- one phase at a time ----------------------------------------------------------------------

  function Begin<H>(e: Engine<H>, x: TokenInput): Fallible<Session<H>> {
    var _ :- e.check(x);
    var h :- e.embed(x);
    Ok(Session(e.bundle, x, h, 0))
  }

  lemma BeginReaches<H>(e: Engine<H>, x: TokenInput)
    ensures Begin(e, x).Ok? ==> Reached(e, x, Begin(e, x).value) && Begin(e, x).value.next == 0
  {
  }

  /** `step_inference`: the new session and, after the last phase, the logits. */
  function Step<H>(e: Engine<H>, s: Session<H>): Fallible<(Session<H>, Option<seq<U32>>)> {
    if s.bundle != e.bundle then Err(BindingMismatch)
    else if s.next >= e.steps then Err(Transition) else
    var h :- e.phase(s.input, s.next, s.hidden);
    if s.next == e.steps - 1 then
      if AllFinite(e.read(h)) then Ok((s.(hidden := h, next := s.next + 1), Some(e.read(h)))) else Err(Numeric)
    else Ok((s.(hidden := h, next := s.next + 1), None))
  }

  lemma StepReaches<H>(e: Engine<H>, x: TokenInput, s: Session<H>)
    requires Reached(e, x, s)
    ensures Step(e, s).Ok? ==>
              && Reached(e, x, Step(e, s).value.0) && Step(e, s).value.0.next == s.next + 1 <= e.steps
              && (Step(e, s).value.1.Some? <==> s.next + 1 == e.steps)
              && (Step(e, s).value.1.Some? ==> Infer(e, x) == Ok(Step(e, s).value.1.value))
    ensures Step(e, s).Err? && s.next < e.steps ==> Infer(e, x).Err?
  {
    if s.next < e.steps && e.phase(s.input, s.next, s.hidden).Err? {
      Stuck(e, x, s.next + 1, e.steps);
    }
  }

  /** A failed phase fails the whole computation. */
  lemma {:induction false} Stuck<H>(e: Engine<H>, x: TokenInput, n: nat, m: nat)
    requires n <= m && HiddenAt(e, x, n).Err?
    ensures HiddenAt(e, x, m) == Err(HiddenAt(e, x, n).error)
  {
    if n < m {
      Stuck(e, x, n, m - 1);
    }
  }

  /** `k` phases in a row, keeping what the last one returned. */
  function Steps<H>(e: Engine<H>, s: Session<H>, k: nat): Fallible<(Session<H>, Option<seq<U32>>)> {
    if k == 0 then Ok((s, None)) else
    var before :- Steps(e, s, k - 1);
    Step(e, before.0)
  }

  lemma {:induction false} StepsReach<H>(e: Engine<H>, x: TokenInput, s: Session<H>, k: nat)
    requires Reached(e, x, s) && s.next + k <= e.steps
    ensures Steps(e, s, k).Ok? ==>
              && Reached(e, x, Steps(e, s, k).value.0) && Steps(e, s, k).value.0.next == s.next + k
              && (Steps(e, s, k).value.1.Some? <==> k > 0 && s.next + k == e.steps)
              && (Steps(e, s, k).value.1.Some? ==> Infer(e, x) == Ok(Steps(e, s, k).value.1.value))
    ensures Steps(e, s, k).Err? ==> Infer(e, x).Err?
  {
    if k > 0 {
      StepsReach(e, x, s, k - 1);
      if Steps(e, s, k - 1).Ok? {
        StepReaches(e, x, Steps(e, s, k - 1).value.0);
      }
      hide Infer, Reached, Step;
    }
  }

  /** Where the uninterrupted computation succeeds, so does every stretch of it. */
  lemma {:induction false} StepsSucceed<H>(e: Engine<H>, x: TokenInput, s: Session<H>, k: nat)
    requires Reached(e, x, s) && s.next + k <= e.steps && Infer(e, x).Ok?
    ensures Steps(e, s, k).Ok?
  {
    StepsReach(e, x, s, k);
    hide Infer, Reached, Steps;
  }

  /** The batch loops of every entry point. */
  method RunSteps<H>(e: Engine<H>, s: Session<H>, k: nat) returns (r: Fallible<(Session<H>, Option<seq<U32>>)>)
    ensures r == Steps(e, s, k)
  {
    hide Step;
    var now: (Session<H>, Option<seq<U32>>) := (s, None);
    for i := 0 to k
      invariant Steps(e, s, i) == Ok(now)
    {
      assert Steps(e, s, i + 1) == Step(e, now.0);
      var next := Step(e, now.0);
      if next.Err? {
        NoRecovery(e, s, i + 1, k);
        return Err(next.error);
      }
      now := next.value;
    }
    r := Ok(now);
  }

  lemma NoRecovery<H>(e: Engine<H>, s: Session<H>, i: nat, k: nat)
    requires i <= k && Steps(e, s, i).Err?
    ensures Steps(e, s, k) == Err(Steps(e, s, i).error)
  {
    if i < k {
      NoRecovery(e, s, i, k - 1);
    }
  }

  // ----- the F32 model ----------------------------------------------------------------------------

  /** A hidden matrix as bit patterns, row-major. */
  datatype Matrix = Matrix(rows: nat, cols: nat, values: seq<U32>)
  type Tensor = m: Matrix | |m.values| == Area(m.rows, m.cols) witness Matrix(0, 0, [])

  /** Full-sequence and marker-only form of one decision layer. */
  datatype DecisionLayer = DecisionLayer(forward: Tensor -> Fallible<Tensor>, forwardMarkers: (Tensor, seq<U32>) -> Fallible<Tensor>)

  function AllLayers(layers: seq<Tensor -> Fallible<Tensor>>, h: Tensor): Fallible<Tensor> {
    if layers == [] then Ok(h) else
    var next :- layers[0](h);
    AllLayers(layers[1..], next)
  }

  function AllDecision(layers: seq<DecisionLayer>, markers: seq<U32>, h: Tensor): Fallible<Tensor> {
    if |layers| == 0 then Ok(h)
    else if |layers| == 1 then layers[0].forwardMarkers(h, markers) else
    var next :- layers[0].forward(h);
    AllDecision(layers[1..], markers, next)
  }

  datatype LayaModel = LayaModel(
    bundle: Bytes32, hiddenSize: nat, vocab: nat, mask: U32, qtypes: nat,
    embed: seq<U32> -> Fallible<Tensor>, layers: seq<Tensor -> Fallible<Tensor>>,
    finalNorm: (Tensor, U32) -> Fallible<Tensor>, decision: seq<DecisionLayer>, scorer: Tensor -> Fallible<Tensor>)
  {
    /** The sizes `ModelConfig::validate` admits. */
    predicate Valid() {
      1 <= hiddenSize <= 2048 && 1 <= |layers| <= 64 && 1 <= |decision| <= 4
    }

    function InferenceSteps(): nat {
      |layers| + |decision| + 2
    }

    /** `validate_input` */
    function ValidateInput(x: TokenInput): (r: Fallible<()>)
      ensures r.Ok? <==> ModelAccepts(x, mask, vocab, qtypes)
    {
      if x.inputIds == [] || |x.inputIds| > MAX_TOKENS || !(2 <= |x.markers| <= 7) || x.qtypeId >= qtypes
        || (exists i | 0 <= i < |x.inputIds| :: x.inputIds[i] >= vocab) then Err(Invalid("token input"))
      else if !MarkersOk(x.markers, x.inputIds, mask) then Err(Invalid("option markers"))
      else Ok(())
    }

    /** The branches of `step_inference`. */
    function Phase(x: TokenInput, n: nat, h: Tensor): Fallible<Tensor> {
      if n < |layers| then layers[n](h)
      else if n == |layers| then finalNorm(h, x.qtypeId)
      else if n < InferenceSteps() - 1 then
        var i := n - |layers| - 1;
        if i + 1 == |decision| then decision[i].forwardMarkers(h, x.markers) else decision[i].forward(h)
      else scorer(h)
    }

    function AsEngine(): Engine<Tensor> {
      Engine(bundle, InferenceSteps(), (x: TokenInput) => ValidateInput(x), (x: TokenInput) => embed(x.inputIds),
                    (x, n, h) => Phase(x, n, h), (h: Tensor) => h.values)
    }

    /** One more phase of the direct computation, and what its failure means for the whole. */
    lemma Next(x: TokenInput, n: nat, h: Tensor)
      requires n < InferenceSteps() && HiddenAt(AsEngine(), x, n) == Ok(h)
      ensures HiddenAt(AsEngine(), x, n + 1) == Phase(x, n, h)
      ensures Phase(x, n, h).Err? ==> HiddenAt(AsEngine(), x, InferenceSteps()) == Phase(x, n, h)
    {
      if Phase(x, n, h).Err? {
        Stuck(AsEngine(), x, n + 1, InferenceSteps());
      }
    }

    lemma First(x: TokenInput)
      ensures HiddenAt(AsEngine(), x, 0) == embed(x.inputIds)
      ensures embed(x.inputIds).Err? ==> HiddenAt(AsEngine(), x, InferenceSteps()) == embed(x.inputIds)
    {
      if embed(x.inputIds).Err? {
        Stuck(AsEngine(), x, 0, InferenceSteps());
      }
    }

    /** The hidden value of the direct computation after `n` phases. */
    function At(x: TokenInput, n: nat): Fallible<Tensor> {
      HiddenAt(AsEngine(), x, n)
    }

    lemma AtNext(x: TokenInput, n: nat, h: Tensor)
      requires n < InferenceSteps() && At(x, n) == Ok(h)
      ensures At(x, n + 1) == Phase(x, n, h)
    {
      hide HiddenAt, AsEngine, Phase;
      Next(x, n, h);
    }

    lemma AtStuck(x: TokenInput, n: nat, m: nat)
      requires n <= m && At(x, n).Err?
      ensures At(x, m) == At(x, n)
    {
      hide HiddenAt, AsEngine;
      Stuck(AsEngine(), x, n, m);
    }

    lemma LayersStep(x: TokenInput, i: nat, h: Tensor)
      requires i < |layers|
      ensures var r := Phase(x, i, h); AllLayers(layers[i..], h) == if r.Ok? then AllLayers(layers[i + 1..], r.value) else r
    {
      assert layers[i..][1..] == layers[i + 1..];
    }

    lemma {:induction false} LayersLeft(x: TokenInput, i: nat, h: Tensor)
      requires i <= |layers| && At(x, i) == Ok(h)
      ensures At(x, |layers|) == AllLayers(layers[i..], h)
      decreases |layers| - i
    {
      hide At, Phase;
      if i < |layers| {
        hide AllLayers;
        LayersStep(x, i, h);
        AtNext(x, i, h);
        if At(x, i + 1).Ok? {
          LayersLeft(x, i + 1, At(x, i + 1).value);
        } else {
          AtStuck(x, i + 1, |layers|);
        }
      }
    }

    lemma DecisionStep(x: TokenInput, i: nat, h: Tensor)
      requires i < |decision|
      ensures var r := Phase(x, |layers| + 1 + i, h);
        AllDecision(decision[i..], x.markers, h) == if r.Ok? then AllDecision(decision[i + 1..], x.markers, r.value) else r
    {
      assert decision[i..][1..] == decision[i + 1..];
    }

    lemma {:induction false} DecisionLeft(x: TokenInput, i: nat, h: Tensor)
      requires i <= |decision| && At(x, |layers| + 1 + i) == Ok(h)
      ensures At(x, |layers| + 1 + |decision|) == AllDecision(decision[i..], x.markers, h)
      decreases |decision| - i
    {
      hide At, Phase;
      if i < |decision| {
        hide AllDecision;
        DecisionStep(x, i, h);
        AtNext(x, |layers| + 1 + i, h);
        if At(x, |layers| + 2 + i).Ok? {
          DecisionLeft(x, i + 1, At(x, |layers| + 2 + i).value);
        } else {
          AtStuck(x, |layers| + 2 + i, |layers| + 1 + |decision|);
        }
      }
    }

    /** The computation the phases cut up: every layer once and in order, the last decision layer on the markers only. */
    function Pipeline(x: TokenInput): Fallible<Tensor> {
      var embedded :- embed(x.inputIds);
      var encoded :- AllLayers(layers, embedded);
      var normed :- finalNorm(encoded, x.qtypeId);
      var decided :- AllDecision(decision, x.markers, normed);
      scorer(decided)
    }

    lemma PhasesArePipeline(x: TokenInput)
      ensures HiddenAt(AsEngine(), x, InferenceSteps()) == Pipeline(x)
    {
      First(x);
      hide AsEngine, HiddenAt, AllLayers, AllDecision;
      var h := At(x, 0);
      if h.Err? {
        AtStuck(x, 0, InferenceSteps());
        return;
      }
      assert layers[0..] == layers && decision[0..] == decision;
      LayersLeft(x, 0, h.value);
      h := At(x, |layers|);
      if h.Err? {
        AtStuck(x, |layers|, InferenceSteps());
        return;
      }
      AtNext(x, |layers|, h.value);
      h := At(x, |layers| + 1);
      if h.Err? {
        AtStuck(x, |layers| + 1, InferenceSteps());
        return;
      }
      DecisionLeft(x, 0, h.value);
      h := At(x, InferenceSteps() - 1);
      if h.Err? {
        AtStuck(x, InferenceSteps() - 1, InferenceSteps());
      } else {
        AtNext(x, InferenceSteps() - 1, h.value);
      }
    }

    /** `forward_tensor`: the direct computation, layer list by layer list. */
    method ForwardTensor(x: TokenInput) returns (r: Fallible<Tensor>)
      ensures r == HiddenAt(AsEngine(), x, InferenceSteps())
    {
      hide AsEngine, HiddenAt;
      First(x);
      r := embed(x.inputIds);
      if r.Err? {
        return;
      }
      for i := 0 to |layers|
        invariant r.Ok? && r == HiddenAt(AsEngine(), x, i)
      {
        Next(x, i, r.value);
        r := layers[i](r.value);
        if r.Err? {
          return;
        }
      }
      Next(x, |layers|, r.value);
      r := finalNorm(r.value, x.qtypeId);
      if r.Err? {
        return;
      }
      for i := 0 to |decision|
        invariant r.Ok? && r == HiddenAt(AsEngine(), x, |layers| + 1 + i)
      {
        Next(x, |layers| + 1 + i, r.value);
        r := if i + 1 == |decision| then decision[i].forwardMarkers(r.value, x.markers) else decision[i].forward(r.value);
        if r.Err? {
          return;
        }
      }
      Next(x, InferenceSteps() - 1, r.value);
      r := scorer(r.value);
    }

    /** `infer` */
    method InferDirect(x: TokenInput) returns (r: Fallible<seq<U32>>)
      ensures r == Infer(AsEngine(), x)
    {
      var valid := ValidateInput(x);
      if valid.Err? {
        return Err(valid.error);
      }
      var h := ForwardTensor(x);
      if h.Err? {
        return Err(h.error);
      }
      hide HiddenAt, ValidateInput;
      r := if AllFinite(h.value.values) then Ok(h.value.values) else Err(Numeric);
    }
  }
}
