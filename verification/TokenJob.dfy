/**
 The engine's in-memory job (canisters/decision-engine/src/lib.rs): update calls advance one
 session by batches, an exact retry of the last call replays its result, and a start call is
 idempotent under its request id.
 */
module TokenJobs {
  import opened Arithmetic
  import opened Wrappers
  import opened Numbers
  import opened Canonical
  import opened Types
  import opened Inference

  datatype InferenceProgress = InferenceProgress(
    job: Digest, completed: nat, total: nat, logits: Option<seq<U32>>, instructions: U64, cumulative: U64)

  /** What a start request is remembered by; the source keeps its hash. */
  datatype Fingerprint = Fingerprint(input: TokenInput, maxSteps: nat, bundle: Bytes32)
  datatype StartRequest = StartRequest(id: Digest, fingerprint: Fingerprint, result: InferenceProgress)

  /** The fields of a job, as a value. */
  datatype Job<H> = Job(
    id: Digest, session: Session<H>, instructions: U64, total: nat, last: Option<InferenceProgress>,
    lastRequest: Option<(nat, nat)>, start: Option<StartRequest>)

  function Saturate(n: nat): U64 {
    if n < TWO_64 then n else TWO_64 - 1
  }

  // ----- advance ----------------------------------------------------------------------------------

  function AdvanceJob<H>(j: Job<H>, e: Engine<H>, job: Digest, expected: nat, maxSteps: nat, cost: U64): (Job<H>, Fallible<InferenceProgress>) {
    if !(1 <= maxSteps <= 16) then (j, Err(Invalid("max_steps must be 1..=16")))
    else if j.id != job then (j, Err(BindingMismatch))
    else if j.lastRequest == Some((expected, maxSteps)) then
      (j, if j.last.Some? then Ok(j.last.value) else Err(Transition))
    else if j.session.next != expected then (j, Err(BindingMismatch))
    else if expected >= j.total then (j, Err(Transition))
    else
      match Steps(e, j.session, Min(maxSteps, j.total - expected))
      case Err(error) => (j, Err(error))
      case Ok((session, logits)) =>
        var cumulative := Saturate(j.instructions + cost);
        var p := InferenceProgress(job, session.next, j.total, logits, cost, cumulative);
        (j.(session := session, instructions := cumulative, last := Some(p), lastRequest := Some((expected, maxSteps))), Ok(p))
  }

  class TokenJob<H> {
    const id: Digest
    const total: nat
    var session: Session<H>
    var instructions: U64
    var last: Option<InferenceProgress>
    var lastRequest: Option<(nat, nat)>
    var start: Option<StartRequest>

    constructor (id: Digest, session: Session<H>, instructions: U64, total: nat)
      ensures View() == Job(id, session, instructions, total, None, None, None)
    {
      this.id, this.session, this.instructions, this.total := id, session, instructions, total;
      last, lastRequest, start := None, None, None;
    }

    ghost function View(): Job<H>
      reads this
    {
      Job(id, session, instructions, total, last, lastRequest, start)
    }

    method Advance(e: Engine<H>, job: Digest, expected: nat, maxSteps: nat, cost: U64) returns (r: Fallible<InferenceProgress>)
      modifies this
      ensures (View(), r) == AdvanceJob(old(View()), e, job, expected, maxSteps, cost)
    {
      if !(1 <= maxSteps <= 16) {
        return Err(Invalid("max_steps must be 1..=16"));
      }
      if id != job {
        return Err(BindingMismatch);
      }
      if lastRequest == Some((expected, maxSteps)) {
        return if last.Some? then Ok(last.value) else Err(Transition);
      }
      if session.next != expected {
        return Err(BindingMismatch);
      }
      if expected >= total {
        return Err(Transition);
      }
      var done := RunSteps(e, session, Min(maxSteps, total - expected));
      if done.Err? {
        return Err(done.error);
      }
      var cumulative := Saturate(instructions + cost);
      var p := InferenceProgress(job, done.value.0.next, total, done.value.1, cost, cumulative);
      session, instructions := done.value.0, cumulative;
      last, lastRequest := Some(p), Some((expected, maxSteps));
      r := Ok(p);
    }

    method ReplayStart(request: Digest, f: Fingerprint) returns (r: Fallible<Option<InferenceProgress>>)
      ensures r == Replay(Some(View()), request, f)
    {
      r := Ok(None);
      if start.Some? && start.value.id == request {
        r := if start.value.fingerprint == f then Ok(Some(start.value.result)) else Err(IdConflict);
      }
    }
  }

  // ----- what a job always is -----------------------------------------------------------------------

  /** A report of the computation of `x`: logits exactly when it is complete, and then the right ones. */
  ghost predicate TrueReport<H>(e: Engine<H>, x: TokenInput, p: InferenceProgress) {
    && p.total == e.steps && p.completed <= e.steps
    && (p.logits.Some? <==> p.completed == e.steps)
    && (p.logits.Some? ==> Infer(e, x) == Ok(p.logits.value))
  }

  /** The job holds the computation of `x` stopped after exactly `completed` phases, and remembers its calls truly. */
  ghost predicate JobOk<H>(e: Engine<H>, x: TokenInput, j: Job<H>) {
    && Reached(e, x, j.session) && j.total == e.steps && (j.last.Some? <==> j.lastRequest.Some?)
    && (j.last.None? ==> j.session.next == 0)
    && (j.last.Some? ==>
          var expected, maxSteps := j.lastRequest.value.0, j.lastRequest.value.1;
          && TrueReport(e, x, j.last.value) && j.last.value.job == j.id && j.last.value.completed == j.session.next
          && 1 <= maxSteps <= 16 && expected < e.steps && j.session.next == Min(expected + maxSteps, e.steps))
    && (j.start.Some? ==>
          && TrueReport(e, x, j.start.value.result) && j.start.value.result.job == j.id
          && j.start.value.fingerprint.input == x && j.start.value.fingerprint.bundle == e.bundle)
  }

  lemma NewJobOk<H>(e: Engine<H>, x: TokenInput, id: Digest, cost: U64)
    requires Begin(e, x).Ok?
    ensures JobOk(e, x, Job(id, Begin(e, x).value, cost, e.steps, None, None, None))
  {
    BeginReaches(e, x);
  }

  /** A request for the current step is never taken for a replay of an earlier one. */
  lemma FreshIsNotReplay<H>(e: Engine<H>, x: TokenInput, j: Job<H>, maxSteps: nat)
    requires JobOk(e, x, j)
    ensures j.lastRequest != Some((j.session.next, maxSteps))
  {
  }

  /** Every call keeps the job true; a failing call changes nothing; a successful one reports exactly the phases asked for. */
  lemma AdvanceKeeps<H>(e: Engine<H>, x: TokenInput, j: Job<H>, job: Digest, expected: nat, maxSteps: nat, cost: U64)
    requires JobOk(e, x, j)
    ensures var after, r := AdvanceJob(j, e, job, expected, maxSteps, cost).0, AdvanceJob(j, e, job, expected, maxSteps, cost).1;
      && JobOk(e, x, after) && after.id == j.id && after.start == j.start && j.session.next <= after.session.next
      && (r.Err? ==> after == j)
      && (r.Ok? ==>
            && TrueReport(e, x, r.value) && r.value.job == j.id && after.last == Some(r.value)
            && expected < e.steps && r.value.completed == Min(expected + maxSteps, e.steps) == after.session.next)
      && (r.Ok? && expected != j.session.next ==> after == j)
  {
    if expected < j.total && j.session.next == expected {
      StepsReach(e, x, j.session, Min(maxSteps, j.total - expected));
    }
    hide Reached, Infer, Steps;
  }

  /** An exact retry of a successful call returns the identical report and leaves the job alone. */
  lemma RetryReplays<H>(e: Engine<H>, j: Job<H>, job: Digest, expected: nat, maxSteps: nat, cost: U64, again: U64)
    requires AdvanceJob(j, e, job, expected, maxSteps, cost).1.Ok?
    ensures var first := AdvanceJob(j, e, job, expected, maxSteps, cost);
      AdvanceJob(first.0, e, job, expected, maxSteps, again) == first
  {
    hide Steps;
  }

  /** A stale or early request is refused. */
  lemma StaleIsRefused<H>(e: Engine<H>, x: TokenInput, j: Job<H>, job: Digest, expected: nat, maxSteps: nat, cost: U64)
    requires JobOk(e, x, j) && expected != j.session.next && j.lastRequest != Some((expected, maxSteps))
    ensures AdvanceJob(j, e, job, expected, maxSteps, cost).0 == j && AdvanceJob(j, e, job, expected, maxSteps, cost).1.Err?
  {
    hide Steps;
  }

  /** Where the uninterrupted computation succeeds, a well-formed call for the current step never fails. */
  lemma FreshSucceeds<H>(e: Engine<H>, x: TokenInput, j: Job<H>, maxSteps: nat, cost: U64)
    requires JobOk(e, x, j) && Infer(e, x).Ok? && 1 <= maxSteps <= 16 && j.session.next < e.steps
    ensures AdvanceJob(j, e, j.id, j.session.next, maxSteps, cost).1.Ok?
  {
    StepsSucceed(e, x, j.session, Min(maxSteps, j.total - j.session.next));
    hide Reached, Infer, Steps;
  }

  /** A job of one model is never advanced by another. */
  lemma ForeignIsRefused<H>(e: Engine<H>, j: Job<H>, job: Digest, expected: nat, maxSteps: nat, cost: U64)
    requires e.bundle != j.session.bundle
    ensures AdvanceJob(j, e, job, expected, maxSteps, cost).0 == j
    ensures var r := AdvanceJob(j, e, job, expected, maxSteps, cost).1;
      r.Ok? ==> j.lastRequest == Some((expected, maxSteps)) && j.last == Some(r.value) && j.id == job
  {
    if 1 <= maxSteps && expected < j.total {
      ForeignSteps(e, j.session, Min(maxSteps, j.total - expected));
    }
    hide Steps;
  }

  lemma {:induction false} ForeignSteps<H>(e: Engine<H>, s: Session<H>, k: nat)
    requires e.bundle != s.bundle && k > 0
    ensures Steps(e, s, k) == Err(BindingMismatch)
  {
    if k > 1 {
      ForeignSteps(e, s, k - 1);
    } else {
      assert Steps(e, s, 0) == Ok((s, None));
    }
  }

  // ----- the endpoints --------------------------------------------------------------------------------

  function Replay<H>(slot: Option<Job<H>>, request: Digest, f: Fingerprint): Fallible<Option<InferenceProgress>> {
    if slot.Some? && slot.value.start.Some? && slot.value.start.value.id == request then
      if slot.value.start.value.fingerprint == f then Ok(Some(slot.value.start.value.result)) else Err(IdConflict)
    else Ok(None)
  }

  /** `start_token_inference`; `id` is the fresh job id it derives, `cost` what the counter measures. */
  function StartOne<H>(slot: Option<Job<H>>, model: Option<Engine<H>>, id: Digest, x: TokenInput, cost: U64)
    : (Option<Job<H>>, Fallible<InferenceProgress>)
  {
    if model.None? then (slot, Err(ModelUnavailable("model is cold")))
    else if Begin(model.value, x).Err? then (slot, Err(Begin(model.value, x).error))
    else
      var e := model.value;
      (Some(Job(id, Begin(e, x).value, cost, e.steps, None, None, None)), Ok(InferenceProgress(id, 0, e.steps, None, cost, cost)))
  }

  /** `start_token_inference_batch` */
  function StartBatch<H>(slot: Option<Job<H>>, model: Option<Engine<H>>, id: Digest, x: TokenInput, request: Digest, maxSteps: nat,
                         begin: U64, cost: U64)
    : (Option<Job<H>>, Fallible<InferenceProgress>)
  {
    if !(1 <= maxSteps <= 16) then (slot, Err(Invalid("max_steps must be 1..=16")))
    else if model.None? then (slot, Err(ModelUnavailable("model is cold")))
    else
      var e, f := model.value, Fingerprint(x, maxSteps, model.value.bundle);
      if Replay(slot, request, f).Err? then (slot, Err(Replay(slot, request, f).error))
      else if Replay(slot, request, f).value.Some? then (slot, Ok(Replay(slot, request, f).value.value))
      else if Begin(e, x).Err? then (slot, Err(Begin(e, x).error))
      else
        var first := AdvanceJob(Job(id, Begin(e, x).value, begin, e.steps, None, None, None), e, id, 0, maxSteps, cost);
        if first.1.Err? then (slot, Err(first.1.error))
        else
          var p := first.1.value.(instructions := first.1.value.cumulative);
          (Some(first.0.(last := Some(p), start := Some(StartRequest(request, f, p)))), Ok(p))
  }

  /** `advance_token_job` */
  function AdvanceSlot<H>(slot: Option<Job<H>>, model: Option<Engine<H>>, job: Digest, expected: nat, maxSteps: nat, cost: U64)
    : (Option<Job<H>>, Fallible<InferenceProgress>)
  {
    if slot.None? then (slot, Err(NotFound))
    else if model.None? then (slot, Err(ModelUnavailable("model is cold")))
    else
      var done := AdvanceJob(slot.value, model.value, job, expected, maxSteps, cost);
      (Some(done.0), done.1)
  }

  /** `token_inference_status` */
  function Status<H>(slot: Option<Job<H>>): Fallible<InferenceProgress> {
    if slot.None? then Err(NotFound)
    else if slot.value.last.Some? then Ok(slot.value.last.value)
    else Ok(InferenceProgress(slot.value.id, 0, slot.value.total, None, slot.value.instructions, slot.value.instructions))
  }

  class Inferences<H> {
    var job: TokenJob?<H>

    ghost function Slot(): Option<Job<H>>
      reads this, job
    {
      if job == null then None else Some(job.View())
    }

    method StartTokenInference(model: Option<Engine<H>>, id: Digest, x: TokenInput, cost: U64) returns (r: Fallible<InferenceProgress>)
      modifies this
      ensures (Slot(), r) == StartOne(old(Slot()), model, id, x, cost)
    {
      if model.None? {
        return Err(ModelUnavailable("model is cold"));
      }
      var session := Begin(model.value, x);
      if session.Err? {
        return Err(session.error);
      }
      job := new TokenJob(id, session.value, cost, model.value.steps);
      r := Ok(InferenceProgress(id, 0, model.value.steps, None, cost, cost));
    }

    method StartTokenInferenceBatch(model: Option<Engine<H>>, id: Digest, x: TokenInput, request: Digest, maxSteps: nat, begin: U64, cost: U64)
      returns (r: Fallible<InferenceProgress>)
      modifies this
      ensures (Slot(), r) == StartBatch(old(Slot()), model, id, x, request, maxSteps, begin, cost)
    {
      hide AdvanceJob;
      if !(1 <= maxSteps <= 16) {
        return Err(Invalid("max_steps must be 1..=16"));
      }
      if model.None? {
        return Err(ModelUnavailable("model is cold"));
      }
      var e, f := model.value, Fingerprint(x, maxSteps, model.value.bundle);
      if job != null {
        var replay := job.ReplayStart(request, f);
        if replay.Err? {
          return Err(replay.error);
        }
        if replay.value.Some? {
          return Ok(replay.value.value);
        }
      }
      var session := Begin(e, x);
      if session.Err? {
        return Err(session.error);
      }
      var made := new TokenJob(id, session.value, begin, e.steps);
      var first := made.Advance(e, id, 0, maxSteps, cost);
      if first.Err? {
        return first;
      }
      var p := first.value.(instructions := first.value.cumulative);
      made.last, made.start := Some(p), Some(StartRequest(request, f, p));
      job := made;
      r := Ok(p);
    }

    method AdvanceTokenJob(model: Option<Engine<H>>, id: Digest, expected: nat, maxSteps: nat, cost: U64)
      returns (r: Fallible<InferenceProgress>)
      modifies job
      ensures job == old(job) && (Slot(), r) == AdvanceSlot(old(Slot()), model, id, expected, maxSteps, cost)
    {
      if job == null {
        return Err(NotFound);
      }
      if model.None? {
        return Err(ModelUnavailable("model is cold"));
      }
      r := job.Advance(model.value, id, expected, maxSteps, cost);
    }

    method TokenInferenceStatus() returns (r: Fallible<InferenceProgress>)
      ensures r == Status(Slot())
    {
      if job == null {
        return Err(NotFound);
      }
      r := if job.last.Some? then Ok(job.last.value)
           else Ok(InferenceProgress(job.id, 0, job.total, None, job.instructions, job.instructions));
    }
  }

  // ----- any sequence of events -----------------------------------------------------------------------

  /** The models there are, by bundle. */
  ghost predicate Library<H>(models: Bytes32 -> Engine<H>) {
    forall b: Bytes32 :: models(b).bundle == b && models(b).steps > 0
  }

  datatype Memory<H> = Memory(model: Option<Bytes32>, slot: Option<Job<H>>)

  /** Any call, and what replaces the model: an upload or a warmup drops it with the job, a finished warmup loads one. */
  datatype Event =
    | One(id: Digest, x: TokenInput, cost: U64)
    | Batch(id: Digest, x: TokenInput, request: Digest, maxSteps: nat, begin: U64, cost: U64)
    | Advance(job: Digest, expected: nat, maxSteps: nat, cost: U64)
    | Ask
    | Unload
    | Load(bundle: Bytes32)

  function Loaded<H>(models: Bytes32 -> Engine<H>, m: Memory<H>): Option<Engine<H>> {
    if m.model.Some? then Some(models(m.model.value)) else None
  }

  function Next<H>(models: Bytes32 -> Engine<H>, m: Memory<H>, ev: Event): (Memory<H>, Option<Fallible<InferenceProgress>>) {
    var e := Loaded(models, m);
    match ev
    case One(id, x, cost) =>
      var s := StartOne(m.slot, e, id, x, cost);
      (m.(slot := s.0), Some(s.1))
    case Batch(id, x, request, maxSteps, begin, cost) =>
      var s := StartBatch(m.slot, e, id, x, request, maxSteps, begin, cost);
      (m.(slot := s.0), Some(s.1))
    case Advance(job, expected, maxSteps, cost) =>
      var s := AdvanceSlot(m.slot, e, job, expected, maxSteps, cost);
      (m.(slot := s.0), Some(s.1))
    case Ask => (m, Some(Status(m.slot)))
    case Unload => (Memory(None, None), None)
    case Load(b) => (m.(model := Some(b)), None)
  }

  function Play<H>(models: Bytes32 -> Engine<H>, m: Memory<H>, events: seq<Event>): Memory<H> {
    if events == [] then m
    else Next(models, Play(models, m, events[..|events| - 1]), events[|events| - 1]).0
  }

  /** The job is true of its own input under its own model, whatever model is loaded now. */
  ghost predicate MemoryOk<H>(models: Bytes32 -> Engine<H>, m: Memory<H>) {
    m.slot.Some? ==> JobOk(models(m.slot.value.session.bundle), m.slot.value.session.input, m.slot.value)
  }

  /** A reply is about the job in the slot and true of it; a start reports on the input it was given. */
  ghost predicate ReplyOk<H>(models: Bytes32 -> Engine<H>, m: Memory<H>, ev: Event, after: Memory<H>, p: InferenceProgress) {
    && after.slot.Some? && p.job == after.slot.value.id
    && TrueReport(models(after.slot.value.session.bundle), after.slot.value.session.input, p)
    && (ev.One? || ev.Batch? ==> after.slot.value.session.input == ev.x && m.model == Some(after.slot.value.session.bundle))
    && (ev.Advance? ==> m.slot.Some? && SameJob(m.slot.value, after.slot.value))
  }

  predicate SameJob<H>(j: Job<H>, k: Job<H>) {
    k.id == j.id && k.session.input == j.session.input && k.session.bundle == j.session.bundle && j.session.next <= k.session.next
  }

  lemma OneOk<H>(models: Bytes32 -> Engine<H>, m: Memory<H>, ev: Event)
    requires Library(models) && MemoryOk(models, m) && ev.One?
    ensures var r := Next(models, m, ev);
      MemoryOk(models, r.0) && (r.1.value.Ok? ==> ReplyOk(models, m, ev, r.0, r.1.value.value)) && (r.1.value.Err? ==> r.0 == m)
  {
    if m.model.Some? && Begin(models(m.model.value), ev.x).Ok? {
      NewJobOk(models(m.model.value), ev.x, ev.id, ev.cost);
      BeginReaches(models(m.model.value), ev.x);
    }
    hide Begin, Infer;
  }

  lemma BatchOk<H>(models: Bytes32 -> Engine<H>, m: Memory<H>, ev: Event)
    requires Library(models) && MemoryOk(models, m) && ev.Batch?
    ensures var r := Next(models, m, ev);
      MemoryOk(models, r.0) && (r.1.value.Ok? ==> ReplyOk(models, m, ev, r.0, r.1.value.value)) && (r.1.value.Err? ==> r.0 == m)
  {
    if m.model.Some? && Begin(models(m.model.value), ev.x).Ok? {
      var e := models(m.model.value);
      NewJobOk(e, ev.x, ev.id, ev.begin);
      AdvanceKeeps(e, ev.x, Job(ev.id, Begin(e, ev.x).value, ev.begin, e.steps, None, None, None), ev.id, 0, ev.maxSteps, ev.cost);
    }
    hide Begin, Infer, Steps;
  }

  lemma AdvanceOk<H>(models: Bytes32 -> Engine<H>, m: Memory<H>, ev: Event)
    requires Library(models) && MemoryOk(models, m) && ev.Advance?
    ensures var r := Next(models, m, ev);
      MemoryOk(models, r.0) && (r.1.value.Ok? ==> ReplyOk(models, m, ev, r.0, r.1.value.value)) && (r.1.value.Err? ==> r.0 == m)
  {
    if m.model.Some? && m.slot.Some? {
      var e, j := models(m.model.value), m.slot.value;
      if e.bundle == j.session.bundle {
        AdvanceKeeps(e, j.session.input, j, ev.job, ev.expected, ev.maxSteps, ev.cost);
      } else {
        ForeignIsRefused(e, j, ev.job, ev.expected, ev.maxSteps, ev.cost);
      }
    }
    hide AdvanceJob, Infer;
  }

  lemma NextOk<H>(models: Bytes32 -> Engine<H>, m: Memory<H>, ev: Event)
    requires Library(models) && MemoryOk(models, m)
    ensures var r := Next(models, m, ev);
      && MemoryOk(models, r.0)
      && (r.1.Some? && r.1.value.Ok? ==> ReplyOk(models, m, ev, r.0, r.1.value.value))
      && (r.1.Some? && r.1.value.Err? ==> r.0 == m)
  {
    if ev.One? {
      OneOk(models, m, ev);
      hide *;
    } else if ev.Batch? {
      BatchOk(models, m, ev);
      hide *;
    } else if ev.Advance? {
      AdvanceOk(models, m, ev);
      hide *;
    } else {
      hide Infer, HiddenAt;
    }
  }

  lemma {:induction false} PlayOk<H>(models: Bytes32 -> Engine<H>, m: Memory<H>, events: seq<Event>)
    requires Library(models) && MemoryOk(models, m)
    ensures MemoryOk(models, Play(models, m, events))
  {
    hide MemoryOk, Next, Library, ReplyOk;
    if events != [] {
      PlayOk(models, m, events[..|events| - 1]);
      NextOk(models, Play(models, m, events[..|events| - 1]), events[|events| - 1]);
    }
  }

  /**
   Whatever starts, steps, batches, retries, stale and failing calls are made, in whatever order and across whatever
   changes of model: the job holds the computation of its input under its model stopped after exactly the phases it
   reports, any logits ever returned are those of the uninterrupted computation, and a failing call changes nothing.
   */
  lemma AnyCallsGiveTheDirectAnswer<H>(models: Bytes32 -> Engine<H>, events: seq<Event>, ev: Event)
    requires Library(models)
    ensures var m := Play(models, Memory(None, None), events);
      var r := Next(models, m, ev);
      && MemoryOk(models, m) && MemoryOk(models, r.0)
      && (r.1.Some? && r.1.value.Ok? ==> ReplyOk(models, m, ev, r.0, r.1.value.value))
      && (r.1.Some? && r.1.value.Err? ==> r.0 == m)
  {
    PlayOk(models, Memory(None, None), events);
    NextOk(models, Play(models, Memory(None, None), events), ev);
    hide *;
  }

  // ----- starting twice -------------------------------------------------------------------------------

  /**
   The batch start is idempotent: after a job was started, and any steps, questions and changes of model that leave
   it there, the same start returns the same report and changes nothing; the same id with another input, width or
   model is a conflict.
   */
  lemma StartIsIdempotent<H>(models: Bytes32 -> Engine<H>, m: Memory<H>, first: Event, events: seq<Event>, again: Event)
    requires Library(models) && first.Batch? && again.Batch? && again.request == first.request && 1 <= again.maxSteps <= 16
    requires m.slot.None? || m.slot.value.start.None? || m.slot.value.start.value.id != first.request
    requires Next(models, m, first).1.value.Ok?
    requires forall i | 0 <= i < |events| :: events[i].Advance? || events[i].Ask? || events[i].Load?
    ensures var now := Play(models, Next(models, m, first).0, events);
      && now.model.Some?
      && Next(models, now, again) ==
         (now, Some(if again.x == first.x && again.maxSteps == first.maxSteps && now.model == m.model
                    then Next(models, m, first).1.value else Err(IdConflict)))
  {
    BatchIsRemembered(models, m, first);
    PlayKeepsStart(models, Next(models, m, first).0, events);
    hide StartBatch, Play;
    StartReplays(models, Play(models, Next(models, m, first).0, events), again);
    hide Next;
  }

  /** What a start that was not a replay leaves behind. */
  lemma BatchIsRemembered<H>(models: Bytes32 -> Engine<H>, m: Memory<H>, ev: Event)
    requires Library(models) && ev.Batch? && Next(models, m, ev).1.value.Ok?
    requires m.slot.None? || m.slot.value.start.None? || m.slot.value.start.value.id != ev.request
    ensures var r := Next(models, m, ev);
      && m.model.Some? && r.0.model == m.model && r.0.slot.Some?
      && r.0.slot.value.start == Some(StartRequest(ev.request, Fingerprint(ev.x, ev.maxSteps, m.model.value), r.1.value.value))
  {
    hide AdvanceJob, Begin;
  }

  lemma StartReplays<H>(models: Bytes32 -> Engine<H>, m: Memory<H>, ev: Event)
    requires Library(models) && ev.Batch? && 1 <= ev.maxSteps <= 16 && m.model.Some? && m.slot.Some?
    requires m.slot.value.start.Some? && m.slot.value.start.value.id == ev.request
    ensures Next(models, m, ev) ==
            (m, Some(if m.slot.value.start.value.fingerprint == Fingerprint(ev.x, ev.maxSteps, m.model.value)
                     then Ok(m.slot.value.start.value.result) else Err(IdConflict)))
  {
    hide AdvanceJob, Begin;
  }

  lemma {:induction false} PlayKeepsStart<H>(models: Bytes32 -> Engine<H>, m: Memory<H>, events: seq<Event>)
    requires m.slot.Some? && m.model.Some?
    requires forall i | 0 <= i < |events| :: events[i].Advance? || events[i].Ask? || events[i].Load?
    ensures var now := Play(models, m, events);
      now.slot.Some? && now.model.Some? && now.slot.value.start == m.slot.value.start
  {
    if events != [] {
      PlayKeepsStart(models, m, events[..|events| - 1]);
      hide Steps;
    }
  }

  // ----- what a job has cost --------------------------------------------------------------------------

  /** What the job in the slot has cost: its start, and every call since that did any work. */
  ghost function Worked<H(!new)>(models: Bytes32 -> Engine<H>, events: seq<Event>): nat {
    if events == [] then 0 else
    var front, last := events[..|events| - 1], events[|events| - 1];
    var m := Play(models, Memory(None, None), front);
    if Next(models, m, last).0.slot == m.slot then Worked(models, front) else
    match last
    case One(_, _, cost) => cost
    case Batch(_, _, _, _, begin, cost) => begin + cost
    case Advance(_, _, _, cost) => Worked(models, front) + cost
    case _ => 0
  }

  ghost predicate Costs<H>(m: Memory<H>, total: nat) {
    m.slot.Some? ==>
      && m.slot.value.instructions == Saturate(total)
      && (m.slot.value.last.Some? ==> m.slot.value.last.value.cumulative == Saturate(total))
  }

  lemma NextCosts<H>(models: Bytes32 -> Engine<H>, m: Memory<H>, ev: Event, before: nat)
    requires Costs(m, before)
    ensures var t := Next(models, m, ev).0;
      t.slot != m.slot ==>
        Costs(t, match ev
                 case One(_, _, cost) => cost
                 case Batch(_, _, _, _, begin, cost) => begin + cost
                 case Advance(_, _, _, cost) => before + cost
                 case _ => 0)
  {
    hide Steps, Begin;
  }

  /** The reported total is the sum of what the calls cost, saturating: replays, refusals and questions add nothing. */
  lemma {:induction false} CostsAddUp<H(!new)>(models: Bytes32 -> Engine<H>, events: seq<Event>)
    ensures Costs(Play(models, Memory(None, None), events), Worked(models, events))
  {
    hide Next, Costs;
    if events != [] {
      var front, last := events[..|events| - 1], events[|events| - 1];
      CostsAddUp(models, front);
      var m := Play(models, Memory(None, None), front);
      NextCosts(models, m, last, Worked(models, front));
      SameSlotCosts(m, Next(models, m, last).0, Worked(models, front));
    } else {
      NothingCosts<H>();
    }
  }

  lemma NothingCosts<H>()
    ensures Costs(Memory<H>.Memory(None, None), 0)
  {
  }

  lemma SameSlotCosts<H>(m: Memory<H>, t: Memory<H>, total: nat)
    requires Costs(m, total)
    ensures t.slot == m.slot ==> Costs(t, total)
  {
  }

  // ----- every computation that succeeds can be run ------------------------------------------------------

  lemma SuccessBegins<H>(e: Engine<H>, x: TokenInput)
    requires Infer(e, x).Ok?
    ensures Begin(e, x).Ok?
  {
    if HiddenAt(e, x, 0).Err? {
      Stuck(e, x, 0, e.steps);
    }
  }

  /** The slot holds a job with this id and input under this model, stopped after `n` phases. */
  ghost predicate Holds<H>(models: Bytes32 -> Engine<H>, m: Memory<H>, b: Bytes32, id: Digest, x: TokenInput, n: nat) {
    && m.model == Some(b) && m.slot.Some? && m.slot.value.id == id
    && m.slot.value.session.bundle == b && m.slot.value.session.input == x && m.slot.value.session.next == n
    && JobOk(models(b), x, m.slot.value)
  }

  /** A plain start always takes the slot, whatever is in it. */
  lemma OneStarts<H>(models: Bytes32 -> Engine<H>, m: Memory<H>, b: Bytes32, id: Digest, x: TokenInput, cost: U64)
    requires Library(models) && m.model == Some(b) && Infer(models(b), x).Ok?
    ensures var r := Next(models, m, One(id, x, cost));
      && r.1 == Some(Ok(InferenceProgress(id, 0, models(b).steps, None, cost, cost))) && Holds(models, r.0, b, id, x, 0)
  {
    SuccessBegins(models(b), x);
    NewJobOk(models(b), x, id, cost);
    BeginReaches(models(b), x);
    hide Begin, Infer;
  }

  /** So does a batch start under a new request id, after exactly the phases asked for. */
  lemma BatchStarts<H>(models: Bytes32 -> Engine<H>, m: Memory<H>, b: Bytes32, id: Digest, x: TokenInput, request: Digest,
                       maxSteps: nat, begin: U64, cost: U64)
    requires Library(models) && m.model == Some(b) && Infer(models(b), x).Ok? && 1 <= maxSteps <= 16
    requires m.slot.Some? && m.slot.value.start.Some? ==> m.slot.value.start.value.id != request
    ensures var r := Next(models, m, Batch(id, x, request, maxSteps, begin, cost));
      && r.1.Some? && r.1.value.Ok? && r.1.value.value.job == id && r.1.value.value.completed == Min(maxSteps, models(b).steps)
      && Holds(models, r.0, b, id, x, Min(maxSteps, models(b).steps))
      && Reported(models(b), x, r.0, Min(maxSteps, models(b).steps))
  {
    var e := models(b);
    SuccessBegins(e, x);
    NewJobOk(e, x, id, begin);
    BeginReaches(e, x);
    var j := Job(id, Begin(e, x).value, begin, e.steps, None, None, None);
    FreshSucceeds(e, x, j, maxSteps, cost);
    AdvanceKeeps(e, x, j, id, 0, maxSteps, cost);
    hide Begin, Infer, AdvanceJob, Reached;
  }

  /** One call for the current step. */
  lemma CallAdvances<H>(models: Bytes32 -> Engine<H>, m: Memory<H>, b: Bytes32, id: Digest, x: TokenInput, n: nat, width: nat, cost: U64)
    requires Library(models) && Holds(models, m, b, id, x, n) && Infer(models(b), x).Ok? && 1 <= width <= 16 && n < models(b).steps
    ensures var r := Next(models, m, Advance(id, n, width, cost));
      && r.1.Some? && r.1.value.Ok? && r.1.value.value.completed == Min(n + width, models(b).steps)
      && (n + width >= models(b).steps ==> r.1.value.value.logits == Some(Infer(models(b), x).value))
      && Holds(models, r.0, b, id, x, Min(n + width, models(b).steps)) && r.0.slot.value.last == Some(r.1.value.value)
      && Reported(models(b), x, r.0, Min(n + width, models(b).steps))
  {
    var e, j := models(b), m.slot.value;
    FreshSucceeds(e, x, j, width, cost);
    AdvanceKeeps(e, x, j, id, n, width, cost);
    AdvanceBundle(e, j, id, n, width, cost);
    hide Infer, AdvanceJob, Reached;
  }

  lemma AdvanceBundle<H>(e: Engine<H>, j: Job<H>, job: Digest, expected: nat, maxSteps: nat, cost: U64)
    requires e.bundle == j.session.bundle
    ensures var k := AdvanceJob(j, e, job, expected, maxSteps, cost).0;
      k.session.bundle == j.session.bundle && k.session.input == j.session.input
  {
    StepsBundle(e, j.session, if expected <= j.total then Min(maxSteps, j.total - expected) else 0);
  }

  lemma {:induction false} StepsBundle<H>(e: Engine<H>, s: Session<H>, k: nat)
    ensures Steps(e, s, k).Ok? ==> Steps(e, s, k).value.0.bundle == s.bundle && Steps(e, s, k).value.0.input == s.input
  {
    if k > 0 {
      StepsBundle(e, s, k - 1);
    }
  }

  /** Where a job at step `n` stands after these calls. */
  function Covered(n: nat, steps: nat, events: seq<Event>): nat {
    if events == [] then n else
    var last := events[|events| - 1];
    Min(Covered(n, steps, events[..|events| - 1]) + (if last.Advance? then last.maxSteps else 0), steps)
  }

  /** Calls of any widths, each for the step the job is at. */
  ghost predicate CurrentCalls(id: Digest, n: nat, steps: nat, events: seq<Event>) {
    forall i | 0 <= i < |events| ::
      && events[i].Advance? && events[i].job == id && 1 <= events[i].maxSteps <= 16
      && events[i].expected == Covered(n, steps, events[..i])
  }

  /** What the job reports is the finished computation, if it is finished. */
  ghost predicate Reported<H>(e: Engine<H>, x: TokenInput, m: Memory<H>, n: nat)
    requires Infer(e, x).Ok?
  {
    n == e.steps ==>
      && m.slot.Some? && m.slot.value.last.Some? && m.slot.value.last.value.completed == e.steps
      && m.slot.value.last.value.logits == Some(Infer(e, x).value)
  }

  /** A call past the end changes nothing. */
  lemma PastTheEnd<H>(models: Bytes32 -> Engine<H>, m: Memory<H>, b: Bytes32, id: Digest, x: TokenInput, width: nat, cost: U64)
    requires Library(models) && Holds(models, m, b, id, x, models(b).steps)
    ensures Next(models, m, Advance(id, models(b).steps, width, cost)).0 == m
  {
    hide Steps, Reached, Infer;
  }

  lemma {:induction false} CallsCover<H>(models: Bytes32 -> Engine<H>, m: Memory<H>, b: Bytes32, id: Digest, x: TokenInput, n: nat,
                                         events: seq<Event>)
    requires Library(models) && Holds(models, m, b, id, x, n) && Infer(models(b), x).Ok? && n <= models(b).steps
    requires CurrentCalls(id, n, models(b).steps, events) && Reported(models(b), x, m, n)
    ensures var now := Covered(n, models(b).steps, events);
      now <= models(b).steps && Holds(models, Play(models, m, events), b, id, x, now) && Reported(models(b), x, Play(models, m, events), now)
  {
    hide Holds, Library, Infer, Next;
    if events != [] {
      var front, last, e := events[..|events| - 1], events[|events| - 1], models(b);
      forall i | 0 <= i < |front| ensures front[..i] == events[..i] {
      }
      CallsCover(models, m, b, id, x, n, front);
      var at := Covered(n, e.steps, front);
      assert last == Advance(id, at, last.maxSteps, last.cost);
      if at < e.steps {
        CallAdvances(models, Play(models, m, front), b, id, x, at, last.maxSteps, last.cost);
      } else {
        PastTheEnd(models, Play(models, m, front), b, id, x, last.maxSteps, last.cost);
      }
    }
  }

  /**
   Whatever job was there before, finished or not: where direct inference succeeds, a plain start or a batch start
   under a new request id, followed by calls for the current step that cover the phases, ends in the direct logits.
   */
  lemma StartedRunsFinish<H>(models: Bytes32 -> Engine<H>, m: Memory<H>, b: Bytes32, start: Event, events: seq<Event>)
    requires Library(models) && m.model == Some(b) && (start.One? || start.Batch?) && Infer(models(b), start.x).Ok?
    requires start.Batch? ==> 1 <= start.maxSteps <= 16
    requires start.Batch? && m.slot.Some? && m.slot.value.start.Some? ==> m.slot.value.start.value.id != start.request
    requires var n := if start.Batch? then Min(start.maxSteps, models(b).steps) else 0;
      CurrentCalls(start.id, n, models(b).steps, events) && Covered(n, models(b).steps, events) == models(b).steps
    ensures var done := Play(models, Next(models, m, start).0, events);
      var reply := Next(models, done, Ask).1;
      && reply.Some? && reply.value.Ok? && reply.value.value.job == start.id
      && reply.value.value.completed == models(b).steps && reply.value.value.logits == Some(Infer(models(b), start.x).value)
  {
    var e, after := models(b), Next(models, m, start).0;
    var n := if start.Batch? then Min(start.maxSteps, e.steps) else 0;
    if start.Batch? {
      BatchStarts(models, m, b, start.id, start.x, start.request, start.maxSteps, start.begin, start.cost);
    } else {
      OneStarts(models, m, b, start.id, start.x, start.cost);
    }
    hide StartBatch, StartOne;
    CallsCover(models, after, b, start.id, start.x, n, events);
    hide Play, Infer, Reached;
  }
}
