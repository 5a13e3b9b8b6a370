/**
 The executor's workflow (crates/ic-laya-core/src/workflow.rs), on values: each entry point
 as a function from a state to the next state and the caller's result.
 */
module Workflow {
  import opened Arithmetic
  import opened Wrappers
  import opened Numbers
  import opened Canonical
  import opened Types
  import opened Icrc
  import Math
  import SchemaCompiler

  const MAX_REQUESTS: nat := 512
  const MAX_REGISTRY: nat := 64
  const TTL_NS: nat := 300_000_000_000
  const MOCK_DEDUP_WINDOW_NS: nat := 60_000_000_000

  datatype Mode = ReportOnlyMode | Shadow | Mock | LimitedLive
  datatype Rule =
    | NoulTrue(minimumPpm: U32)
    | ChoiceIs(optionId: Blob, minPpm: U32)
    | ScoreTailAtMost(firstBadBin: U32, maximumPpm: U32)
  datatype RequiredSignal = RequiredSignal(schema: CompiledSchema, calibration: Digest, rule: Rule)
  datatype Plan = Plan(id: Digest, version: U64, model: Digest, signals: seq<RequiredSignal>)
  datatype OperationStatus = Available | Reserved(holder: Digest) | Consumed(holder: Digest)
  datatype Operation = Operation(id: Digest, revision: U64, evidence: Blob, proposal: TransferProposal, status: OperationStatus)
  datatype Usage = Usage(spent: U128, reserved: U128)
  datatype Grant = Grant(
    id: Digest, revision: U64, delegate: Principal, plan: Digest, ledger: Principal, fromSubaccount: Bytes32,
    recipients: seq<Account>, maxAmount: U128, maxFee: U128, totalCap: U128, windowCap: U128,
    windowNs: U64, expiresAt: U64, revoked: bool, total: Usage, windows: map<U64, Usage>)
  datatype Review = EngineRetryLimit | RuleDidNotPass | EvaluationError(error: Error) | UpgradeInterrupted
  datatype Status =
    | Received | Evaluating | ReadyToDispatch | Reported | NeedsReview(why: Review) | StaleRequest | Cancelled
    | Submitted | UnknownOutcome(text: string) | Succeeded(index: string) | FailedDefinitive(text: string)
  datatype Pending = Pending(request: DecisionRequest, inFlight: bool, sends: nat)
  datatype Reservation = Reservation(charge: U128, epoch: U64)
  datatype RequestRecord = RequestRecord(
    id: Digest, caller: Principal, nonce: U64, operation: Digest, grant: Digest, plan: Digest,
    operationRevision: U64, grantRevision: U64, snapshot: Digest, expiresAt: U64,
    status: Status, receipts: seq<Receipt>, pending: Option<Pending>,
    reservation: Option<Reservation>, frozen: Option<FrozenTransfer>, ledgerAttempt: nat, everUnknown: bool)
  datatype DispatchCommand = DispatchCommand(request: Digest, attempt: nat, transfer: FrozenTransfer)
  datatype LedgerOutcome = Success(index: string) | AlreadyDone(index: string) | DefinitiveError(text: string) | Unknown(text: string)
  datatype AuthorizedTransfer = AuthorizedTransfer(request: Digest, snapshot: Digest)

  datatype Exec = Exec(
    instance: Principal, owner: Principal, mode: Mode, paused: bool,
    plans: map<Digest, Plan>, operations: map<Digest, Operation>, grants: map<Digest, Grant>,
    requests: map<Digest, RequestRecord>, nextNonce: map<Principal, U64>, mockLedgers: seq<Principal>)

  /** The state after a call, and what the caller gets. */
  datatype Step<+T> = Step(state: Exec, result: Fallible<T>)

  // ----- plans and grants -----------------------------------------------------------------

  predicate RuleFits(s: RequiredSignal) {
    var c := s.schema.schema;
    match s.rule
    case NoulTrue(m) => c.primitive == Noul && m <= PPM
    case ChoiceIs(o, m) => c.primitive == Choice && m <= PPM && exists i | 0 <= i < |c.options| :: c.options[i].id == o
    case ScoreTailAtMost(b, m) => c.primitive == Score && b < |c.options| && m <= PPM
  }

  function ValidateSignals(ss: seq<RequiredSignal>): Fallible<()> {
    if ss == [] then Ok(()) else
    var _ :- SchemaCompiler.ValidateCompiled(ss[0].schema);
    if ss[0].calibration == ZeroDigest() then Err(Uncalibrated)
    else if !RuleFits(ss[0]) then Err(Invalid("rule/schema mismatch"))
    else ValidateSignals(ss[1..])
  }

  function ValidatePlan(p: Plan): Fallible<()> {
    if p.version == 0 || p.id == ZeroDigest() || p.model == ZeroDigest() || p.signals == [] || |p.signals| > MAX_SLOTS then
      Err(Invalid("plan"))
    else ValidateSignals(p.signals)
  }

  function Eligible(g: Grant, caller: Principal, p: TransferProposal, now: U64): Fallible<()> {
    if caller != g.delegate || g.revoked || g.expiresAt <= now then Err(Unauthorized)
    else if g.ledger != p.ledger || g.fromSubaccount != p.fromSubaccount || p.to !in g.recipients
      || p.amount > g.maxAmount || p.fee > g.maxFee then Err(Denied("ledger/account/amount/fee"))
    else p.Validate()
  }

  function WindowOf(g: Grant, epoch: U64): Usage {
    if epoch in g.windows then g.windows[epoch] else Usage(0, 0)
  }

  function Reserve(g: Grant, charge: U128, epoch: U64): Fallible<Grant> {
    if epoch !in g.windows && |g.windows| >= 64 then Err(Capacity) else
    var window := WindowOf(g, epoch);
    var total := g.total.spent + g.total.reserved + charge;
    var win := window.spent + window.reserved + charge;
    if total >= TWO_128 || win >= TWO_128 || total > g.totalCap || win > g.windowCap then Err(Budget) else
    Ok(g.(total := g.total.(reserved := g.total.reserved + charge),
          windows := g.windows[epoch := Usage(window.spent, window.reserved + charge)]))
  }

  function Settle(g: Grant, charge: U128, epoch: U64, success: bool): Fallible<Grant> {
    if epoch !in g.windows || g.total.reserved < charge || g.windows[epoch].reserved < charge then Err(Storage) else
    var was := g.windows[epoch];
    var paid := if success then charge else 0;
    if g.total.spent + paid >= TWO_128 || was.spent + paid >= TWO_128 then Err(Budget) else
    Ok(g.(total := Usage(g.total.spent + paid, g.total.reserved - charge),
          windows := g.windows[epoch := Usage(was.spent + paid, was.reserved - charge)]))
  }

  // ----- identities -----------------------------------------------------------------------

  function WorkflowItems(instance: Principal, caller: Principal, nonce: U64): seq<Item> {
    [Text(instance), Text(caller), Num64(nonce)]
  }

  function RequestId(instance: Principal, caller: Principal, nonce: U64): Digest {
    Seal("ic-laya/workflow/v1", WorkflowItems(instance, caller, nonce))
  }

  function SignalItems(ss: seq<RequiredSignal>): (r: seq<Item>)
    ensures |r| == 2 * |ss| && forall i | 0 <= i < |r| :: r[i].Id?
  {
    if ss == [] then [] else [Id(ss[0].schema.schemaHash), Id(ss[0].calibration)] + SignalItems(ss[1..])
  }

  function SnapshotItems(o: Operation, g: Grant, p: Plan): seq<Item> {
    [Id(o.id), Num64(o.revision), Text(o.evidence), Id(ProposalDigest(o.proposal)),
     Id(g.id), Num64(g.revision), Id(p.id), Num64(p.version), Id(p.model)] + SignalItems(p.signals)
  }

  function Snapshot(o: Operation, g: Grant, p: Plan): Digest {
    Seal("ic-laya/snapshot/v1", SnapshotItems(o, g, p))
  }

  function SlotItems(request: Digest, slot: U64, snapshot: Digest): seq<Item> {
    [Id(request), Num64(slot), Id(snapshot)]
  }

  function SlotId(request: Digest, slot: U64, snapshot: Digest): Digest {
    Seal("ic-laya/slot/v1", SlotItems(request, slot, snapshot))
  }

  // ----- registration ---------------------------------------------------------------------

  function New(instance: Principal, owner: Principal): Exec {
    Exec(instance, owner, ReportOnlyMode, false, map[], map[], map[], map[], map[], [])
  }

  function AssertOwner(s: Exec, caller: Principal): Fallible<()> {
    if caller != s.owner || caller == ANONYMOUS then Err(Unauthorized) else Ok(())
  }

  function SetMode(s: Exec, caller: Principal, mode: Mode): Step<()> {
    if AssertOwner(s, caller).Err? then Step(s, Err(Unauthorized))
    else if mode == LimitedLive then Step(s, Err(LiveDisabled))
    else Step(s.(mode := mode), Ok(()))
  }

  function SetPaused(s: Exec, caller: Principal, pause: bool): Step<()> {
    if AssertOwner(s, caller).Err? then Step(s, Err(Unauthorized)) else Step(s.(paused := pause), Ok(()))
  }

  function InstallPlan(s: Exec, caller: Principal, p: Plan): Step<()> {
    if AssertOwner(s, caller).Err? then Step(s, Err(Unauthorized))
    else if ValidatePlan(p).Err? then Step(s, ValidatePlan(p))
    else if p.id in s.plans then Step(s, if s.plans[p.id] == p then Ok(()) else Err(IdConflict))
    else if |s.plans| >= MAX_REGISTRY then Step(s, Err(Capacity))
    else Step(s.(plans := s.plans[p.id := p]), Ok(()))
  }

  function InstallOperation(s: Exec, caller: Principal, o: Operation): Step<()> {
    if AssertOwner(s, caller).Err? then Step(s, Err(Unauthorized))
    else if o.proposal.Validate().Err? then Step(s, o.proposal.Validate())
    else if o.id == ZeroDigest() || o.revision == 0 || o.evidence == [] || |o.evidence| > MAX_STATE_BYTES
      || o.status != Available then Step(s, Err(Invalid("operation")))
    else if o.id in s.operations then Step(s, Err(IdConflict))
    else if |s.operations| >= MAX_REQUESTS then Step(s, Err(Capacity))
    else Step(s.(operations := s.operations[o.id := o]), Ok(()))
  }

  function ReviseOperation(s: Exec, caller: Principal, id: Digest, evidence: Blob): Step<()> {
    if AssertOwner(s, caller).Err? then Step(s, Err(Unauthorized))
    else if evidence == [] || |evidence| > MAX_STATE_BYTES then Step(s, Err(TooLong))
    else if id !in s.operations then Step(s, Err(NotFound))
    else
      var o := s.operations[id];
      if o.status != Available then Step(s, Err(OperationUsed))
      else if o.revision + 1 >= TWO_64 then Step(s, Err(Capacity))
      else Step(s.(operations := s.operations[id := o.(evidence := evidence, revision := o.revision + 1)]), Ok(()))
  }

  predicate GrantFieldsOk(g: Grant) {
    && g.id != ZeroDigest() && g.revision != 0 && g.delegate != ANONYMOUS && g.windowNs != 0
    && g.total == Usage(0, 0) && g.windows == map[] && !g.revoked && 1 <= |g.recipients| <= 16
    && g.maxAmount != 0 && g.totalCap != 0 && g.windowCap != 0
  }

  function InstallGrant(s: Exec, caller: Principal, g: Grant): Step<()> {
    if AssertOwner(s, caller).Err? then Step(s, Err(Unauthorized))
    else if !GrantFieldsOk(g) then Step(s, Err(Invalid("grant")))
    else if exists i | 0 <= i < |g.recipients| :: g.recipients[i].Validate().Err? then Step(s, Err(Invalid("recipient principal")))
    else if g.plan !in s.plans then Step(s, Err(NotFound))
    else if g.id in s.grants then Step(s, Err(IdConflict))
    else if |s.grants| >= MAX_REGISTRY then Step(s, Err(Capacity))
    else Step(s.(grants := s.grants[g.id := g]), Ok(()))
  }

  function Revoke(s: Exec, caller: Principal, id: Digest): Step<()> {
    if AssertOwner(s, caller).Err? then Step(s, Err(Unauthorized))
    else if id !in s.grants then Step(s, Err(NotFound))
    else
      var g := s.grants[id];
      if g.revision + 1 >= TWO_64 then Step(s, Err(Capacity))
      else Step(s.(grants := s.grants[id := g.(revoked := true, revision := g.revision + 1)]), Ok(()))
  }

  function RegisterMockLedger(s: Exec, caller: Principal, ledger: Principal): Step<()> {
    if AssertOwner(s, caller).Err? then Step(s, Err(Unauthorized))
    else if ledger in s.mockLedgers then Step(s, Ok(()))
    else if |s.mockLedgers| >= 8 then Step(s, Err(Capacity))
    else Step(s.(mockLedgers := s.mockLedgers + [ledger]), Ok(()))
  }

  // ----- submission -----------------------------------------------------------------------

  function NextNonce(s: Exec, caller: Principal): U64 {
    if caller in s.nextNonce then s.nextNonce[caller] else 0
  }

  /** An already consumed nonce: the same request again, a conflicting one, or nothing on record. */
  function Resubmit(s: Exec, id: Digest, operation: Digest, grant: Digest): Fallible<Digest> {
    if id !in s.requests then Err(NonceConsumed)
    else if s.requests[id].operation == operation && s.requests[id].grant == grant then Ok(id)
    else Err(IdConflict)
  }

  function NewRecord(s: Exec, caller: Principal, nonce: U64, o: Operation, g: Grant, p: Plan, now: U64): RequestRecord {
    RequestRecord(
      RequestId(s.instance, caller, nonce), caller, nonce, o.id, g.id, g.plan, o.revision, g.revision,
      Snapshot(o, g, p), Min(now + TTL_NS, g.expiresAt), Received, [], None, None, None, 0, false)
  }

  /** The checks of a fresh submission, in the source's order. */
  function Admit(s: Exec, caller: Principal, operation: Digest, grant: Digest, now: U64): Fallible<()> {
    if |s.requests| >= MAX_REQUESTS || (caller !in s.nextNonce && |s.nextNonce| >= MAX_REGISTRY) then Err(Capacity)
    else if grant !in s.grants || operation !in s.operations then Err(NotFound) else
    var g, o := s.grants[grant], s.operations[operation];
    var _ :- Eligible(g, caller, o.proposal, now);
    if o.status != Available then Err(OperationUsed)
    else if g.plan !in s.plans then Err(NotFound)
    else if now + TTL_NS >= TWO_64 then Err(Expired)
    else if NextNonce(s, caller) + 1 >= TWO_64 then Err(Capacity)
    else Ok(())
  }

  /** `operation` and `grant` are the keys looked up, as the record stores them. */
  function Submit(s: Exec, caller: Principal, nonce: U64, operation: Digest, grant: Digest, now: U64): Step<Digest> {
    if s.paused then Step(s, Err(Denied("paused")))
    else if caller == ANONYMOUS then Step(s, Err(Unauthorized)) else
    var next, id := NextNonce(s, caller), RequestId(s.instance, caller, nonce);
    if nonce < next then Step(s, Resubmit(s, id, operation, grant))
    else if nonce > next then Step(s, Err(NonceGap)) else
    match Admit(s, caller, operation, grant, now)
    case Err(e) => Step(s, Err(e))
    case Ok(_) =>
      var g, o := s.grants[grant], s.operations[operation];
      var r := NewRecord(s, caller, nonce, o, g, s.plans[g.plan], now).(operation := operation, grant := grant);
      Step(s.(requests := s.requests[id := r], nextNonce := s.nextNonce[caller := next + 1]), Ok(id))
  }

  function Owned(s: Exec, caller: Principal, id: Digest): Fallible<RequestRecord> {
    if id !in s.requests then Err(NotFound)
    else if caller != s.requests[id].caller && caller != s.owner then Err(Unauthorized)
    else Ok(s.requests[id])
  }

  /** The request still describes the operation, grant and plan it was submitted against. */
  function Current(s: Exec, r: RequestRecord, now: U64): Fallible<()> {
    if s.paused then Err(Denied("paused"))
    else if now >= r.expiresAt then Err(Expired)
    else if r.operation !in s.operations || r.grant !in s.grants || r.plan !in s.plans then Err(NotFound) else
    var o, g, p := s.operations[r.operation], s.grants[r.grant], s.plans[r.plan];
    var _ :- Eligible(g, r.caller, o.proposal, now);
    if o.revision != r.operationRevision || g.revision != r.grantRevision || Snapshot(o, g, p) != r.snapshot then Err(Stale)
    else Ok(())
  }

  function PutAt(s: Exec, id: Digest, r: RequestRecord): Exec {
    s.(requests := s.requests[id := r])
  }

  // ----- evaluation -----------------------------------------------------------------------

  function SlotRequest(s: Exec, id: Digest, r: RequestRecord): DecisionRequest
    requires r.plan in s.plans && r.operation in s.operations && |r.receipts| < |s.plans[r.plan].signals| && |r.receipts| < 256
  {
    var p, slot := s.plans[r.plan], |r.receipts|;
    var required := p.signals[slot];
    DecisionRequest(
      SlotId(id, slot, r.snapshot), required.schema.schemaHash, p.model, Some(required.calibration),
      Some(Binding(id, slot, 0, r.snapshot)), s.operations[r.operation].evidence, r.expiresAt)
  }

  function Stalled(r: RequestRecord): RequestRecord {
    r.(status := StaleRequest, pending := None)
  }

  function Resent(r: RequestRecord): RequestRecord
    requires r.pending.Some?
  {
    r.(pending := Some(r.pending.value.(inFlight := true, sends := r.pending.value.sends + 1)))
  }

  function Asked(r: RequestRecord, req: DecisionRequest): RequestRecord {
    r.(pending := Some(Pending(req, true, 1)), status := Evaluating)
  }

  function BeginEvaluation(s: Exec, caller: Principal, id: Digest, now: U64): Step<DecisionRequest> {
    match Owned(s, caller, id)
    case Err(e) => Step(s, Err(e))
    case Ok(r) =>
      if r.status != Received && r.status != Evaluating then Step(s, Err(Transition)) else
      match Current(s, r, now)
      case Err(e) => Step(PutAt(s, id, Stalled(r)), Err(e))
      case Ok(_) =>
        match r.pending
        case Some(p) =>
          if p.inFlight then Step(s, Err(Busy))
          else if p.sends >= 2 then Step(s, Err(Capacity))
          else Step(PutAt(s, id, Resent(r)), Ok(p.request))
        case None =>
          if |r.receipts| >= |s.plans[r.plan].signals| || |r.receipts| >= 256 then Step(s, Err(Transition)) else
          var req := SlotRequest(s, id, r);
          Step(PutAt(s, id, Asked(r, req)), Ok(req))
  }

  function Unsent(r: RequestRecord): RequestRecord
    requires r.pending.Some?
  {
    if r.pending.value.sends >= 2 then r.(status := NeedsReview(EngineRetryLimit), pending := None)
    else r.(pending := Some(r.pending.value.(inFlight := false)))
  }

  function EngineTransportFailed(s: Exec, id: Digest, evalId: Digest): Step<()> {
    if id !in s.requests then Step(s, Err(NotFound)) else
    var r := s.requests[id];
    if r.status != Evaluating || r.pending.None? then Step(s, Err(Transition)) else
    var p := r.pending.value;
    if p.request.evaluationId != evalId then Step(s, Err(BindingMismatch))
    else Step(PutAt(s, id, Unsent(r)), Ok(()))
  }

  function ExpectedStamp(s: RequiredSignal, req: DecisionRequest, backend: BackendKind): Stamp {
    Stamp(req.evaluationId, s.schema.schemaHash, s.schema.tokenizerHash, req.model, req.calibration, req.binding,
          StateHash(req.state), PROFILE, backend)
  }

  function CheckRule(s: RequiredSignal, receipt: Receipt): Fallible<bool> {
    match receipt.outcome
    case Abstained(_) => Ok(false)
    case Failed(e) => Err(e)
    case Assessed(v) =>
      var d :- Math.ValidateValue(s.schema.schema, v);
      var g := Math.Diagnose(d);
      if receipt.diagnostics != Some(g) then Err(BindingMismatch) else
      match s.rule
      case NoulTrue(m) => Ok(d[1] >= m && !g.tied)
      case ChoiceIs(o, m) => Ok(s.schema.schema.options[Math.ArgMax(d)].id == o && d[Math.ArgMax(d)] >= m && !g.tied)
      case ScoreTailAtMost(b, m) =>
        var t :- Math.Tail(d, b);
        Ok(t <= m)
  }

  /** The slot's receipt is the one asked for, and whether it passes the slot's rule. */
  function Judge(s: RequiredSignal, req: DecisionRequest, result: Fallible<Receipt>): Fallible<bool> {
    var receipt :- result;
    if receipt.stamp != ExpectedStamp(s, req, receipt.stamp.backend)
      || receipt.inputTokens == 0 || receipt.inputTokens > MAX_TOKENS then Err(BindingMismatch)
    else CheckRule(s, receipt)
  }

  function KnownReceipt(r: RequestRecord, evalId: Digest, n: nat): Option<Receipt>
    requires n <= |r.receipts|
    decreases |r.receipts| - n
  {
    if n == |r.receipts| then None
    else if r.receipts[n].stamp.evaluationId == evalId then Some(r.receipts[n])
    else KnownReceipt(r, evalId, n + 1)
  }

  /** The record after the slot's verdict. */
  function Verdict(r: RequestRecord, signals: nat, result: Fallible<Receipt>, verdict: Fallible<bool>): RequestRecord
    requires verdict.Ok? ==> result.Ok?
  {
    match verdict
    case Err(e) => r.(pending := None, status := NeedsReview(EvaluationError(e)))
    case Ok(pass) =>
      var receipts := r.receipts + [result.value];
      r.(pending := None, receipts := receipts,
         status := if !pass then NeedsReview(RuleDidNotPass) else if |receipts| == signals then ReadyToDispatch else Received)
  }

  function FinishEvaluation(s: Exec, id: Digest, evalId: Digest, result: Fallible<Receipt>, now: U64): Step<Status> {
    if id !in s.requests then Step(s, Err(NotFound)) else
    var r := s.requests[id];
    if result.Ok? && KnownReceipt(r, evalId, 0).Some? then
      Step(s, if KnownReceipt(r, evalId, 0).value == result.value then Ok(r.status) else Err(IdConflict))
    else if r.status != Evaluating || r.pending.None? then Step(s, Err(Transition))
    else if r.pending.value.request.evaluationId != evalId then Step(s, Err(BindingMismatch)) else
    match Current(s, r, now)
    case Err(e) => Step(PutAt(s, id, Stalled(r)), Err(e))
    case Ok(_) =>
      var signals := s.plans[r.plan].signals;
      if |r.receipts| >= |signals| then Step(s, Err(NotFound)) else
      var verdict := Judge(signals[|r.receipts|], r.pending.value.request, result);
      var done := Verdict(r, |signals|, result, verdict);
      Step(PutAt(s, id, done), Ok(done.status))
  }

  // ----- dispatch -------------------------------------------------------------------------

  predicate ReceiptBound(p: Plan, id: Digest, r: RequestRecord, i: nat)
    requires i < |p.signals| && i < |r.receipts| && i < 256
  {
    var s, v := p.signals[i], r.receipts[i];
    && v.stamp.binding == Some(Binding(id, i, 0, r.snapshot)) && v.stamp.model == p.model
    && v.stamp.schemaHash == s.schema.schemaHash && v.stamp.calibration == Some(s.calibration)
  }

  /** The receipts, re-checked in slot order. */
  function CheckReceipts(p: Plan, id: Digest, r: RequestRecord, i: nat): Fallible<()>
    requires i <= |p.signals| == |r.receipts|
    decreases |p.signals| - i
  {
    if i == |p.signals| then Ok(())
    else if i >= 256 || !ReceiptBound(p, id, r, i) then Err(BindingMismatch) else
    var pass :- CheckRule(p.signals[i], r.receipts[i]);
    if !pass then Err(BindingMismatch) else CheckReceipts(p, id, r, i + 1)
  }

  function Authorize(s: Exec, caller: Principal, id: Digest, now: U64): Fallible<AuthorizedTransfer> {
    var r :- Owned(s, caller, id);
    var _ :- Current(s, r, now);
    if r.status != ReadyToDispatch || r.pending.Some? then Err(Transition) else
    var p := s.plans[r.plan];
    if |r.receipts| != |p.signals| then Err(BindingMismatch) else
    var _ :- CheckReceipts(p, id, r, 0);
    if s.operations[r.operation].status != Available then Err(OperationUsed)
    else Ok(AuthorizedTransfer(id, r.snapshot))
  }

  /** Window lengths are checked at installation; `now / window_ns` relies on it. */
  predicate Windowed(s: Exec) {
    forall g | g in s.grants :: s.grants[g].windowNs > 0
  }

  function OnlyReported(r: RequestRecord): RequestRecord {
    r.(status := Reported)
  }

  function Sent(r: RequestRecord, op: Operation, charge: U128, epoch: U64, now: U64): RequestRecord {
    r.(reservation := Some(Reservation(charge, epoch)), frozen := Some(FrozenTransfer(op.proposal, r.id, now)),
       status := Submitted, ledgerAttempt := 1)
  }

  /** The record, operation and grant once `charge` is set aside for this request. */
  function Commit(s: Exec, r: RequestRecord, op: Operation, grant: Grant, charge: U128, epoch: U64, now: U64): Exec {
    s.(grants := s.grants[grant.id := grant],
       operations := s.operations[op.id := op.(status := Reserved(r.id))],
       requests := s.requests[r.id := Sent(r, op, charge, epoch, now)])
  }

  /** Mock mode: the ledger must be registered and the charge must fit the grant's budgets. */
  function Budgeted(s: Exec, r: RequestRecord, now: U64): Fallible<(Grant, U128, U64)>
    requires Windowed(s)
  {
    if r.operation !in s.operations then Err(NotFound) else
    var op := s.operations[r.operation];
    if op.proposal.ledger !in s.mockLedgers then Err(Denied("unregistered mock ledger"))
    else if r.grant !in s.grants then Err(NotFound) else
    var charge :- op.proposal.Charge();
    var epoch := Epoch(now, s.grants[r.grant].windowNs);
    var reserved :- Reserve(s.grants[r.grant], charge, epoch);
    Ok((reserved, charge, epoch))
  }

  function PrepareDispatch(s: Exec, a: AuthorizedTransfer, now: U64): Step<DispatchCommand>
    requires Windowed(s)
  {
    if a.request !in s.requests then Step(s, Err(NotFound)) else
    var r := s.requests[a.request];
    var again := Authorize(s, r.caller, r.id, now);
    if again.Err? then Step(s, Err(again.error))
    else if a.snapshot != r.snapshot then Step(s, Err(BindingMismatch))
    else if s.mode == ReportOnlyMode || s.mode == Shadow then Step(PutAt(s, r.id, OnlyReported(r)), Err(ReportOnly))
    else if s.mode == LimitedLive then Step(s, Err(LiveDisabled)) else
    match Budgeted(s, r, now)
    case Err(e) => Step(s, Err(e))
    case Ok((reserved, charge, epoch)) =>
      var op := s.operations[r.operation];
      Step(Commit(s, r, op, reserved, charge, epoch, now), Ok(DispatchCommand(r.id, 1, FrozenTransfer(op.proposal, r.id, now))))
  }

  function Epoch(now: U64, windowNs: U64): U64
    requires windowNs > 0
  {
    now / windowNs
  }

  function Settled(r: RequestRecord, success: bool, text: string): RequestRecord {
    r.(reservation := None, status := if success then Succeeded(text) else FailedDefinitive(text))
  }

  function SettleRecord(s: Exec, r: RequestRecord, success: bool, text: string): Step<Status> {
    if r.reservation.None? || r.grant !in s.grants || r.operation !in s.operations then Step(s, Err(Storage)) else
    var g, o := s.grants[r.grant], s.operations[r.operation];
    if o.status != Reserved(r.id) then Step(s, Err(Storage)) else
    match Settle(g, r.reservation.value.charge, r.reservation.value.epoch, success)
    case Err(e) => Step(s, Err(e))
    case Ok(settled) =>
      var status := if success then Succeeded(text) else FailedDefinitive(text);
      Step(s.(grants := s.grants[settled.id := settled],
              operations := s.operations[o.id := o.(status := if success then Consumed(r.id) else Available)],
              requests := s.requests[r.id := Settled(r, success, text)]), Ok(status))
  }

  predicate BlockIndex(index: string) {
    1 <= |index| <= 128 && forall i | 0 <= i < |index| :: '0' <= index[i] <= '9'
  }

  function FinishLedger(s: Exec, cmd: DispatchCommand, outcome: LedgerOutcome): Step<Status> {
    if cmd.request !in s.requests then Step(s, Err(NotFound)) else
    var r := s.requests[cmd.request];
    if r.frozen != Some(cmd.transfer) || cmd.attempt == 0 || cmd.attempt > r.ledgerAttempt then Step(s, Err(BindingMismatch))
    else if r.status.Succeeded? then Step(s, Ok(r.status))
    else if r.status != Submitted && !r.status.UnknownOutcome? then Step(s, Err(Transition)) else
    match outcome
    case Success(index) => if BlockIndex(index) then SettleRecord(s, r, true, index) else Step(s, Err(Invalid("block index")))
    case AlreadyDone(index) => if BlockIndex(index) then SettleRecord(s, r, true, index) else Step(s, Err(Invalid("block index")))
    case DefinitiveError(e) =>
      if !r.everUnknown && cmd.attempt == r.ledgerAttempt then SettleRecord(s, r, false, e) else MarkUnknown(s, r, e)
    case Unknown(e) => MarkUnknown(s, r, e)
  }

  function Doubted(r: RequestRecord, text: string): RequestRecord {
    r.(everUnknown := true, status := UnknownOutcome(text))
  }

  function MarkUnknown(s: Exec, r: RequestRecord, text: string): Step<Status> {
    Step(PutAt(s, r.id, Doubted(r, text)), Ok(UnknownOutcome(text)))
  }

  function Retried(r: RequestRecord): RequestRecord {
    r.(ledgerAttempt := r.ledgerAttempt + 1, status := Submitted)
  }

  function RetryUnknown(s: Exec, caller: Principal, id: Digest, now: U64): Step<DispatchCommand> {
    match Owned(s, caller, id)
    case Err(e) => Step(s, Err(e))
    case Ok(r) =>
      var current := Current(s, r, now);
      if current.Err? then Step(s, Err(current.error))
      else if s.mode != Mock || !r.status.UnknownOutcome? || r.ledgerAttempt >= 2 then Step(s, Err(Transition))
      else if r.frozen.None? then Step(s, Err(Storage)) else
      var frozen := r.frozen.value;
      if now < frozen.createdAt || now - frozen.createdAt > MOCK_DEDUP_WINDOW_NS then Step(s, Err(Expired))
      else Step(PutAt(s, id, Retried(r)),
                Ok(DispatchCommand(id, r.ledgerAttempt + 1, frozen)))
  }

  function Dropped(r: RequestRecord): RequestRecord {
    r.(pending := None, status := Cancelled)
  }

  function Cancel(s: Exec, caller: Principal, id: Digest): Step<()> {
    match Owned(s, caller, id)
    case Err(e) => Step(s, Err(e))
    case Ok(r) =>
      if r.frozen.Some? || r.reservation.Some? then Step(s, Err(OutcomeUnknown))
      else Step(PutAt(s, id, Dropped(r)), Ok(()))
  }

  function Recovered(r: RequestRecord): RequestRecord {
    if r.status == Evaluating then r.(status := NeedsReview(UpgradeInterrupted), pending := None)
    else if r.status == Submitted then r.(status := UnknownOutcome("upgrade interrupted callback"), everUnknown := true)
    else r
  }

  function RecoveredAll(rs: map<Digest, RequestRecord>): map<Digest, RequestRecord> {
    map id | id in rs :: Recovered(rs[id])
  }

  function RecoverAfterUpgrade(s: Exec): Exec {
    s.(paused := true, requests := RecoveredAll(s.requests))
  }

  /** The command `reconcile_mock` builds from the record it reads. */
  function ReconcileCommand(s: Exec, caller: Principal, id: Digest): Fallible<DispatchCommand> {
    var r :- Owned(s, caller, id);
    if r.status != Submitted && !r.status.UnknownOutcome? then Err(Transition)
    else if r.frozen.None? then Err(Storage)
    else if r.frozen.value.proposal.ledger !in s.mockLedgers then Err(Unauthorized)
    else Ok(DispatchCommand(id, r.ledgerAttempt, r.frozen.value))
  }

  // ----- identities are unambiguous -------------------------------------------------------

  /** Distinct (instance, caller, nonce) triples name distinct requests, hence distinct memos. */
  lemma RequestIdInjective(i: Principal, c: Principal, n: U64, i': Principal, c': Principal, n': U64)
    requires RequestId(i, c, n) == RequestId(i', c', n')
    ensures i == i' && c == c' && n == n'
  {
    hide Seal;
    var x, y := WorkflowItems(i, c, n), WorkflowItems(i', c', n');
    SealInjective("ic-laya/workflow/v1", x, y);
    assert x[0] == y[0] && x[1] == y[1] && x[2] == y[2];
  }

  lemma SlotIdInjective(r: Digest, k: U64, s: Digest, r': Digest, k': U64, s': Digest)
    requires SlotId(r, k, s) == SlotId(r', k', s')
    ensures r == r' && k == k' && s == s'
  {
    hide Seal;
    var x, y := SlotItems(r, k, s), SlotItems(r', k', s');
    SealInjective("ic-laya/slot/v1", x, y);
    assert x[0] == y[0] && x[1] == y[1] && x[2] == y[2];
  }

  lemma SnapshotShape(o: Operation, g: Grant, p: Plan)
    ensures var x := SnapshotItems(o, g, p);
      && |x| == 9 + 2 * |p.signals|
      && x[0] == Id(o.id) && x[1] == Num64(o.revision) && x[2] == Text(o.evidence) && x[3] == Id(ProposalDigest(o.proposal))
      && x[4] == Id(g.id) && x[5] == Num64(g.revision) && x[6] == Id(p.id) && x[7] == Num64(p.version) && x[8] == Id(p.model)
      && x[9..] == SignalItems(p.signals) && forall i | 9 <= i < |x| :: x[i].Id?
  {
    hide ProposalDigest;
    var x := SnapshotItems(o, g, p);
    forall i | 9 <= i < |x| ensures x[i].Id? {
      assert x[i] == SignalItems(p.signals)[i - 9];
    }
  }

  /** A snapshot commits to everything it hashes, including the uncounted list of signals. */
  lemma SnapshotInjective(o: Operation, g: Grant, p: Plan, o': Operation, g': Grant, p': Plan)
    requires Snapshot(o, g, p) == Snapshot(o', g', p')
    ensures o.id == o'.id && o.revision == o'.revision && o.evidence == o'.evidence && o.proposal == o'.proposal
    ensures g.id == g'.id && g.revision == g'.revision
    ensures p.id == p'.id && p.version == p'.version && p.model == p'.model
    ensures SignalItems(p.signals) == SignalItems(p'.signals)
  {
    SnapshotShape(o, g, p);
    SnapshotShape(o', g', p');
    hide Seal, ProposalDigest, SnapshotItems, SignalItems;
    SealInjective("ic-laya/snapshot/v1", SnapshotItems(o, g, p), SnapshotItems(o', g', p'));
    ProposalDigestInjective(o.proposal, o'.proposal);
  }
}
