/**
 The executor canister's state object, updated in place
 (crates/ic-laya-core/src/workflow.rs, `ExecutorState`). Every method is proved against the
 function of the same purpose in `Workflow` and keeps the inductive invariant.
 */
module Executor {
  import opened Arithmetic
  import opened Wrappers
  import opened Numbers
  import opened Canonical
  import opened Types
  import opened Icrc
  import opened Workflow
  import opened WorkflowInvariant
  import opened WorkflowSteps
  import W = Workflow
  import WI = WorkflowInvariant

  class ExecutorState {
    const instance: Principal
    const owner: Principal
    var mode: Mode
    var paused: bool
    var plans: map<Digest, Plan>
    var operations: map<Digest, Operation>
    var grants: map<Digest, Grant>
    var requests: map<Digest, RequestRecord>
    var nextNonce: map<Principal, U64>
    var mockLedgers: seq<Principal>

    ghost function View(): Exec
      reads this
    {
      Exec(instance, owner, mode, paused, plans, operations, grants, requests, nextNonce, mockLedgers)
    }

    ghost predicate Valid()
      reads this
    {
      Inv(View())
    }

    constructor (instance: Principal, owner: Principal)
      ensures Valid() && View() == New(instance, owner)
    {
      this.instance, this.owner, mode, paused := instance, owner, ReportOnlyMode, false;
      plans, operations, grants, requests, nextNonce, mockLedgers := map[], map[], map[], map[], map[], [];
      new;
      NewOk(instance, owner);
    }

    method RequireOwner(caller: Principal) returns (r: Fallible<()>)
      ensures r == AssertOwner(View(), caller)
    {
      r := if caller != owner || caller == ANONYMOUS then Err(Unauthorized) else Ok(());
    }

    method SetMode(caller: Principal, m: Mode) returns (r: Fallible<()>)
      requires Valid()
      modifies this
      ensures Valid() && Step(View(), r) == W.SetMode(old(View()), caller, m)
    {
      hide Inv;
      SettingsKeep(View(), m, paused, mockLedgers);
      var allowed := RequireOwner(caller);
      if allowed.Err? { return Err(allowed.error); }
      if m == LimitedLive { return Err(LiveDisabled); }
      mode := m;
      r := Ok(());
    }

    method SetPaused(caller: Principal, pause: bool) returns (r: Fallible<()>)
      requires Valid()
      modifies this
      ensures Valid() && Step(View(), r) == W.SetPaused(old(View()), caller, pause)
    {
      hide Inv;
      SettingsKeep(View(), mode, pause, mockLedgers);
      var allowed := RequireOwner(caller);
      if allowed.Err? { return Err(allowed.error); }
      paused := pause;
      r := Ok(());
    }

    method InstallPlan(caller: Principal, p: Plan) returns (r: Fallible<()>)
      requires Valid()
      modifies this
      ensures Valid() && Step(View(), r) == W.InstallPlan(old(View()), caller, p)
    {
      hide Inv, ValidatePlan;
      InstallPlanKeeps(View(), caller, p);
      var allowed := RequireOwner(caller);
      if allowed.Err? { return Err(allowed.error); }
      var valid := ValidatePlan(p);
      if valid.Err? { return valid; }
      if p.id in plans { return if plans[p.id] == p then Ok(()) else Err(IdConflict); }
      if |plans| >= MAX_REGISTRY { return Err(Capacity); }
      plans := plans[p.id := p];
      r := Ok(());
    }

    method InstallOperation(caller: Principal, o: Operation) returns (r: Fallible<()>)
      requires Valid()
      modifies this
      ensures Valid() && Step(View(), r) == W.InstallOperation(old(View()), caller, o)
    {
      hide Inv;
      InstallOperationKeeps(View(), caller, o);
      var allowed := RequireOwner(caller);
      if allowed.Err? { return Err(allowed.error); }
      var valid := o.proposal.Validate();
      if valid.Err? { return valid; }
      if o.id == ZeroDigest() || o.revision == 0 || o.evidence == [] || |o.evidence| > MAX_STATE_BYTES || o.status != Available {
        return Err(Invalid("operation"));
      }
      if o.id in operations { return Err(IdConflict); }
      if |operations| >= MAX_REQUESTS { return Err(Capacity); }
      operations := operations[o.id := o];
      r := Ok(());
    }

    method InstallGrant(caller: Principal, g: Grant) returns (r: Fallible<()>)
      requires Valid()
      modifies this
      ensures Valid() && Step(View(), r) == W.InstallGrant(old(View()), caller, g)
    {
      hide Inv, GrantFieldsOk;
      InstallGrantKeeps(View(), caller, g);
      var allowed := RequireOwner(caller);
      if allowed.Err? { return Err(allowed.error); }
      if !GrantFieldsOk(g) { return Err(Invalid("grant")); }
      for i := 0 to |g.recipients|
        invariant forall k | 0 <= k < i :: g.recipients[k].Validate().Ok?
      {
        if g.recipients[i].Validate().Err? { return Err(Invalid("recipient principal")); }
      }
      if g.plan !in plans { return Err(NotFound); }
      if g.id in grants { return Err(IdConflict); }
      if |grants| >= MAX_REGISTRY { return Err(Capacity); }
      grants := grants[g.id := g];
      r := Ok(());
    }

    method RegisterMockLedger(caller: Principal, ledger: Principal) returns (r: Fallible<()>)
      requires Valid()
      modifies this
      ensures Valid() && Step(View(), r) == W.RegisterMockLedger(old(View()), caller, ledger)
    {
      hide Inv;
      SettingsKeep(View(), mode, paused, mockLedgers + [ledger]);
      var allowed := RequireOwner(caller);
      if allowed.Err? { return Err(allowed.error); }
      if ledger in mockLedgers { return Ok(()); }
      if |mockLedgers| >= 8 { return Err(Capacity); }
      mockLedgers := mockLedgers + [ledger];
      r := Ok(());
    }

    method ReviseOperation(caller: Principal, id: Digest, evidence: Blob) returns (r: Fallible<()>)
      requires Valid()
      modifies this
      ensures Valid() && Step(View(), r) == W.ReviseOperation(old(View()), caller, id, evidence)
    {
      hide Inv;
      ReviseOperationKeeps(View(), caller, id, evidence);
      var allowed := RequireOwner(caller);
      if allowed.Err? { return Err(allowed.error); }
      if evidence == [] || |evidence| > MAX_STATE_BYTES { return Err(TooLong); }
      if id !in operations { return Err(NotFound); }
      var o := operations[id];
      if o.status != Available { return Err(OperationUsed); }
      if o.revision + 1 >= TWO_64 { return Err(Capacity); }
      operations := operations[id := o.(evidence := evidence, revision := o.revision + 1)];
      r := Ok(());
    }

    method Revoke(caller: Principal, id: Digest) returns (r: Fallible<()>)
      requires Valid()
      modifies this
      ensures Valid() && Step(View(), r) == W.Revoke(old(View()), caller, id)
    {
      hide Inv;
      RevokeKeeps(View(), caller, id);
      var allowed := RequireOwner(caller);
      if allowed.Err? { return Err(allowed.error); }
      if id !in grants { return Err(NotFound); }
      var g := grants[id];
      if g.revision + 1 >= TWO_64 { return Err(Capacity); }
      grants := grants[id := g.(revoked := true, revision := g.revision + 1)];
      r := Ok(());
    }

    /** The checks of a submission that consumes a fresh nonce. */
    method CheckAdmission(caller: Principal, operation: Digest, grant: Digest, now: U64) returns (r: Fallible<()>)
      ensures r == Admit(View(), caller, operation, grant, now)
    {
      hide Eligible;
      if |requests| >= MAX_REQUESTS || (caller !in nextNonce && |nextNonce| >= MAX_REGISTRY) { return Err(Capacity); }
      if grant !in grants || operation !in operations { return Err(NotFound); }
      var g, o := grants[grant], operations[operation];
      var eligible := Eligible(g, caller, o.proposal, now);
      if eligible.Err? { return Err(eligible.error); }
      if o.status != Available { return Err(OperationUsed); }
      if g.plan !in plans { return Err(NotFound); }
      if now + TTL_NS >= TWO_64 { return Err(Expired); }
      if (if caller in nextNonce then nextNonce[caller] else 0) + 1 >= TWO_64 { return Err(Capacity); }
      r := Ok(());
    }

    method Submit(caller: Principal, nonce: U64, operation: Digest, grant: Digest, now: U64) returns (r: Fallible<Digest>)
      requires Valid()
      modifies this
      ensures Valid() && Step(View(), r) == W.Submit(old(View()), caller, nonce, operation, grant, now)
      ensures r != Err(NonceConsumed)
    {
      hide Inv, RequestId, Snapshot, Admit;
      SubmitKeeps(View(), caller, nonce, operation, grant, now);
      NonceConsumedUnreachable(View(), caller, nonce, operation, grant, now);
      if paused { return Err(Denied("paused")); }
      if caller == ANONYMOUS { return Err(Unauthorized); }
      var next := if caller in nextNonce then nextNonce[caller] else 0;
      var id := RequestId(instance, caller, nonce);
      if nonce < next {
        if id !in requests { return Err(NonceConsumed); }
        if requests[id].operation == operation && requests[id].grant == grant { return Ok(id); }
        return Err(IdConflict);
      }
      if nonce > next { return Err(NonceGap); }
      var admitted := CheckAdmission(caller, operation, grant, now);
      if admitted.Err? { return Err(admitted.error); }
      AdmittedFields(View(), caller, operation, grant, now);
      var g, o := grants[grant], operations[operation];
      var p := plans[g.plan];
      var record := RequestRecord(
        id, caller, nonce, operation, grant, g.plan, o.revision, g.revision, Snapshot(o, g, p),
        Min(now + TTL_NS, g.expiresAt), Received, [], None, None, None, 0, false);
      requests := requests[id := record];
      nextNonce := nextNonce[caller := next + 1];
      r := Ok(id);
    }

    lemma AdmittedFields(s: Exec, caller: Principal, operation: Digest, grant: Digest, now: U64)
      requires Admit(s, caller, operation, grant, now).Ok?
      ensures grant in s.grants && operation in s.operations && s.grants[grant].plan in s.plans
      ensures now + TTL_NS < TWO_64 && NextNonce(s, caller) + 1 < TWO_64
    {
    }

    method BeginEvaluation(caller: Principal, id: Digest, now: U64) returns (r: Fallible<DecisionRequest>)
      requires Valid()
      modifies this
      ensures Valid() && Step(View(), r) == W.BeginEvaluation(old(View()), caller, id, now)
    {
      hide Inv, RecordOk, Current, SlotId;
      BeginEvaluationKeeps(View(), caller, id, now);
      if id in requests {
        RecordOf(View(), id);
        RecordReceipts(View(), id, requests[id]);
      }
      if id !in requests { return Err(NotFound); }
      var record := requests[id];
      if caller != record.caller && caller != owner { return Err(Unauthorized); }
      if record.status != Received && record.status != Evaluating { return Err(Transition); }
      var current := CheckCurrent(record, now);
      if current.Err? {
        record := record.(status := StaleRequest, pending := None);
        requests := requests[id := record];
        return Err(current.error);
      }
      if record.pending.Some? {
        var p := record.pending.value;
        if p.inFlight { return Err(Busy); }
        if p.sends >= 2 { return Err(Capacity); }
        record := record.(pending := Some(p.(inFlight := true, sends := p.sends + 1)));
        requests := requests[id := record];
        return Ok(p.request);
      }
      var p, slot := plans[record.plan], |record.receipts|;
      if slot >= |p.signals| { return Err(Transition); }
      var required := p.signals[slot];
      var req := DecisionRequest(
        SlotId(id, slot, record.snapshot), required.schema.schemaHash, p.model, Some(required.calibration),
        Some(Binding(id, slot, 0, record.snapshot)), operations[record.operation].evidence, record.expiresAt);
      record := record.(pending := Some(Pending(req, true, 1)), status := Evaluating);
      requests := requests[id := record];
      r := Ok(req);
    }

    method CheckCurrent(record: RequestRecord, now: U64) returns (r: Fallible<()>)
      ensures r == Current(View(), record, now)
    {
      hide Eligible, Snapshot;
      if paused { return Err(Denied("paused")); }
      if now >= record.expiresAt { return Err(Expired); }
      if record.operation !in operations || record.grant !in grants || record.plan !in plans { return Err(NotFound); }
      var o, g, p := operations[record.operation], grants[record.grant], plans[record.plan];
      var eligible := Eligible(g, record.caller, o.proposal, now);
      if eligible.Err? { return Err(eligible.error); }
      if o.revision != record.operationRevision || g.revision != record.grantRevision || Snapshot(o, g, p) != record.snapshot {
        return Err(Stale);
      }
      r := Ok(());
    }

    method EngineTransportFailed(id: Digest, evalId: Digest) returns (r: Fallible<()>)
      requires Valid()
      modifies this
      ensures Valid() && Step(View(), r) == W.EngineTransportFailed(old(View()), id, evalId)
    {
      hide Inv;
      EngineTransportFailedKeeps(View(), id, evalId);
      if id !in requests { return Err(NotFound); }
      var record := requests[id];
      if record.status != Evaluating { return Err(Transition); }
      if record.pending.None? { return Err(Transition); }
      var p := record.pending.value;
      if p.request.evaluationId != evalId { return Err(BindingMismatch); }
      record := record.(pending := Some(p.(inFlight := false)));
      if p.sends >= 2 {
        record := record.(status := NeedsReview(EngineRetryLimit), pending := None);
      }
      requests := requests[id := record];
      r := Ok(());
    }

    /** The receipt already filed under this evaluation, if any. */
    method FindReceipt(record: RequestRecord, evalId: Digest) returns (found: Option<Receipt>)
      ensures found == KnownReceipt(record, evalId, 0)
    {
      for n := 0 to |record.receipts|
        invariant KnownReceipt(record, evalId, 0) == KnownReceipt(record, evalId, n)
      {
        if record.receipts[n].stamp.evaluationId == evalId { return Some(record.receipts[n]); }
      }
      return None;
    }

    method FinishEvaluation(id: Digest, evalId: Digest, result: Fallible<Receipt>, now: U64) returns (r: Fallible<Status>)
      requires Valid()
      modifies this
      ensures Valid() && Step(View(), r) == W.FinishEvaluation(old(View()), id, evalId, result, now)
    {
      hide Inv, RecordOk, Current, Judge, KnownReceipt;
      FinishEvaluationKeeps(View(), id, evalId, result, now);
      if id in requests {
        RecordOf(View(), id);
        RecordReceipts(View(), id, requests[id]);
      }
      if id !in requests { return Err(NotFound); }
      var record := requests[id];
      if result.Ok? {
        var old' := FindReceipt(record, evalId);
        if old'.Some? {
          if old'.value == result.value { return Ok(record.status); }
          return Err(IdConflict);
        }
      }
      if record.status != Evaluating { return Err(Transition); }
      if record.pending.None? { return Err(Transition); }
      var pending := record.pending.value;
      if pending.request.evaluationId != evalId { return Err(BindingMismatch); }
      var current := CheckCurrent(record, now);
      if current.Err? {
        record := record.(status := StaleRequest, pending := None);
        requests := requests[id := record];
        return Err(current.error);
      }
      var signals, slot := plans[record.plan].signals, |record.receipts|;
      if slot >= |signals| { return Err(NotFound); }
      var verdict := Judge(signals[slot], pending.request, result);
      JudgedResult(signals[slot], pending.request, result);
      record := record.(pending := None);
      if verdict.Ok? {
        record := record.(receipts := record.receipts + [result.value]);
        record := record.(status :=
          if !verdict.value then NeedsReview(RuleDidNotPass)
          else if |record.receipts| == |signals| then ReadyToDispatch else Received);
      } else {
        record := record.(status := NeedsReview(EvaluationError(verdict.error)));
      }
      requests := requests[id := record];
      r := Ok(record.status);
    }

    lemma JudgedResult(s: RequiredSignal, req: DecisionRequest, result: Fallible<Receipt>)
      ensures Judge(s, req, result).Ok? ==> result.Ok?
    {
      hide CheckRule, ExpectedStamp;
    }

    /** The slot-by-slot recheck of `authorize`. */
    method RecheckReceipts(p: Plan, id: Digest, record: RequestRecord) returns (r: Fallible<()>)
      requires |p.signals| == |record.receipts|
      ensures r == CheckReceipts(p, id, record, 0)
    {
      hide CheckRule, ReceiptBound;
      for i := 0 to |p.signals|
        invariant CheckReceipts(p, id, record, 0) == CheckReceipts(p, id, record, i)
      {
        if i >= 256 || !ReceiptBound(p, id, record, i) { return Err(BindingMismatch); }
        var pass := CheckRule(p.signals[i], record.receipts[i]);
        if pass.Err? { return Err(pass.error); }
        if !pass.value { return Err(BindingMismatch); }
      }
      r := Ok(());
    }

    method Authorize(caller: Principal, id: Digest, now: U64) returns (r: Fallible<AuthorizedTransfer>)
      requires Valid()
      ensures r == W.Authorize(View(), caller, id, now)
    {
      hide Inv, RecordOk, Current, CheckReceipts;
      if id in requests {
        RecordOf(View(), id);
        RecordReceipts(View(), id, requests[id]);
      }
      if id !in requests { return Err(NotFound); }
      var record := requests[id];
      if caller != record.caller && caller != owner { return Err(Unauthorized); }
      var current := CheckCurrent(record, now);
      if current.Err? { return Err(current.error); }
      if record.status != ReadyToDispatch || record.pending.Some? { return Err(Transition); }
      var p := plans[record.plan];
      if |record.receipts| != |p.signals| { return Err(BindingMismatch); }
      var receipts := RecheckReceipts(p, id, record);
      if receipts.Err? { return Err(receipts.error); }
      if operations[record.operation].status != Available { return Err(OperationUsed); }
      r := Ok(AuthorizedTransfer(id, record.snapshot));
    }

    method PrepareDispatch(a: AuthorizedTransfer, now: U64) returns (r: Fallible<DispatchCommand>)
      requires Valid()
      modifies this
      ensures Windowed(old(View()))
      ensures Valid() && Step(View(), r) == W.PrepareDispatch(old(View()), a, now)
    {
      hide Inv, RecordOk, Windowed, W.Authorize, Budgeted;
      PrepareDispatchKeeps(View(), a, now);
      if a.request in requests {
        RecordOf(View(), a.request);
        RecordKey(View(), a.request, requests[a.request]);
      }
      if a.request !in requests { return Err(NotFound); }
      var record := requests[a.request];
      var again := Authorize(record.caller, record.id, now);
      if again.Err? { return Err(again.error); }
      if a.snapshot != record.snapshot { return Err(BindingMismatch); }
      if mode == ReportOnlyMode || mode == Shadow {
        record := record.(status := Reported);
        requests := requests[record.id := record];
        return Err(ReportOnly);
      }
      if mode == LimitedLive { return Err(LiveDisabled); }
      var budget := CheckBudget(record, now);
      if budget.Err? { return Err(budget.error); }
      var (grant, charge, epoch) := budget.value;
      var op := operations[record.operation];
      var frozen := FrozenTransfer(op.proposal, record.id, now);
      record := record.(reservation := Some(Reservation(charge, epoch)), frozen := Some(frozen), status := Submitted, ledgerAttempt := 1);
      op := op.(status := Reserved(record.id));
      grants := grants[grant.id := grant];
      operations := operations[op.id := op];
      requests := requests[record.id := record];
      r := Ok(DispatchCommand(record.id, 1, frozen));
    }

    method CheckBudget(record: RequestRecord, now: U64) returns (r: Fallible<(Grant, U128, U64)>)
      requires Windowed(View())
      ensures r == Budgeted(View(), record, now)
    {
      hide Reserve;
      if record.operation !in operations { return Err(NotFound); }
      var op := operations[record.operation];
      if op.proposal.ledger !in mockLedgers { return Err(Denied("unregistered mock ledger")); }
      if record.grant !in grants { return Err(NotFound); }
      var charge := op.proposal.Charge();
      if charge.Err? { return Err(charge.error); }
      assert grants[record.grant].windowNs > 0;
      var epoch := now / grants[record.grant].windowNs;
      var reserved := Reserve(grants[record.grant], charge.value, epoch);
      if reserved.Err? { return Err(reserved.error); }
      r := Ok((reserved.value, charge.value, epoch));
    }

    method SettleRecord(record: RequestRecord, success: bool, text: string) returns (r: Fallible<Status>)
      modifies this
      ensures Step(View(), r) == W.SettleRecord(old(View()), record, success, text)
    {
      hide Settle;
      if record.reservation.None? || record.grant !in grants || record.operation !in operations { return Err(Storage); }
      var reservation, g, o := record.reservation.value, grants[record.grant], operations[record.operation];
      if o.status != Reserved(record.id) { return Err(Storage); }
      var settled := Settle(g, reservation.charge, reservation.epoch, success);
      if settled.Err? { return Err(settled.error); }
      o := o.(status := if success then Consumed(record.id) else Available);
      var done := record.(reservation := None, status := if success then Succeeded(text) else FailedDefinitive(text));
      grants := grants[settled.value.id := settled.value];
      operations := operations[o.id := o];
      requests := requests[done.id := done];
      r := Ok(done.status);
    }

    method FinishLedger(cmd: DispatchCommand, outcome: LedgerOutcome) returns (r: Fallible<Status>)
      requires Valid()
      modifies this
      ensures Valid() && Step(View(), r) == W.FinishLedger(old(View()), cmd, outcome)
    {
      hide Inv, W.SettleRecord;
      FinishLedgerKeeps(View(), cmd, outcome);
      if cmd.request !in requests { return Err(NotFound); }
      var record := requests[cmd.request];
      if record.frozen != Some(cmd.transfer) || cmd.attempt == 0 || cmd.attempt > record.ledgerAttempt { return Err(BindingMismatch); }
      // Terminal successes cannot be undone by a late error callback.
      if record.status.Succeeded? { return Ok(record.status); }
      if record.status != Submitted && !record.status.UnknownOutcome? { return Err(Transition); }
      if outcome.Success? || outcome.AlreadyDone? {
        var index := if outcome.Success? then outcome.index else outcome.index;
        if !BlockIndex(index) { return Err(Invalid("block index")); }
        r := SettleRecord(record, true, index);
      } else if outcome.DefinitiveError? && !record.everUnknown && cmd.attempt == record.ledgerAttempt {
        r := SettleRecord(record, false, outcome.text);
      } else {
        record := record.(everUnknown := true, status := UnknownOutcome(outcome.text));
        requests := requests[record.id := record];
        r := Ok(record.status);
      }
    }

    method RetryUnknown(caller: Principal, id: Digest, now: U64) returns (r: Fallible<DispatchCommand>)
      requires Valid()
      modifies this
      ensures Valid() && Step(View(), r) == W.RetryUnknown(old(View()), caller, id, now)
    {
      hide Inv, Current;
      RetryUnknownKeeps(View(), caller, id, now);
      if id !in requests { return Err(NotFound); }
      var record := requests[id];
      if caller != record.caller && caller != owner { return Err(Unauthorized); }
      var current := CheckCurrent(record, now);
      if current.Err? { return Err(current.error); }
      if mode != Mock || !record.status.UnknownOutcome? || record.ledgerAttempt >= 2 { return Err(Transition); }
      if record.frozen.None? { return Err(Storage); }
      var frozen := record.frozen.value;
      if now < frozen.createdAt || now - frozen.createdAt > MOCK_DEDUP_WINDOW_NS { return Err(Expired); }
      record := record.(ledgerAttempt := record.ledgerAttempt + 1, status := Submitted);
      requests := requests[id := record];
      r := Ok(DispatchCommand(id, record.ledgerAttempt, frozen));
    }

    method Cancel(caller: Principal, id: Digest) returns (r: Fallible<()>)
      requires Valid()
      modifies this
      ensures Valid() && Step(View(), r) == W.Cancel(old(View()), caller, id)
    {
      hide Inv;
      CancelKeeps(View(), caller, id);
      if id !in requests { return Err(NotFound); }
      var record := requests[id];
      if caller != record.caller && caller != owner { return Err(Unauthorized); }
      if record.frozen.Some? || record.reservation.Some? { return Err(OutcomeUnknown); }
      requests := requests[id := record.(pending := None, status := Cancelled)];
      r := Ok(());
    }

    /** What recovery does to one record, in the source's order. */
    static method RecoverRecord(record: RequestRecord) returns (r: RequestRecord)
      ensures r == Recovered(record)
    {
      r := record;
      if r.status == Evaluating {
        r := r.(status := NeedsReview(UpgradeInterrupted), pending := None);
      }
      if r.status == Submitted {
        r := r.(status := UnknownOutcome("upgrade interrupted callback"), everUnknown := true);
      }
    }

    /** One pass over the records. */
    method RecoverRecords()
      modifies this`requests
      ensures requests == RecoveredAll(old(requests))
    {
      hide Recovered;
      ghost var before := requests;
      var todo := requests.Keys;
      while todo != {}
        modifies this`requests
        invariant todo <= requests.Keys == before.Keys
        invariant forall id | id in todo :: requests[id] == before[id]
        invariant forall id | id in requests && id !in todo :: requests[id] == Recovered(before[id])
        decreases todo
      {
        var id :| id in todo;
        var record := RecoverRecord(requests[id]);
        requests := requests[id := record];
        todo := todo - {id};
      }
    }

    /** Conservative restart recovery: every record, then paused. */
    method RecoverAfterUpgrade()
      requires Valid()
      modifies this
      ensures Valid() && View() == W.RecoverAfterUpgrade(old(View()))
    {
      hide Inv, Recovered;
      RecoverKeeps(View());
      RecoverRecords();
      paused := true;
    }

    // ----- the runtime check --------------------------------------------------------------------

    /** Adds up the open reservations of a grant; `None` when the checked sum leaves `u128`. */
    method SumBooked(grant: Digest) returns (sum: Option<U128>)
      ensures sum == if Total(requests, Booked(grant, None)) < TWO_128 then Some(Total(requests, Booked(grant, None))) else None
    {
      var rest, acc, m := requests, 0, Booked(grant, None);
      while rest != map[]
        invariant acc + Total(rest, m) == Total(requests, m) && acc < TWO_128
        decreases rest.Keys
      {
        var id :| id in rest;
        TotalRemove(rest, m, id);
        acc := acc + Weight(rest[id], m);
        rest := rest - {id};
        if acc >= TWO_128 { return None; }
      }
      return Some(acc);
    }

    /** Adds up those of one epoch. Past the check of the whole grant the unchecked sum never leaves `u128`. */
    method SumWindow(grant: Digest, epoch: U64) returns (sum: U128)
      requires Total(requests, Booked(grant, None)) < TWO_128
      ensures sum == Total(requests, Booked(grant, Some(epoch)))
    {
      var rest, m := requests, Booked(grant, Some(epoch));
      TotalWithin(requests, m, Booked(grant, None));
      sum := 0;
      while rest != map[]
        invariant sum + Total(rest, m) == Total(requests, m)
        decreases rest.Keys
      {
        var id :| id in rest;
        TotalRemove(rest, m, id);
        sum := sum + Weight(rest[id], m);
        rest := rest - {id};
      }
    }

    predicate RecordChecks(record: RequestRecord)
      reads this
    {
      && record.operation in operations
      && (record.reservation.Some? ==>
            operations[record.operation].status == Reserved(record.id) && (record.status == Submitted || record.status.UnknownOutcome?))
      && (record.status.Succeeded? ==> record.reservation.None? && operations[record.operation].status == Consumed(record.id))
      && (if record.caller in nextNonce then nextNonce[record.caller] else 0) > record.nonce
    }

    ghost predicate GrantChecks(g: Grant)
      reads this
    {
      && g.total.reserved == Total(requests, Booked(g.id, None)) && g.total.spent + g.total.reserved <= g.totalCap
      && forall e | e in g.windows ::
           g.windows[e].reserved == Total(requests, Booked(g.id, Some(e))) && g.windows[e].spent + g.windows[e].reserved <= g.windowCap
    }

    method CheckGrant(g: Grant) returns (ok: bool)
      ensures ok <==> GrantChecks(g)
    {
      var expected := SumBooked(g.id);
      if expected.None? || expected.value != g.total.reserved { return false; }
      if g.total.spent + g.total.reserved > g.totalCap { return false; }
      var todo := g.windows.Keys;
      while todo != {}
        invariant todo <= g.windows.Keys
        invariant forall e | e in g.windows && e !in todo ::
          g.windows[e].reserved == Total(requests, Booked(g.id, Some(e))) && g.windows[e].spent + g.windows[e].reserved <= g.windowCap
        decreases todo
      {
        var e :| e in todo;
        var actual := SumWindow(g.id, e);
        if g.windows[e].reserved != actual { return false; }
        if g.windows[e].spent + g.windows[e].reserved > g.windowCap { return false; }
        todo := todo - {e};
      }
      return true;
    }

    /** `check_invariants(..).is_ok()`, and on a valid state it is. */
    method CheckInvariants() returns (ok: bool)
      ensures ok <==> WI.CheckInvariants(View())
      ensures Valid() ==> ok
    {
      hide Inv;
      if Inv(View()) {
        CheckPasses(View());
      }
      var todo := grants.Keys;
      while todo != {}
        invariant todo <= grants.Keys && forall k | k in grants && k !in todo :: GrantChecks(grants[k])
        decreases todo
      {
        var k :| k in todo;
        var fine := CheckGrant(grants[k]);
        if !fine { return false; }
        todo := todo - {k};
      }
      var rest := requests.Keys;
      while rest != {}
        invariant rest <= requests.Keys && forall id | id in requests && id !in rest :: RecordChecks(requests[id])
        decreases rest
      {
        var id :| id in rest;
        if !RecordChecks(requests[id]) { return false; }
        rest := rest - {id};
      }
      return true;
    }
  }
}
