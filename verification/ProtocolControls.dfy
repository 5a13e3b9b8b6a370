/**
 What revocation, revision, cancellation, pausing and a repeated engine answer stop, over whole behaviours
 (crates/ic-laya-core/src/workflow.rs).
 */
module ProtocolControls {
  import opened Wrappers
  import opened Numbers
  import opened Canonical
  import opened Types
  import opened Icrc
  import opened Workflow
  import opened WorkflowInvariant
  import opened WorkflowSteps
  import opened Protocol
  import opened ProtocolSafety
  import opened ProtocolHistory
  import opened Rules
  import ML = MockLedger

  // ----- revocation and revision --------------------------------------------------------------------

  /** The grant was revoked, or it or the operation has moved on since the request was submitted. */
  ghost predicate Outdated(s: Exec, id: Digest) {
    && id in s.requests
    && var r := s.requests[id];
       && r.operation in s.operations && r.grant in s.grants
       && (s.grants[r.grant].revoked || s.grants[r.grant].revision > r.grantRevision
           || s.operations[r.operation].revision > r.operationRevision)
  }

  lemma OutdatedStays(s: Exec, t: Exec, id: Digest)
    requires Kept(s, t) && Outdated(s, id)
    ensures Outdated(t, id)
  {
    hide SignalsFit;
  }

  lemma OutdatedNotFrozen(s: Exec, id: Digest, f: FrozenTransfer)
    requires Outdated(s, id)
    ensures !FrozenUnder(s, id, f)
  {
  }

  lemma PayloadKept(s: Exec, t: Exec, id: Digest)
    requires Kept(s, t) && id in s.requests && s.requests[id].frozen.Some?
    ensures id in t.requests && t.requests[id].frozen == s.requests[id].frozen
  {
    hide RegistryKept;
  }

  /** A request with no payload yet whose grant or operation has moved on is never paid. */
  lemma OutdatedNeverPays(states: seq<System>, events: seq<Event>, i: nat, j: nat, id: Digest)
    requires Behaviour(states, events) && i <= j < |states|
    requires Outdated(states[i].exec, id) && states[i].exec.requests[id].frozen.None?
    ensures Unpaid(states[j], id)
  {
    hide SysInv, Next, Windowed, Initial, FrozenUnder, Kept, Follows, Unpaid, Outdated;
    AlwaysOk(states, events, j);
    KeptAlong(states, events, i, j);
    OutdatedStays(states[i].exec, states[j].exec, id);
    OnRecord(states[i].exec, id);
    OnRecord(states[j].exec, id);
    if states[j].exec.requests[id].frozen.Some? {
      var k := FrozenByDispatch(states, events, j, id);
      if k < i {
        KeptAlong(states, events, k + 1, i);
        PayloadKept(states[k + 1].exec, states[i].exec, id);
      } else {
        KeptAlong(states, events, i, k);
        OutdatedStays(states[i].exec, states[k].exec, id);
        OutdatedNotFrozen(states[k].exec, id, states[j].exec.requests[id].frozen.value);
      }
    }
    UnfrozenUnpaid(states[j], id);
  }

  lemma OnRecord(s: Exec, id: Digest)
    requires Outdated(s, id)
    ensures id in s.requests
  {
  }

  lemma RevokeNext(s: System, caller: Principal, k: Digest)
    requires Windowed(s.exec) && k in s.exec.grants && s.exec.grants[k].revision + 1 < TWO_64
    requires caller == s.exec.owner && caller != ANONYMOUS
    ensures var t := Next(s, Local(EvRevoke(caller, k))).exec;
      k in t.grants && t.grants[k].revoked && t.requests == s.exec.requests
  {
    hide Windowed;
  }

  /** Once the owner has revoked a grant, it pays for nothing but what was dispatched before. */
  lemma RevokedPaysNothingNew(states: seq<System>, events: seq<Event>, i: nat, j: nat, k: Digest, p: Principal, n: nat)
    requires Behaviour(states, events) && i < |events| && i < j < |states|
    requires states[i].exec.owner != ANONYMOUS && k in states[i].exec.grants && states[i].exec.grants[k].revision + 1 < TWO_64
    requires events[i] == Local(EvRevoke(states[i].exec.owner, k))
    requires p in states[j].ledgers && n < |states[j].ledgers[p].blocks| && states[j].ledgers[p].blocks[n].caller == states[j].exec.instance
    ensures var s, transfer := states[i].exec, states[j].ledgers[p].blocks[n].transfer;
      && transfer.memo in states[j].exec.requests
      && (states[j].exec.requests[transfer.memo].grant == k ==>
            transfer.memo in s.requests && s.requests[transfer.memo].frozen == Some(transfer))
  {
    hide SysInv, Next, Windowed, Initial, Kept;
    AlwaysOk(states, events, i);
    AlwaysOk(states, events, j);
    BlockOfRequest(states[j], p, n);
    assert Follows(states, events, i);
    RevokeNext(states[i], states[i].exec.owner, k);
    var id := states[j].ledgers[p].blocks[n].transfer.memo;
    if states[j].exec.requests[id].grant == k {
      var m := FrozenByDispatch(states, events, j, id);
      if m < i {
        KeptAlong(states, events, m + 1, i);
        PayloadKept(states[m + 1].exec, states[i].exec, id);
      } else {
        hide Behaviour, Follows;
        KeptAlong(states, events, i + 1, m);
        KeptAlong(states, events, m, j);
        StillRevoked(states[i + 1].exec, states[m].exec, k);
        SameGrant(states[m].exec, states[j].exec, id);
      }
    }
  }

  lemma StillRevoked(s: Exec, t: Exec, k: Digest)
    requires Kept(s, t) && k in s.grants && s.grants[k].revoked
    ensures k in t.grants && t.grants[k].revoked
  {
    hide RequestsKept, WorkKept, SignalsFit;
  }

  lemma SameGrant(s: Exec, t: Exec, id: Digest)
    requires Kept(s, t) && id in s.requests
    ensures id in t.requests && t.requests[id].grant == s.requests[id].grant
  {
    hide RegistryKept;
  }

  lemma AlwaysTimely(states: seq<System>, events: seq<Event>, i: nat, id: Digest)
    requires Behaviour(states, events) && i < |states| && id in states[i].exec.requests
    ensures Timely(states[i].exec, states[i].exec.requests[id])
  {
    hide Follows, RegistryKept;
    KeptAlong(states, events, 0, i);
    assert states[0].exec.requests == map[];
  }

  lemma ReviseNext(s: System, id: Digest, evidence: Blob)
    requires Windowed(s.exec) && s.exec.owner != ANONYMOUS && id in s.exec.operations && s.exec.operations[id].status == Available
    requires s.exec.operations[id].revision + 1 < TWO_64 && 1 <= |evidence| <= MAX_STATE_BYTES
    ensures var t := Next(s, Local(EvReviseOperation(s.exec.owner, id, evidence))).exec;
      && t.grants == s.exec.grants && t.requests == s.exec.requests
      && id in t.operations && t.operations[id].evidence == evidence && t.operations[id].revision > s.exec.operations[id].revision
  {
    hide Windowed;
  }

  /** New evidence for an operation closes off every request made over the old: what was not dispatched by then never is. */
  lemma RevisedNeverPays(states: seq<System>, events: seq<Event>, i: nat, j: nat, op: Digest, evidence: Blob, id: Digest)
    requires Behaviour(states, events) && i < |events| && i < j < |states|
    requires states[i].exec.owner != ANONYMOUS && op in states[i].exec.operations && states[i].exec.operations[op].status == Available
    requires states[i].exec.operations[op].revision + 1 < TWO_64 && 1 <= |evidence| <= MAX_STATE_BYTES
    requires events[i] == Local(EvReviseOperation(states[i].exec.owner, op, evidence))
    requires id in states[i].exec.requests && states[i].exec.requests[id].operation == op && states[i].exec.requests[id].frozen.None?
    ensures op in states[i + 1].exec.operations && states[i + 1].exec.operations[op].evidence == evidence
    ensures Unpaid(states[j], id)
  {
    hide SysInv, Next, Windowed, Initial, Kept, Unpaid;
    AlwaysOk(states, events, i);
    assert Follows(states, events, i);
    ReviseNext(states[i], op, evidence);
    AlwaysTimely(states, events, i, id);
    assert Outdated(states[i + 1].exec, id);
    OutdatedNeverPays(states, events, i + 1, j, id);
  }

  // ----- cancellation ---------------------------------------------------------------------------------

  lemma CancelNext(s: System, caller: Principal, id: Digest)
    requires Inv(s.exec) && Windowed(s.exec) && id in s.exec.requests && s.exec.requests[id].frozen.None?
    requires caller == s.exec.requests[id].caller || caller == s.exec.owner
    ensures var t := Next(s, Local(EvCancel(caller, id))).exec; id in t.requests && t.requests[id].status == Cancelled
  {
    hide Inv, Windowed, EvidenceOk, RequestId;
    RecordOf(s.exec, id);
  }

  /** Its caller or the owner can cancel any request with no payload yet, and it is then never paid. */
  lemma CancelledNeverPays(states: seq<System>, events: seq<Event>, i: nat, j: nat, caller: Principal, id: Digest)
    requires Behaviour(states, events) && i < |events| && i < j < |states| && events[i] == Local(EvCancel(caller, id))
    requires id in states[i].exec.requests && states[i].exec.requests[id].frozen.None?
    requires caller == states[i].exec.requests[id].caller || caller == states[i].exec.owner
    ensures Unpaid(states[j], id) && Closed(states[j].exec.requests[id].status)
  {
    hide SysInv, Inv, Next, Windowed, Initial, Unpaid;
    AlwaysOk(states, events, i);
    SysInvExec(states[i]);
    assert Follows(states, events, i);
    CancelNext(states[i], caller, id);
    ClosedNeverPays(states, events, i + 1, j, id);
  }

  // ----- pausing --------------------------------------------------------------------------------------

  lemma FinishPaused(s: Exec, cmd: DispatchCommand, outcome: LedgerOutcome)
    ensures FinishLedger(s, cmd, outcome).state.paused == s.paused && FinishLedger(s, cmd, outcome).state.owner == s.owner
  {
  }

  lemma LocalPaused(s: Exec, e: LocalEvent)
    requires s.paused && e != EvSetPaused(s.owner, false)
    ensures LocalNext(s, e).paused && LocalNext(s, e).owner == s.owner
  {
    hide Current, CheckRule, RequestId, Snapshot, ValidateSignals, GrantFieldsOk, Admit, Judge, RecoveredAll;
  }

  lemma DispatchPaused(s: System, c: Principal, id: Digest, now: U64)
    requires Windowed(s.exec) && s.exec.paused
    ensures DispatchNext(s, c, id, now).exec == s.exec && RetryNext(s, c, id, now).exec == s.exec
  {
    hide Windowed, CheckReceipts, Snapshot, Budgeted;
  }

  lemma BeginPaused(s: System, c: Principal, id: Digest, now: U64)
    ensures AskNext(s, c, id, now).exec.paused == s.exec.paused && AskNext(s, c, id, now).exec.owner == s.exec.owner
  {
    hide Current, SlotRequest;
  }

  lemma PausedNext(s: System, e: Event)
    requires Windowed(s.exec) && s.exec.paused && e != Local(EvSetPaused(s.exec.owner, false))
    ensures Next(s, e).exec.paused && Next(s, e).exec.owner == s.exec.owner
  {
    hide Windowed, LocalNext, FinishLedger, AskNext, DispatchNext, RetryNext, ML.Transfer, ML.SetFault, ML.Find, ReconcileCommand, FrozenDigest, OutcomeOf;
    match e
    case Local(l) => LocalPaused(s.exec, l);
    case Dispatch(c, id, now) => DispatchPaused(s, c, id, now);
    case Retry(c, id, now) => DispatchPaused(s, c, id, now);
    case BeginEval(c, id, now) => BeginPaused(s, c, id, now);
    case Callback(i) =>
      if i < |s.calls| && s.calls[i].message.Executed? && !s.calls[i].message.reply.Silent? {
        FinishPaused(s.exec, s.calls[i].command, OutcomeOf(s.calls[i].message.reply));
      }
    case Timeout(i, text) => if i < |s.calls| { FinishPaused(s.exec, s.calls[i].command, Unknown(text)); }
    case ReturnProbe(i) =>
      if i < |s.probes| && s.probes[i].answer.Some? && ProbeOutcome(s.probes[i].command, s.probes[i].answer.value).Some? {
        FinishPaused(s.exec, s.probes[i].command, ProbeOutcome(s.probes[i].command, s.probes[i].answer.value).value);
      }
    case _ =>
  }

  lemma PauseNext(s: System, e: Event)
    requires Windowed(s.exec) && (e == Local(EvUpgrade) || (e == Local(EvSetPaused(s.exec.owner, true)) && s.exec.owner != ANONYMOUS))
    ensures Next(s, e).exec.paused && Next(s, e).exec.owner == s.exec.owner && Next(s, e).calls == s.calls
  {
    hide Windowed, RecoveredAll;
  }

  /** From a pause or an upgrade until the owner lifts it, nothing is sent to a ledger. */
  lemma {:induction false} PausedSendsNothing(states: seq<System>, events: seq<Event>, i: nat, j: nat)
    requires Behaviour(states, events) && i < |events| && i < j < |states|
    requires events[i] == Local(EvUpgrade)
          || (events[i] == Local(EvSetPaused(states[i].exec.owner, true)) && states[i].exec.owner != ANONYMOUS)
    requires forall k | i < k < j :: events[k] != Local(EvSetPaused(states[i].exec.owner, false))
    ensures states[j].exec.paused && states[j].exec.owner == states[i].exec.owner && |states[j].calls| == |states[i].calls|
  {
    hide SysInv, Next, Windowed, Initial;
    AlwaysOk(states, events, j - 1);
    assert Follows(states, events, j - 1);
    if j == i + 1 {
      PauseNext(states[i], events[i]);
    } else {
      PausedSendsNothing(states, events, i, j - 1);
      PausedNext(states[j - 1], events[j - 1]);
      OnlyMockSends(states, events, j - 1);
    }
  }

  /** After an upgrade no request waits for an engine or a ledger any more: questions are for review, payments to reconcile. */
  lemma UpgradeLeavesNothingWaiting(states: seq<System>, events: seq<Event>, i: nat, id: Digest)
    requires Behaviour(states, events) && i < |events| && events[i] == Local(EvUpgrade) && id in states[i].exec.requests
    ensures id in states[i + 1].exec.requests
    ensures var before, after := states[i].exec.requests[id], states[i + 1].exec.requests[id];
      match before.status
      case Evaluating => after.status.NeedsReview? && after.pending.None?
      case Submitted => after.status.UnknownOutcome? && after.everUnknown && after.frozen == before.frozen && after.reservation == before.reservation
      case _ => after == before
  {
    hide SysInv, Windowed, Initial;
    AlwaysOk(states, events, i);
    assert Follows(states, events, i);
    UpgradeNext(states[i], id);
    hide Next;
  }

  lemma UpgradeNext(s: System, id: Digest)
    requires Windowed(s.exec) && id in s.exec.requests
    ensures var t := Next(s, Local(EvUpgrade)).exec; id in t.requests && t.requests[id] == Recovered(s.exec.requests[id])
  {
    hide Windowed, Recovered;
  }

  /** The owner lifts a pause and chooses any mode but the live one, and neither touches anything else. */
  lemma OwnerSwitches(s: System, pause: bool, mode: Mode)
    requires Windowed(s.exec) && s.exec.owner != ANONYMOUS && mode != LimitedLive
    ensures Next(s, Local(EvSetPaused(s.exec.owner, pause))) == s.(exec := s.exec.(paused := pause))
    ensures Next(s, Local(EvSetMode(s.exec.owner, mode))) == s.(exec := s.exec.(mode := mode))
  {
    hide Windowed;
  }

  // ----- time and space -------------------------------------------------------------------------------

  lemma AcceptedUntil(s: Exec, caller: Principal, nonce: U64, op: Digest, g: Digest, now: U64)
    requires Submit(s, caller, nonce, op, g, now).result.Ok? && RequestId(s.instance, caller, nonce) !in s.requests
    ensures var id, t := RequestId(s.instance, caller, nonce), Submit(s, caller, nonce, op, g, now).state;
      id in t.requests && t.requests[id].expiresAt <= now + TTL_NS
  {
    hide RequestId, Eligible, Snapshot;
  }

  lemma SameExpiry(s: Exec, t: Exec, id: Digest)
    requires Kept(s, t) && id in s.requests
    ensures id in t.requests && t.requests[id].expiresAt == s.requests[id].expiresAt
  {
    hide RegistryKept;
  }

  /** Whatever is paid was dispatched within the life of its submission. */
  lemma PaidInTime(states: seq<System>, events: seq<Event>, i: nat, j: nat, caller: Principal, nonce: U64, op: Digest, g: Digest, now: U64,
                   p: Principal, n: nat)
    requires Behaviour(states, events) && i < |events| && i < j < |states| && events[i] == Local(EvSubmit(caller, nonce, op, g, now))
    requires Submit(states[i].exec, caller, nonce, op, g, now).result.Ok?
    requires RequestId(states[i].exec.instance, caller, nonce) !in states[i].exec.requests
    requires p in states[j].ledgers && n < |states[j].ledgers[p].blocks| && states[j].ledgers[p].blocks[n].caller == states[j].exec.instance
    requires states[j].ledgers[p].blocks[n].transfer.memo == RequestId(states[i].exec.instance, caller, nonce)
    ensures states[j].ledgers[p].blocks[n].transfer.createdAt < now + TTL_NS
  {
    hide SysInv, Next, Windowed, Initial, Kept, Submit, RequestId;
    var id := RequestId(states[i].exec.instance, caller, nonce);
    AlwaysOk(states, events, i);
    AlwaysOk(states, events, j);
    BlockOfRequest(states[j], p, n);
    assert Follows(states, events, i);
    SubmitNext(states[i], caller, nonce, op, g, now);
    AcceptedUntil(states[i].exec, caller, nonce, op, g, now);
    var k := FrozenByDispatch(states, events, j, id);
    hide Behaviour, Follows;
    KeptAlong(states, events, i + 1, j);
    KeptAlong(states, events, k, j);
    SameExpiry(states[i + 1].exec, states[j].exec, id);
    SameExpiry(states[k].exec, states[j].exec, id);
  }

  /** No registry outgrows its limit. */
  ghost predicate Bounded(s: Exec) {
    && |s.plans| <= MAX_REGISTRY && |s.operations| <= MAX_REQUESTS && |s.grants| <= MAX_REGISTRY
    && |s.requests| <= MAX_REQUESTS && |s.nextNonce| <= MAX_REGISTRY && |s.mockLedgers| <= 8
    && forall k | k in s.grants :: |s.grants[k].windows| <= 64
  }

  lemma SameSize<K(!new), V(!new)>(m: map<K, V>, n: map<K, V>)
    requires m.Keys == n.Keys
    ensures |m| == |n|
  {
    assert |m| == |m.Keys| && |n| == |n.Keys|;
  }

  lemma PutBounded(s: Exec, id: Digest, r: RequestRecord)
    requires Bounded(s) && id in s.requests
    ensures Bounded(PutAt(s, id, r))
  {
  }

  lemma RegistriesBounded(s: Exec, e: LocalEvent)
    requires Bounded(s) && (e.EvInstallPlan? || e.EvInstallOperation? || e.EvReviseOperation? || e.EvInstallGrant? || e.EvRevoke?)
    ensures Bounded(LocalNext(s, e))
  {
    hide ValidateSignals;
  }

  lemma SubmitBounded(s: Exec, c: Principal, n: U64, o: Digest, g: Digest, now: U64)
    requires Bounded(s)
    ensures Bounded(Submit(s, c, n, o, g, now).state)
  {
    hide RequestId, Snapshot, Eligible;
  }

  lemma AnswerBounded(s: Exec, id: Digest, d: Digest, r: Fallible<Receipt>, now: U64)
    requires Bounded(s)
    ensures Bounded(FinishEvaluation(s, id, d, r, now).state)
  {
    hide Bounded, Current, CheckRule, KnownReceipt;
    if id in s.requests {
      var q := s.requests[id];
      PutBounded(s, id, Stalled(q));
      if q.plan in s.plans && |q.receipts| < |s.plans[q.plan].signals| && q.pending.Some? {
        var signals := s.plans[q.plan].signals;
        PutBounded(s, id, Verdict(q, |signals|, r, Judge(signals[|q.receipts|], q.pending.value.request, r)));
      }
      if Current(s, q, now).Ok? {
        CurrentSnapshot(s, q, now);
      }
    }
  }

  lemma LocalBounded(s: Exec, e: LocalEvent)
    requires Bounded(s)
    ensures Bounded(LocalNext(s, e))
  {
    hide InstallPlan, InstallOperation, ReviseOperation, InstallGrant, Revoke, Submit, FinishEvaluation;
    match e
    case EvSubmit(c, n, o, g, now) => SubmitBounded(s, c, n, o, g, now);
    case EvFinishEvaluation(id, d, r, now) => AnswerBounded(s, id, d, r, now);
    case EvUpgrade => SameSize(s.requests, RecoveredAll(s.requests));
    case EvSetMode(c, m) =>
    case EvSetPaused(c, p) =>
    case EvCancel(c, id) => if id in s.requests { PutBounded(s, id, Dropped(s.requests[id])); }
    case EvTransportFailed(id, d) => if id in s.requests && s.requests[id].pending.Some? { PutBounded(s, id, Unsent(s.requests[id])); }
    case _ => RegistriesBounded(s, e);
  }

  lemma BeginBounded(s: Exec, c: Principal, id: Digest, now: U64)
    requires Bounded(s)
    ensures Bounded(BeginEvaluation(s, c, id, now).state)
  {
    hide Bounded, Current, SlotRequest;
    if id in s.requests {
      var r := s.requests[id];
      PutBounded(s, id, Stalled(r));
      if r.pending.Some? {
        PutBounded(s, id, Resent(r));
      }
      if Current(s, r, now).Ok? {
        CurrentSnapshot(s, r, now);
        if |r.receipts| < |s.plans[r.plan].signals| && |r.receipts| < 256 {
          PutBounded(s, id, Asked(r, SlotRequest(s, id, r)));
        }
      }
    }
  }

  lemma RetryBounded(s: Exec, c: Principal, id: Digest, now: U64)
    requires Bounded(s)
    ensures Bounded(RetryUnknown(s, c, id, now).state)
  {
    hide Current;
  }

  lemma SettleBounded(s: Exec, id: Digest, success: bool, text: string)
    requires Inv(s) && Bounded(s) && id in s.requests && IsOpen(s.requests[id])
    ensures Bounded(SettleRecord(s, s.requests[id], success, text).state)
  {
    hide Inv, EvidenceOk, RequestId, Books;
    var r := s.requests[id];
    RecordOf(s, id);
    GrantOf(s, r.grant);
    OperationOf(s, r.operation);
  }

  lemma FinishBounded(s: Exec, cmd: DispatchCommand, outcome: LedgerOutcome)
    requires Inv(s) && Bounded(s)
    ensures Bounded(FinishLedger(s, cmd, outcome).state)
  {
    hide Inv, Bounded, SettleRecord, BlockIndex;
    if cmd.request in s.requests {
      RecordOf(s, cmd.request);
      RecordKey(s, cmd.request, s.requests[cmd.request]);
      hide RecordOk;
      var text := if outcome.Success? || outcome.AlreadyDone? then outcome.index else outcome.text;
      PutBounded(s, cmd.request, Doubted(s.requests[cmd.request], text));
      if IsOpen(s.requests[cmd.request]) {
        SettleBounded(s, cmd.request, true, text);
        SettleBounded(s, cmd.request, false, text);
      }
    }
  }

  lemma CommitBounded(s: Exec, id: Digest, now: U64)
    requires Inv(s) && Bounded(s) && Windowed(s) && id in s.requests && Budgeted(s, s.requests[id], now).Ok?
    ensures s.requests[id].operation in s.operations
    ensures var r, b := s.requests[id], Budgeted(s, s.requests[id], now).value;
      Bounded(Commit(s, r, s.operations[r.operation], b.0, b.1, b.2, now))
  {
    hide Inv, EvidenceOk, RequestId, Books, Windowed;
    var r := s.requests[id];
    RecordOf(s, id);
    GrantOf(s, r.grant);
    OperationOf(s, r.operation);
  }

  lemma DispatchBounded(s: System, c: Principal, id: Digest, now: U64)
    requires Inv(s.exec) && Bounded(s.exec) && Windowed(s.exec)
    ensures Bounded(DispatchNext(s, c, id, now).exec)
  {
    hide Inv, Bounded, Windowed, Authorize, Budgeted, Commit;
    if Authorize(s.exec, c, id, now).Ok? {
      AuthorizedMeans(s.exec, c, id, now);
      RecordOf(s.exec, id);
      RecordKey(s.exec, id, s.exec.requests[id]);
      hide RecordOk, Current;
      PutBounded(s.exec, id, OnlyReported(s.exec.requests[id]));
      if Budgeted(s.exec, s.exec.requests[id], now).Ok? {
        CommitBounded(s.exec, id, now);
      }
    }
  }

  lemma RegisterBounded(s: Exec, c: Principal, p: Principal)
    requires Bounded(s)
    ensures Bounded(RegisterMockLedger(s, c, p).state)
  {
  }

  lemma NextBounded(s: System, e: Event)
    requires Inv(s.exec) && Windowed(s.exec) && Bounded(s.exec)
    ensures Bounded(Next(s, e).exec)
  {
    hide Inv, Bounded, Windowed, LocalNext, BeginEvaluation, FinishLedger, DispatchNext, RetryUnknown, RegisterMockLedger, ML.Transfer,
         ML.SetFault, ML.Find, ReconcileCommand, FrozenDigest, OutcomeOf;
    match e
    case RegisterLedger(c, p) => RegisterBounded(s.exec, c, p);
    case Local(l) => LocalBounded(s.exec, l);
    case Dispatch(c, id, now) => DispatchBounded(s, c, id, now);
    case Retry(c, id, now) => RetryBounded(s.exec, c, id, now);
    case BeginEval(c, id, now) => BeginBounded(s.exec, c, id, now);
    case Callback(i) =>
      if i < |s.calls| && s.calls[i].message.Executed? && !s.calls[i].message.reply.Silent? {
        FinishBounded(s.exec, s.calls[i].command, OutcomeOf(s.calls[i].message.reply));
      }
    case Timeout(i, text) => if i < |s.calls| { FinishBounded(s.exec, s.calls[i].command, Unknown(text)); }
    case ReturnProbe(i) =>
      if i < |s.probes| && s.probes[i].answer.Some? && ProbeOutcome(s.probes[i].command, s.probes[i].answer.value).Some? {
        FinishBounded(s.exec, s.probes[i].command, ProbeOutcome(s.probes[i].command, s.probes[i].answer.value).value);
      }
    case _ =>
  }

  lemma {:induction false} AlwaysBounded(states: seq<System>, events: seq<Event>, i: nat)
    requires Behaviour(states, events) && i < |states|
    ensures Bounded(states[i].exec)
  {
    hide SysInv, Inv, Next, Windowed;
    if i > 0 {
      hide Initial, Bounded;
      AlwaysBounded(states, events, i - 1);
      AlwaysOk(states, events, i - 1);
      SysInvExec(states[i - 1]);
      assert Follows(states, events, i - 1);
      NextBounded(states[i - 1], events[i - 1]);
    }
  }

  // ----- the engine's answers ---------------------------------------------------------------------------

  /** Receipts of different slots have different evaluation identifiers. */
  lemma {:induction false} KnownAt(s: Exec, id: Digest, from: nat, n: nat)
    requires Inv(s) && id in s.requests && from <= n < |s.requests[id].receipts|
    ensures KnownReceipt(s.requests[id], s.requests[id].receipts[n].stamp.evaluationId, from) == Some(s.requests[id].receipts[n])
    decreases n - from
  {
    hide Inv, StageOk, RequestId, CheckRule, SlotId;
    if from < n {
      KnownAt(s, id, from + 1, n);
      RecordOf(s, id);
      var r, p := s.requests[id], s.plans[s.requests[id].plan];
      assert SlotFilled(id, r, p, from) && SlotFilled(id, r, p, n);
      if r.receipts[from].stamp.evaluationId == r.receipts[n].stamp.evaluationId {
        SlotIdInjective(id, from, r.snapshot, id, n, r.snapshot);
      }
    }
  }

  lemma AnsweredAgain(s: Exec, id: Digest, n: nat, again: Receipt, now: U64)
    requires Inv(s) && id in s.requests && n < |s.requests[id].receipts|
    ensures var r := s.requests[id];
      FinishEvaluation(s, id, r.receipts[n].stamp.evaluationId, Ok(again), now)
      == Step(s, if again == r.receipts[n] then Ok(r.status) else Err(IdConflict))
  {
    hide Inv, KnownReceipt, Current, Judge;
    KnownAt(s, id, 0, n);
  }

  lemma ReceiptStays(s: Exec, t: Exec, id: Digest, n: nat)
    requires Kept(s, t) && id in s.requests && n < |s.requests[id].receipts|
    ensures id in t.requests && n < |t.requests[id].receipts| && t.requests[id].receipts[n] == s.requests[id].receipts[n]
  {
    hide RegistryKept;
  }

  /** A receipt once taken stays, and a second answer to its question changes nothing: the same is confirmed, another is a conflict. */
  lemma AnsweredOnce(states: seq<System>, events: seq<Event>, i: nat, j: nat, id: Digest, n: nat, again: Receipt, now: U64)
    requires Behaviour(states, events) && i <= j < |states| && id in states[i].exec.requests && n < |states[i].exec.requests[id].receipts|
    ensures var first, t := states[i].exec.requests[id].receipts[n], states[j].exec;
      && id in t.requests
      && FinishEvaluation(t, id, first.stamp.evaluationId, Ok(again), now)
         == Step(t, if again == first then Ok(t.requests[id].status) else Err(IdConflict))
  {
    hide SysInv, Inv, Next, Windowed, Initial, Kept, FinishEvaluation, Follows;
    AlwaysOk(states, events, j);
    SysInvExec(states[j]);
    KeptAlong(states, events, i, j);
    ReceiptStays(states[i].exec, states[j].exec, id, n);
    AnsweredAgain(states[j].exec, id, n, again, now);
  }

  /** A question whose call failed once is asked again word for word; failing twice leaves the request for review. */
  lemma LostQuestion(s: Exec, caller: Principal, id: Digest, now: U64)
    requires id in s.requests && s.requests[id].status == Evaluating && s.requests[id].pending.Some?
    requires caller == s.requests[id].caller || caller == s.owner
    ensures var q := s.requests[id].pending.value;
      var lost := EngineTransportFailed(s, id, q.request.evaluationId).state;
      && id in lost.requests
      && (q.sends >= 2 ==> lost.requests[id].status.NeedsReview?)
      && (q.sends < 2 && Current(lost, lost.requests[id], now).Ok? ==>
            && BeginEvaluation(lost, caller, id, now).result == Ok(q.request)
            && EngineTransportFailed(BeginEvaluation(lost, caller, id, now).state, id, q.request.evaluationId).result.Ok?)
  {
    hide Current;
  }
}
