/** What every behaviour keeps of plans, grants and requests, and where each payment comes from. */
module ProtocolHistory {
  import opened Wrappers
  import opened Numbers
  import opened Canonical
  import opened Types
  import opened Icrc
  import opened Workflow
  import opened WorkflowInvariant
  import opened WorkflowSteps
  import opened Protocol
  import opened ProtocolSafety
  import opened Rules
  import ML = MockLedger

  // ----- what never changes -----------------------------------------------------------------------

  /** Of a grant, only its books, its revision and its revocation move, the last two one way. */
  ghost predicate SameTerms(g: Grant, h: Grant) {
    && h == g.(total := h.total, windows := h.windows, revoked := h.revoked, revision := h.revision)
    && (g.revoked ==> h.revoked) && g.revision <= h.revision
  }

  /** Of an operation, what it pays; its evidence changes only with its revision, which only grows. */
  ghost predicate SameWork(o: Operation, q: Operation) {
    && q == o.(evidence := q.evidence, revision := q.revision, status := q.status)
    && o.revision <= q.revision && (o.revision == q.revision ==> o.evidence == q.evidence)
  }

  ghost predicate WorkKept(s: Exec, t: Exec) {
    forall k | k in s.operations :: k in t.operations && SameWork(s.operations[k], t.operations[k])
  }

  /** A request that stopped short of payment: nothing evaluates or dispatches it any more. */
  predicate Closed(st: Status) {
    st == Cancelled || st == StaleRequest || st == Reported || st.NeedsReview?
  }

  /** Of a request, what it was submitted with, its payload once it has one, its receipts, and that it is closed once it is. */
  ghost predicate SameOrigin(r: RequestRecord, q: RequestRecord) {
    && q == r.(status := q.status, receipts := q.receipts, pending := q.pending, reservation := q.reservation, frozen := q.frozen,
               ledgerAttempt := q.ledgerAttempt, everUnknown := q.everUnknown)
    && (r.frozen.Some? ==> q.frozen == r.frozen)
    && (Closed(r.status) ==> Closed(q.status)) && r.receipts <= q.receipts
  }

  ghost predicate RegistryKept(s: Exec, t: Exec) {
    && t.instance == s.instance && t.owner == s.owner && (forall p | p in s.mockLedgers :: p in t.mockLedgers)
    && (forall k | k in s.plans :: k in t.plans && t.plans[k] == s.plans[k])
    && (forall k | k in t.plans && k !in s.plans :: SignalsFit(t.plans[k]))
    && (forall k | k in s.grants :: k in t.grants && SameTerms(s.grants[k], t.grants[k]))
    && WorkKept(s, t)
  }

  /** The request was submitted against the present revisions of its operation and grant, or earlier ones. */
  ghost predicate Timely(s: Exec, r: RequestRecord) {
    && r.operation in s.operations && r.operationRevision <= s.operations[r.operation].revision
    && r.grant in s.grants && r.grantRevision <= s.grants[r.grant].revision
  }

  ghost predicate RequestsKept(s: Exec, t: Exec) {
    && (forall id | id in s.requests :: id in t.requests && SameOrigin(s.requests[id], t.requests[id]))
    && (forall id | id in t.requests && id !in s.requests :: Timely(t, t.requests[id]))
  }

  ghost predicate Kept(s: Exec, t: Exec) {
    RegistryKept(s, t) && RequestsKept(s, t)
  }

  lemma KeptSelf(s: Exec)
    ensures Kept(s, s)
  {
  }

  lemma RegistryOn(s: Exec, t: Exec, u: Exec)
    requires RegistryKept(s, t) && RegistryKept(t, u)
    ensures RegistryKept(s, u)
  {
    hide SignalsFit;
  }

  lemma RequestsOn(s: Exec, t: Exec, u: Exec)
    requires RequestsKept(s, t) && Kept(t, u)
    ensures RequestsKept(s, u)
  {
    hide SignalsFit, SameOrigin;
    forall id | id in s.requests ensures id in u.requests && SameOrigin(s.requests[id], u.requests[id]) {
      OriginOn(s.requests[id], t.requests[id], u.requests[id]);
    }
    forall id | id in u.requests && id !in s.requests ensures Timely(u, u.requests[id]) {
      if id in t.requests {
        TimelyOn(t, u, id);
      }
    }
  }

  lemma OriginOn(r: RequestRecord, q: RequestRecord, p: RequestRecord)
    requires SameOrigin(r, q) && SameOrigin(q, p)
    ensures SameOrigin(r, p)
  {
  }

  lemma TimelyOn(s: Exec, t: Exec, id: Digest)
    requires Kept(s, t) && id in s.requests && Timely(s, s.requests[id])
    ensures id in t.requests && Timely(t, t.requests[id])
  {
    hide SignalsFit;
  }

  lemma KeptOn(s: Exec, t: Exec, u: Exec)
    requires Kept(s, t) && Kept(t, u)
    ensures Kept(s, u)
  {
    hide RegistryKept, RequestsKept;
    RegistryOn(s, t, u);
    RequestsOn(s, t, u);
  }

  lemma KeptPut(s: Exec, id: Digest, q: RequestRecord)
    requires id in s.requests && SameOrigin(s.requests[id], q)
    ensures Kept(s, PutAt(s, id, q))
  {
  }

  // ----- step by step -----------------------------------------------------------------------------

  lemma KeptSame(s: Exec, t: Exec)
    requires t.instance == s.instance && t.owner == s.owner && t.plans == s.plans && t.grants == s.grants && t.requests == s.requests
    requires (forall p | p in s.mockLedgers :: p in t.mockLedgers) && WorkKept(s, t)
    ensures Kept(s, t)
  {
  }

  lemma KeptPlan(s: Exec, p: Plan)
    requires p.id !in s.plans && SignalsFit(p)
    ensures Kept(s, s.(plans := s.plans[p.id := p]))
  {
    hide SignalsFit;
  }

  lemma KeptOperation(s: Exec, k: Digest, q: Operation)
    requires k in s.operations ==> SameWork(s.operations[k], q)
    ensures Kept(s, s.(operations := s.operations[k := q]))
  {
    hide SignalsFit;
  }

  lemma KeptGrant(s: Exec, k: Digest, h: Grant)
    requires k in s.grants ==> SameTerms(s.grants[k], h)
    ensures Kept(s, s.(grants := s.grants[k := h]))
  {
    hide SignalsFit;
  }

  lemma PlanKept(s: Exec, c: Principal, p: Plan)
    ensures Kept(s, InstallPlan(s, c, p).state)
  {
    hide ValidateSignals, Kept, RuleFits;
    KeptSelf(s);
    if ValidatePlan(p).Ok? && p.id !in s.plans {
      ValidPlanFits(p);
      KeptPlan(s, p);
    }
  }

  lemma GrantKept(s: Exec, c: Principal, g: Grant)
    ensures Kept(s, InstallGrant(s, c, g).state)
  {
    hide Kept, GrantFieldsOk;
    KeptSelf(s);
    if g.id !in s.grants {
      KeptGrant(s, g.id, g);
    }
  }

  lemma RevokeKept(s: Exec, c: Principal, k: Digest)
    ensures Kept(s, Revoke(s, c, k).state)
  {
    hide Kept;
    KeptSelf(s);
    if k in s.grants && s.grants[k].revision + 1 < TWO_64 {
      KeptGrant(s, k, s.grants[k].(revoked := true, revision := s.grants[k].revision + 1));
    }
  }

  lemma FinishEvaluationKept(s: Exec, id: Digest, d: Digest, r: Fallible<Receipt>, now: U64)
    ensures Kept(s, FinishEvaluation(s, id, d, r, now).state)
  {
    hide Kept, Current, CheckRule, KnownReceipt;
    KeptSelf(s);
    if id in s.requests {
      var q := s.requests[id];
      KeptPut(s, id, Stalled(q));
      if q.plan in s.plans && |q.receipts| < |s.plans[q.plan].signals| && q.pending.Some? && q.status == Evaluating {
        var signals := s.plans[q.plan].signals;
        KeptPut(s, id, Verdict(q, |signals|, r, Judge(signals[|q.receipts|], q.pending.value.request, r)));
      }
      if Current(s, q, now).Ok? {
        CurrentSnapshot(s, q, now);
      }
    }
  }

  lemma UpgradeKept(s: Exec)
    ensures Kept(s, RecoverAfterUpgrade(s))
  {
    hide SignalsFit;
  }

  lemma SubmitKept(s: Exec, c: Principal, n: U64, o: Digest, g: Digest, now: U64)
    requires Inv(s)
    ensures Kept(s, Submit(s, c, n, o, g, now).state)
  {
    hide Inv, SignalsFit, Submit, RequestId;
    SubmitFresh(s, c, n, o, g, now);
    SubmitTimely(s, c, n, o, g, now);
  }

  lemma SubmitTimely(s: Exec, c: Principal, n: U64, o: Digest, g: Digest, now: U64)
    requires Inv(s)
    ensures var t, id := Submit(s, c, n, o, g, now).state, RequestId(s.instance, c, n);
      t != s ==> id in t.requests && Timely(t, t.requests[id])
  {
    hide Inv, RequestId, Eligible, Snapshot;
  }

  lemma RecordKept(s: Exec, e: LocalEvent)
    requires e.EvCancel? || e.EvTransportFailed?
    ensures Kept(s, LocalNext(s, e))
  {
    hide Kept;
    KeptSelf(s);
    match e
    case EvCancel(c, id) => if id in s.requests { KeptPut(s, id, Dropped(s.requests[id])); }
    case EvTransportFailed(id, d) =>
      if id in s.requests && s.requests[id].pending.Some? {
        KeptPut(s, id, Unsent(s.requests[id]));
      }
  }

  lemma ModeKept(s: Exec, c: Principal, m: Mode, p: bool)
    ensures Kept(s, SetMode(s, c, m).state) && Kept(s, SetPaused(s, c, p).state)
  {
    hide Kept;
    KeptSelf(s);
    KeptSame(s, s.(mode := m));
    KeptSame(s, s.(paused := p));
  }

  lemma OperationKept(s: Exec, c: Principal, o: Operation)
    ensures Kept(s, InstallOperation(s, c, o).state)
  {
    hide Kept, TransferProposal.Validate, SameWork;
    KeptSelf(s);
    if o.id !in s.operations {
      KeptOperation(s, o.id, o);
    }
  }

  lemma RevisionKept(s: Exec, c: Principal, id: Digest, x: Blob)
    ensures Kept(s, ReviseOperation(s, c, id, x).state)
  {
    hide Kept;
    KeptSelf(s);
    if id in s.operations && s.operations[id].revision + 1 < TWO_64 {
      KeptOperation(s, id, s.operations[id].(evidence := x, revision := s.operations[id].revision + 1));
    }
  }

  lemma LocalKept(s: Exec, e: LocalEvent)
    requires Inv(s)
    ensures Kept(s, LocalNext(s, e))
  {
    hide Inv, Kept, Submit, FinishEvaluation, InstallPlan, InstallOperation, ReviseOperation, InstallGrant, Revoke, RecoverAfterUpgrade,
         Cancel, EngineTransportFailed, SetMode, SetPaused;
    match e
    case EvInstallPlan(c, p) => PlanKept(s, c, p);
    case EvInstallGrant(c, g) => GrantKept(s, c, g);
    case EvRevoke(c, k) => RevokeKept(s, c, k);
    case EvSubmit(c, n, o, g, now) => SubmitKept(s, c, n, o, g, now);
    case EvFinishEvaluation(id, d, r, now) => FinishEvaluationKept(s, id, d, r, now);
    case EvCancel(c, id) => RecordKept(s, e);
    case EvTransportFailed(id, d) => RecordKept(s, e);
    case EvUpgrade => UpgradeKept(s);
    case EvSetMode(c, m) => ModeKept(s, c, m, false);
    case EvSetPaused(c, p) => ModeKept(s, c, Mock, p);
    case EvInstallOperation(c, o) => OperationKept(s, c, o);
    case EvReviseOperation(c, id, x) => RevisionKept(s, c, id, x);
  }

  lemma BeginKept(s: Exec, c: Principal, id: Digest, now: U64)
    ensures Kept(s, BeginEvaluation(s, c, id, now).state)
  {
    hide Kept, Current, SlotRequest;
    KeptSelf(s);
    if id in s.requests {
      var r := s.requests[id];
      KeptPut(s, id, Stalled(r));
      if r.pending.Some? {
        KeptPut(s, id, Resent(r));
      }
      if Current(s, r, now).Ok? {
        CurrentSnapshot(s, r, now);
        if |r.receipts| < |s.plans[r.plan].signals| && |r.receipts| < 256 && !Closed(r.status) {
          KeptPut(s, id, Asked(r, SlotRequest(s, id, r)));
        }
      }
    }
  }

  lemma RetryKept(s: Exec, c: Principal, id: Digest, now: U64)
    ensures Kept(s, RetryUnknown(s, c, id, now).state)
  {
    hide Kept, Current;
    KeptSelf(s);
    if id in s.requests && s.requests[id].status.UnknownOutcome? {
      KeptPut(s, id, Retried(s.requests[id]));
    }
  }

  /** A payment in progress: one record, its operation and the books of its grant. */
  lemma KeptAll(s: Exec, t: Exec, id: Digest, q: RequestRecord, k: Digest, h: Grant)
    requires id in s.requests && SameOrigin(s.requests[id], q) && k in s.grants && SameTerms(s.grants[k], h)
    requires t == s.(requests := s.requests[id := q], grants := s.grants[k := h], operations := t.operations) && WorkKept(s, t)
    ensures Kept(s, t)
  {
    hide SignalsFit;
  }

  lemma SettleKept(s: Exec, id: Digest, success: bool, text: string)
    requires Inv(s) && id in s.requests && IsOpen(s.requests[id])
    ensures Kept(s, SettleRecord(s, s.requests[id], success, text).state)
  {
    hide Inv, Kept, Books, EvidenceOk, RequestId;
    var r := s.requests[id];
    RecordOf(s, id);
    GrantOf(s, r.grant);
    SettleSucceeds(s, id, success, text);
    var h := Settle(s.grants[r.grant], r.reservation.value.charge, r.reservation.value.epoch, success).value;
    OperationOf(s, r.operation);
    KeptAll(s, SettleRecord(s, r, success, text).state, id, Settled(r, success, text), r.grant, h);
  }

  lemma FinishKept(s: Exec, cmd: DispatchCommand, outcome: LedgerOutcome)
    requires Inv(s) && Names(s, cmd)
    ensures Kept(s, FinishLedger(s, cmd, outcome).state)
  {
    hide Inv, Kept, SettleRecord, BlockIndex;
    var id := cmd.request;
    RecordOf(s, id);
    RecordKey(s, id, s.requests[id]);
    hide RecordOk;
    KeptSelf(s);
    if IsOpen(s.requests[id]) {
      var text := if outcome.Success? || outcome.AlreadyDone? then outcome.index else outcome.text;
      SettleKept(s, id, true, text);
      SettleKept(s, id, false, text);
      KeptPut(s, id, Doubted(s.requests[id], text));
    }
  }

  // ----- where a payload comes from -------------------------------------------------------------------

  /** The conditions a payload was frozen under, as fields of the state it was frozen in. */
  ghost predicate FrozenUnder(s: Exec, id: Digest, f: FrozenTransfer) {
    && id in s.requests && s.requests[id].grant in s.grants
    && var r, g, p := s.requests[id], s.grants[s.requests[id].grant], f.proposal;
       && !s.paused && s.mode == Mock && p.ledger in s.mockLedgers
       && r.caller == g.delegate && !g.revoked && f.createdAt < g.expiresAt && f.createdAt < r.expiresAt
       && p.ledger == g.ledger && p.fromSubaccount == g.fromSubaccount && p.to in g.recipients
       && p.amount <= g.maxAmount && p.fee <= g.maxFee && p.Validate().Ok?
       && r.operation in s.operations && s.operations[r.operation].proposal == p
       && s.operations[r.operation].revision == r.operationRevision && g.revision == r.grantRevision
  }

  lemma AuthorizedUnder(s: Exec, caller: Principal, id: Digest, now: U64)
    requires Inv(s) && Authorize(s, caller, id, now).Ok? && s.mode == Mock
    ensures Windowed(s)
    ensures Budgeted(s, s.requests[id], now).Ok? ==>
      FrozenUnder(s, id, FrozenTransfer(s.operations[s.requests[id].operation].proposal, id, now))
  {
    InvWindowed(s);
    AuthorizedMeans(s, caller, id, now);
    hide Inv, Authorize, Snapshot, Reserve, TransferProposal.Validate, TransferProposal.Charge;
  }

  lemma BudgetedTerms(s: Exec, r: RequestRecord, now: U64)
    requires Windowed(s) && Budgeted(s, r, now).Ok?
    ensures r.grant in s.grants && SameTerms(s.grants[r.grant], Budgeted(s, r, now).value.0)
  {
  }

  lemma CommitKept(s: Exec, id: Digest, caller: Principal, now: U64)
    requires Inv(s) && Authorize(s, caller, id, now).Ok? && Windowed(s)
    requires Budgeted(s, s.requests[id], now).Ok?
    ensures s.requests[id].operation in s.operations
    ensures var r, b := s.requests[id], Budgeted(s, s.requests[id], now).value;
      Kept(s, Commit(s, r, s.operations[r.operation], b.0, b.1, b.2, now))
  {
    hide Inv, Kept, Authorize, Budgeted, EvidenceOk, RequestId, Books;
    AuthorizedMeans(s, caller, id, now);
    RecordOf(s, id);
    var r, b := s.requests[id], Budgeted(s, s.requests[id], now).value;
    BudgetedTerms(s, r, now);
    GrantOf(s, r.grant);
    var op := s.operations[r.operation];
    OperationOf(s, r.operation);
    KeptAll(s, Commit(s, r, op, b.0, b.1, b.2, now), id, Sent(r, op, b.1, b.2, now), r.grant, b.0);
  }

  /** Dispatch keeps everything, and freezes at most the payload it was authorized for. */
  lemma DispatchKept(s: Exec, caller: Principal, id: Digest, now: U64)
    requires Inv(s) && Authorize(s, caller, id, now).Ok?
    ensures Windowed(s)
    ensures var t := PrepareDispatch(s, Authorize(s, caller, id, now).value, now).state;
      && Kept(s, t) && t.requests.Keys == s.requests.Keys
      && (forall k | k in t.requests && t.requests[k].frozen != s.requests[k].frozen ::
            k == id && t.requests[k].frozen.Some? && t.requests[k].frozen.value.createdAt == now
            && FrozenUnder(s, id, t.requests[k].frozen.value))
  {
    hide Inv, Kept, Authorize, Budgeted, FrozenUnder, RecordOk;
    InvWindowed(s);
    AuthorizedMeans(s, caller, id, now);
    RecordOf(s, id);
    RecordKey(s, id, s.requests[id]);
    var r := s.requests[id];
    KeptSelf(s);
    KeptPut(s, id, OnlyReported(r));
    if Budgeted(s, r, now).Ok? && s.mode == Mock {
      CommitKept(s, id, caller, now);
      AuthorizedUnder(s, caller, id, now);
    }
    hide Current;
  }

  // ----- along a behaviour ------------------------------------------------------------------------------

  /** One step: everything is kept, and only a dispatch gives a request its payload. */
  ghost predicate Stepped(s: Exec, t: Exec, e: Event) {
    && Kept(s, t)
    && forall id | id in t.requests && t.requests[id].frozen.Some? && !(id in s.requests && s.requests[id].frozen.Some?) ::
         && e.Dispatch? && e.id == id && t.requests[id].frozen.value.createdAt == e.now
         && FrozenUnder(s, id, t.requests[id].frozen.value)
  }

  lemma QuietStepped(s: Exec, t: Exec, e: Event)
    requires Kept(s, t) && QuietStep(s, t)
    ensures Stepped(s, t, e)
  {
    hide Kept;
  }

  lemma AnswerStepped(s: Exec, cmd: DispatchCommand, outcome: LedgerOutcome, e: Event)
    requires Inv(s) && Names(s, cmd)
    ensures Stepped(s, FinishLedger(s, cmd, outcome).state, e)
  {
    hide Inv, Kept, FinishLedger;
    FinishKept(s, cmd, outcome);
    FinishLedgerEffect(s, cmd, outcome);
  }

  lemma DispatchStepped(s: System, c: Principal, id: Digest, now: U64, e: Event)
    requires Inv(s.exec) && e == Dispatch(c, id, now)
    ensures Windowed(s.exec)
    ensures Stepped(s.exec, DispatchNext(s, c, id, now).exec, e)
  {
    hide Inv, Kept, Authorize, PrepareDispatch, FrozenUnder, Windowed;
    InvWindowed(s.exec);
    KeptSelf(s.exec);
    if Authorize(s.exec, c, id, now).Ok? {
      DispatchKept(s.exec, c, id, now);
    }
  }

  lemma RetryStepped(s: System, c: Principal, id: Digest, now: U64, e: Event)
    ensures Stepped(s.exec, RetryNext(s, c, id, now).exec, e)
  {
    hide Kept, Current;
    KeptSelf(s.exec);
    RetryKept(s.exec, c, id, now);
  }

  lemma RegisterStepped(s: Exec, c: Principal, p: Principal, e: Event)
    ensures Stepped(s, RegisterMockLedger(s, c, p).state, e)
  {
    hide Kept, QuietStep, Stepped;
    var t := RegisterMockLedger(s, c, p).state;
    QuietSame(s, t);
    KeptSame(s, t);
    QuietStepped(s, t, e);
  }

  lemma QuietExec(s: System, e: Event)
    requires Windowed(s.exec)
    requires e.Deliver? || e.DropMessage? || e.LoseCallback? || e.StartProbe? || e.AnswerProbe? || e.LedgerFault? || e.ForeignTransfer?
    ensures Next(s, e).exec == s.exec
  {
    hide Windowed, ML.Transfer, ML.SetFault, ML.Find, ReconcileCommand;
  }

  lemma NextStepped(s: System, e: Event)
    requires SysInv(s) && Windowed(s.exec)
    ensures Stepped(s.exec, Next(s, e).exec, e)
  {
    hide Inv, NetOk, AskedWithin, AskedKnown, QuietStep, Stepped, Kept, Windowed, LocalNext, BeginEvaluation, DispatchNext, RetryNext,
         FinishLedger, OutcomeOf, FrozenDigest, Names, DeliverNext, AnswerNext, ReconcileCommand, RegisterMockLedger, ML.SetFault, ML.Transfer;
    KeptSelf(s.exec);
    QuietSame(s.exec, s.exec);
    QuietStepped(s.exec, s.exec, e);
    match e
    case Local(l) => LocalQuiet(s.exec, l); LocalKept(s.exec, l); QuietStepped(s.exec, LocalNext(s.exec, l), e);
    case RegisterLedger(c, p) => RegisterStepped(s.exec, c, p, e);
    case BeginEval(c, k, now) =>
      BeginEvaluationQuiet(s.exec, c, k, now);
      BeginKept(s.exec, c, k, now);
      QuietStepped(s.exec, BeginEvaluation(s.exec, c, k, now).state, e);
    case Dispatch(c, k, now) => DispatchStepped(s, c, k, now, e);
    case Retry(c, k, now) => RetryStepped(s, c, k, now, e);
    case Callback(i) =>
      if i < |s.calls| && s.calls[i].message.Executed? && !s.calls[i].message.reply.Silent? {
        CallNames(s, i);
        AnswerStepped(s.exec, s.calls[i].command, OutcomeOf(s.calls[i].message.reply), e);
      }
    case Timeout(i, text) =>
      if i < |s.calls| {
        CallNames(s, i);
        AnswerStepped(s.exec, s.calls[i].command, Unknown(text), e);
      }
    case ReturnProbe(i) =>
      if i < |s.probes| && s.probes[i].answer.Some? && ProbeOutcome(s.probes[i].command, s.probes[i].answer.value).Some? {
        ProbeNames(s, i);
        AnswerStepped(s.exec, s.probes[i].command, ProbeOutcome(s.probes[i].command, s.probes[i].answer.value).value, e);
      }
    case _ => QuietExec(s, e);
  }

  lemma {:induction false} KeptAlong(states: seq<System>, events: seq<Event>, i: nat, j: nat)
    requires Behaviour(states, events) && i <= j < |states|
    ensures Kept(states[i].exec, states[j].exec)
  {
    hide SysInv, Next, Windowed, Initial, Kept;
    if i == j {
      KeptSelf(states[i].exec);
    } else {
      KeptAlong(states, events, i, j - 1);
      AlwaysOk(states, events, j - 1);
      assert Follows(states, events, j - 1);
      NextStepped(states[j - 1], events[j - 1]);
      KeptOn(states[i].exec, states[j - 1].exec, states[j].exec);
    }
  }

  /** Every payload was frozen by one dispatch, under its grant as it then was. */
  lemma {:induction false} FrozenByDispatch(states: seq<System>, events: seq<Event>, i: nat, id: Digest) returns (j: nat)
    requires Behaviour(states, events) && i < |states| && id in states[i].exec.requests && states[i].exec.requests[id].frozen.Some?
    ensures j < i && events[j].Dispatch? && events[j].id == id
    ensures id in states[j + 1].exec.requests && states[j + 1].exec.requests[id].frozen == states[i].exec.requests[id].frozen
    ensures var f := states[i].exec.requests[id].frozen.value; f.createdAt == events[j].now && FrozenUnder(states[j].exec, id, f)
  {
    hide SysInv, Next, Windowed, FrozenUnder, RegistryKept;
    if i > 0 {
      hide Initial;
      AlwaysOk(states, events, i - 1);
      assert Follows(states, events, i - 1);
      NextStepped(states[i - 1], events[i - 1]);
      if id in states[i - 1].exec.requests && states[i - 1].exec.requests[id].frozen.Some? {
        j := FrozenByDispatch(states, events, i - 1, id);
      } else {
        j := i - 1;
      }
    }
  }

  /**
   Every block the executor causes respects the grant it is charged to: recipient, amount, fee, source and delegate;
   and when its payload was dispatched that grant was neither revoked nor expired, nor the executor paused.
   */
  lemma PaymentsRespectGrants(states: seq<System>, events: seq<Event>, i: nat, p: Principal, n: nat) returns (j: nat)
    requires Behaviour(states, events) && i < |states| && p in states[i].ledgers && n < |states[i].ledgers[p].blocks|
    requires states[i].ledgers[p].blocks[n].caller == states[i].exec.instance
    ensures var s, transfer := states[i].exec, states[i].ledgers[p].blocks[n].transfer;
      && transfer.memo in s.requests && s.requests[transfer.memo].grant in s.grants
      && var r, g := s.requests[transfer.memo], s.grants[s.requests[transfer.memo].grant];
         && r.caller == g.delegate && transfer.proposal.to in g.recipients && transfer.proposal.ledger == g.ledger == p
         && transfer.proposal.fromSubaccount == g.fromSubaccount
         && transfer.proposal.amount <= g.maxAmount && transfer.proposal.fee <= g.maxFee
         && r.operation in s.operations && transfer.proposal == s.operations[r.operation].proposal
         && j < i && events[j].Dispatch? && events[j].id == transfer.memo && events[j].now == transfer.createdAt
         && r.grant in states[j].exec.grants
         && !states[j].exec.grants[r.grant].revoked && transfer.createdAt < states[j].exec.grants[r.grant].expiresAt
         && !states[j].exec.paused && states[j].exec.mode == Mock
  {
    hide SysInv, Windowed, Next, Follows, Initial;
    AlwaysOk(states, events, i);
    BlockOfRequest(states[i], p, n);
    var id := states[i].ledgers[p].blocks[n].transfer.memo;
    j := FrozenByDispatch(states, events, i, id);
    KeptAlong(states, events, j, i);
  }

  lemma NoSend(s: System, e: Event)
    requires SysInv(s) && Windowed(s.exec) && (s.exec.mode != Mock || s.exec.paused)
    ensures |Next(s, e).calls| == |s.calls|
  {
    hide Inv, NetOk, AskedWithin, AskedKnown, Windowed, LocalNext, BeginEvaluation, FinishLedger, OutcomeOf, FrozenDigest, Budgeted, Commit,
         ReconcileCommand, RegisterMockLedger, ML.SetFault, ML.Transfer, ML.Find, Snapshot, CheckRule;
  }

  /** Whatever is asked in shadow, report-only or live mode, or while paused, nothing goes out to a ledger. */
  lemma OnlyMockSends(states: seq<System>, events: seq<Event>, i: nat)
    requires Behaviour(states, events) && i < |events| && (states[i].exec.mode != Mock || states[i].exec.paused)
    ensures |states[i + 1].calls| == |states[i].calls|
  {
    hide SysInv, Next, Windowed, Initial;
    AlwaysOk(states, events, i);
    assert Follows(states, events, i);
    NoSend(states[i], events[i]);
  }

  /** An accepted submission is on record under its own terms. */
  lemma Accepted(s: Exec, caller: Principal, nonce: U64, op: Digest, g: Digest, now: U64)
    requires Inv(s) && Submit(s, caller, nonce, op, g, now).result.Ok?
    ensures var id, t := RequestId(s.instance, caller, nonce), Submit(s, caller, nonce, op, g, now).state;
      && caller != ANONYMOUS && Submit(s, caller, nonce, op, g, now).result == Ok(id)
      && id in t.requests && t.requests[id].operation == op && t.requests[id].grant == g
  {
    hide Inv, RequestId, Admit, Snapshot;
  }

  lemma SentAgain(s: Exec, caller: Principal, nonce: U64, op: Digest, g: Digest, op2: Digest, g2: Digest, now: U64)
    requires Inv(s) && !s.paused && caller != ANONYMOUS
    requires var id := RequestId(s.instance, caller, nonce); id in s.requests && s.requests[id].operation == op && s.requests[id].grant == g
    ensures Submit(s, caller, nonce, op2, g2, now)
         == Step(s, if op2 == op && g2 == g then Ok(RequestId(s.instance, caller, nonce)) else Err(IdConflict))
  {
    hide Inv, RequestId, Admit;
    NonceConsumedUnreachable(s, caller, nonce, op2, g2, now);
  }

  lemma StillOnRecord(s: Exec, t: Exec, id: Digest)
    requires Kept(s, t)
    ensures t.instance == s.instance
    ensures id in s.requests ==> id in t.requests && t.requests[id].operation == s.requests[id].operation && t.requests[id].grant == s.requests[id].grant
  {
    hide SignalsFit;
  }

  lemma SubmitNext(s: System, caller: Principal, nonce: U64, op: Digest, g: Digest, now: U64)
    requires Windowed(s.exec)
    ensures Next(s, Local(EvSubmit(caller, nonce, op, g, now))).exec == Submit(s.exec, caller, nonce, op, g, now).state
  {
    hide Windowed, Submit;
  }

  /**
   However much happens in between, an accepted submission sent again is answered with the same identifier, and its
   nonce with another operation or grant is a conflict; neither changes anything.
   */
  lemma SubmittedOnce(states: seq<System>, events: seq<Event>, i: nat, j: nat, caller: Principal, nonce: U64, op: Digest, g: Digest, now: U64,
                      op2: Digest, g2: Digest, later: U64)
    requires Behaviour(states, events) && i < |events| && i < j < |states|
    requires events[i] == Local(EvSubmit(caller, nonce, op, g, now)) && Submit(states[i].exec, caller, nonce, op, g, now).result.Ok?
    ensures !states[j].exec.paused ==>
      Submit(states[j].exec, caller, nonce, op2, g2, later)
      == Step(states[j].exec, if op2 == op && g2 == g then Submit(states[i].exec, caller, nonce, op, g, now).result else Err(IdConflict))
  {
    hide Inv, NetOk, AskedWithin, AskedKnown, Windowed, Initial, RequestId, Submit, Kept, Next;
    AlwaysOk(states, events, i);
    AlwaysOk(states, events, j);
    assert Follows(states, events, i);
    SubmitNext(states[i], caller, nonce, op, g, now);
    Accepted(states[i].exec, caller, nonce, op, g, now);
    KeptAlong(states, events, i, j);
    KeptAlong(states, events, i + 1, j);
    var id := RequestId(states[i].exec.instance, caller, nonce);
    StillOnRecord(states[i].exec, states[j].exec, id);
    StillOnRecord(states[i + 1].exec, states[j].exec, id);
    if !states[j].exec.paused {
      SentAgain(states[j].exec, caller, nonce, op, g, op2, g2, later);
    }
  }

  lemma BlockOfRequest(s: System, p: Principal, n: nat)
    requires SysInv(s) && p in s.ledgers && n < |s.ledgers[p].blocks| && s.ledgers[p].blocks[n].caller == s.exec.instance
    ensures var b := s.ledgers[p].blocks[n];
      && b.transfer.memo in s.exec.requests && s.exec.requests[b.transfer.memo].frozen == Some(b.transfer)
      && b.transfer.proposal.ledger == p
  {
    hide Inv, AskedWithin, AskedKnown;
    assert BlockOk(s, p, s.ledgers[p].blocks[n]);
  }

  /** The request has no payload, and nothing was committed in its name. */
  ghost predicate Unpaid(s: System, id: Digest) {
    && id in s.exec.requests && s.exec.requests[id].frozen.None?
    && forall p, n: nat | p in s.ledgers && n < |s.ledgers[p].blocks| ::
         !(s.ledgers[p].blocks[n].caller == s.exec.instance && s.ledgers[p].blocks[n].transfer.memo == id)
  }

  lemma UnfrozenUnpaid(s: System, id: Digest)
    requires SysInv(s) && id in s.exec.requests && s.exec.requests[id].frozen.None?
    ensures Unpaid(s, id)
  {
    hide SysInv;
    forall p, n: nat | p in s.ledgers && n < |s.ledgers[p].blocks| && s.ledgers[p].blocks[n].caller == s.exec.instance
      ensures s.ledgers[p].blocks[n].transfer.memo != id
    {
      BlockOfRequest(s, p, n);
    }
  }

  lemma ClosedUnfrozen(s: Exec, id: Digest)
    requires Inv(s) && id in s.requests && Closed(s.requests[id].status)
    ensures s.requests[id].frozen.None?
  {
    hide Inv, EvidenceOk, RequestId, Books;
    RecordOf(s, id);
  }

  /** Cancelled, stale, reported or left for review: whatever happens later, the request stays closed and is never paid. */
  lemma ClosedNeverPays(states: seq<System>, events: seq<Event>, i: nat, j: nat, id: Digest)
    requires Behaviour(states, events) && i <= j < |states| && id in states[i].exec.requests && Closed(states[i].exec.requests[id].status)
    ensures Unpaid(states[j], id) && Closed(states[j].exec.requests[id].status)
  {
    hide SysInv, Windowed, Next, Follows, Initial, RegistryKept, Unpaid;
    AlwaysOk(states, events, j);
    KeptAlong(states, events, i, j);
    hide Behaviour;
    SysInvExec(states[j]);
    ClosedUnfrozen(states[j].exec, id);
    UnfrozenUnpaid(states[j], id);
  }

  /** Installed plans ask each signal a rule of its own kind. */
  lemma PlansFit(states: seq<System>, events: seq<Event>, i: nat, k: Digest)
    requires Behaviour(states, events) && i < |states| && k in states[i].exec.plans
    ensures SignalsFit(states[i].exec.plans[k])
  {
    hide SignalsFit, Follows;
    KeptAlong(states, events, 0, i);
    assert states[0].exec.plans == map[];
  }
}
