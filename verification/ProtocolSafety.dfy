/** Safety of the transfer protocol over every run. */
module ProtocolSafety {
  import opened Wrappers
  import opened Numbers
  import opened Canonical
  import opened Types
  import opened Icrc
  import opened Workflow
  import opened WorkflowInvariant
  import opened WorkflowSteps
  import opened Protocol
  import ML = MockLedger
  import Decimal

  // ----- the system invariant ---------------------------------------------------------------

  /** The executor's payload `f` is block `n` of its ledger. */
  ghost predicate OnChain(s: System, f: FrozenTransfer, n: nat) {
    var p := f.proposal.ledger;
    p in s.ledgers && n < |s.ledgers[p].blocks| && s.ledgers[p].blocks[n] == ML.Block(s.exec.instance, f)
  }

  /** The payload of a known request; never a different one. */
  ghost predicate Names(s: Exec, cmd: DispatchCommand) {
    && cmd.request in s.requests && s.requests[cmd.request].frozen == Some(cmd.transfer)
    && 1 <= cmd.attempt <= s.requests[cmd.request].ledgerAttempt
  }

  predicate Refusal(m: Message) {
    m.Executed? && m.reply.Refused? && !m.reply.error.Duplicate?
  }

  predicate Commits(m: Message) {
    m.Executed? && (m.reply.Landed? || m.reply.Silent?)
  }

  ghost predicate CallOk(s: System, c: Call) {
    && Names(s.exec, c.command)
    && (c.message.Executed? && c.message.reply.Landed? ==> OnChain(s, c.command.transfer, c.message.reply.index))
    && (c.message.Executed? && c.message.reply.Refused? && c.message.reply.error.Duplicate? ==>
          OnChain(s, c.command.transfer, c.message.reply.error.of))
    && (s.exec.requests[c.command.request].status.FailedDefinitive? ==> Refusal(c.message))
  }

  ghost predicate CallsOk(s: System) {
    forall i | 0 <= i < |s.calls| :: CallOk(s, s.calls[i])
  }

  /** No two sends carry the same attempt of the same request. */
  ghost predicate Distinct(s: System) {
    forall i, j | 0 <= i < j < |s.calls| ::
      s.calls[i].command.request != s.calls[j].command.request || s.calls[i].command.attempt != s.calls[j].command.attempt
  }

  ghost predicate ProbeOk(s: System, b: Probe) {
    && Names(s.exec, b.command)
    && (b.answer.Some? && b.answer.value.Some? && b.answer.value.value.frozenHash == FrozenDigest(b.command.transfer) ==>
          exists n: nat :: OnChain(s, b.command.transfer, n) && b.answer.value.value.blockIndex == Decimal.Show(n))
  }

  ghost predicate ProbesOk(s: System) {
    forall i | 0 <= i < |s.probes| :: ProbeOk(s, s.probes[i])
  }

  /** A call for request `id` committed. */
  ghost predicate Accounted(s: System, id: Digest) {
    exists i | 0 <= i < |s.calls| :: s.calls[i].command.request == id && Commits(s.calls[i].message)
  }

  /** Every block the executor caused is the frozen payload of a request, committed by a call of that request. */
  ghost predicate BlockOk(s: System, p: Principal, b: ML.Block) {
    b.caller == s.exec.instance ==>
      && b.transfer.memo in s.exec.requests && s.exec.requests[b.transfer.memo].frozen == Some(b.transfer)
      && b.transfer.proposal.ledger == p && Accounted(s, b.transfer.memo)
  }

  ghost predicate ChainOk(s: System) {
    forall p, n | p in s.ledgers && 0 <= n < |s.ledgers[p].blocks| :: BlockOk(s, p, s.ledgers[p].blocks[n])
  }

  ghost predicate LedgersOk(s: System) {
    forall p | p in s.ledgers :: s.ledgers[p].self == p && ML.LedgerOk(s.ledgers[p])
  }

  ghost predicate SuccessOk(s: System, r: RequestRecord) {
    r.status.Succeeded? ==> r.frozen.Some? && exists n: nat :: OnChain(s, r.frozen.value, n) && r.status.index == Decimal.Show(n)
  }

  ghost predicate SuccessesOk(s: System) {
    forall id | id in s.exec.requests :: SuccessOk(s, s.exec.requests[id])
  }

  /** How often slot `k` of a request may have been asked so far. */
  function Allowance(r: RequestRecord, k: nat): nat {
    if k < |r.receipts| then 2
    else if k > |r.receipts| then 0
    else if r.pending.Some? then r.pending.value.sends
    else if r.status == Received then 0 else 2
  }

  ghost predicate AskedWithin(s: System) {
    forall id, k: U64 | id in s.exec.requests ::
      s.asked[SlotId(id, k, s.exec.requests[id].snapshot)] <= Allowance(s.exec.requests[id], k)
  }

  ghost predicate AskedKnown(s: System) {
    forall d | d in s.asked :: exists id, k: U64 :: id in s.exec.requests && d == SlotId(id, k, s.exec.requests[id].snapshot)
  }

  ghost predicate NetOk(s: System) {
    LedgersOk(s) && CallsOk(s) && Distinct(s) && ProbesOk(s) && ChainOk(s) && SuccessesOk(s)
  }

  ghost predicate SysInv(s: System) {
    Inv(s.exec) && NetOk(s) && AskedWithin(s) && AskedKnown(s)
  }

  lemma SystemWindowed(s: System)
    requires SysInv(s)
    ensures Windowed(s.exec)
  {
    InvWindowed(s.exec);
  }

  // ----- executor steps the network cannot see --------------------------------------------

  predicate Settledness(st: Status) {
    st.Succeeded? || st.FailedDefinitive?
  }

  /** From a record to its successor, nothing about the payment moves. */
  ghost predicate QuietRecordStep(r: RequestRecord, q: RequestRecord) {
    && q.frozen == r.frozen && q.ledgerAttempt == r.ledgerAttempt
    && (Settledness(r.status) || Settledness(q.status) ==> q.status == r.status)
  }

  ghost predicate QuietStep(s: Exec, t: Exec) {
    && t.instance == s.instance
    && (forall id | id in s.requests :: id in t.requests && QuietRecordStep(s.requests[id], t.requests[id]))
    && (forall id | id in t.requests && id !in s.requests :: t.requests[id].frozen.None? && !Settledness(t.requests[id].status))
  }

  lemma QuietCalls(s: System, t: Exec)
    requires CallsOk(s) && ProbesOk(s) && QuietStep(s.exec, t)
    ensures CallsOk(s.(exec := t)) && ProbesOk(s.(exec := t))
  {
    hide FrozenDigest;
    var u := s.(exec := t);
    forall i | 0 <= i < |u.calls| ensures CallOk(u, u.calls[i]) {
      assert CallOk(s, s.calls[i]);
    }
    forall i | 0 <= i < |u.probes| ensures ProbeOk(u, u.probes[i]) {
      var b := u.probes[i];
      assert ProbeOk(s, b);
      if b.answer.Some? && b.answer.value.Some? && b.answer.value.value.frozenHash == FrozenDigest(b.command.transfer) {
        var n: nat :| OnChain(s, b.command.transfer, n) && b.answer.value.value.blockIndex == Decimal.Show(n);
        assert OnChain(u, b.command.transfer, n);
      }
    }
  }

  lemma QuietChain(s: System, t: Exec)
    requires ChainOk(s) && SuccessesOk(s) && QuietStep(s.exec, t)
    ensures ChainOk(s.(exec := t)) && SuccessesOk(s.(exec := t))
  {
    var u := s.(exec := t);
    forall p, n | p in u.ledgers && 0 <= n < |u.ledgers[p].blocks| ensures BlockOk(u, p, u.ledgers[p].blocks[n]) {
      assert BlockOk(s, p, s.ledgers[p].blocks[n]);
      var memo := s.ledgers[p].blocks[n].transfer.memo;
      assert Accounted(s, memo) ==> Accounted(u, memo);
    }
    forall id | id in u.exec.requests ensures SuccessOk(u, u.exec.requests[id]) {
      var q := u.exec.requests[id];
      if q.status.Succeeded? {
        assert SuccessOk(s, s.exec.requests[id]);
        var n: nat :| OnChain(s, q.frozen.value, n) && q.status.index == Decimal.Show(n);
        assert OnChain(u, q.frozen.value, n);
      }
    }
  }

  lemma QuietNet(s: System, t: Exec)
    requires NetOk(s) && QuietStep(s.exec, t)
    ensures NetOk(s.(exec := t))
  {
    QuietCalls(s, t);
    QuietChain(s, t);
    hide CallsOk, ProbesOk, ChainOk, SuccessesOk, QuietStep;
  }

  /** A record's replacement is quiet when its payment fields are. */
  lemma QuietPutAt(s: Exec, id: Digest, q: RequestRecord)
    requires id in s.requests && QuietRecordStep(s.requests[id], q)
    ensures QuietStep(s, PutAt(s, id, q))
  {
  }

  lemma UnfrozenUnsettled(s: Exec, id: Digest)
    requires Inv(s) && id in s.requests && s.requests[id].frozen.None?
    ensures !Settledness(s.requests[id].status)
  {
    hide Inv, EvidenceOk, RequestId;
    RecordOf(s, id);
  }

  lemma QuietSame(s: Exec, t: Exec)
    requires t.instance == s.instance && t.requests == s.requests
    ensures QuietStep(s, t)
  {
  }

  lemma RegistrySame(s: Exec, e: LocalEvent)
    requires !e.EvSubmit? && !e.EvCancel? && !e.EvTransportFailed? && !e.EvFinishEvaluation? && !e.EvUpgrade?
    ensures LocalNext(s, e).instance == s.instance && LocalNext(s, e).requests == s.requests
  {
    hide ValidateSignals;
  }

  lemma RecoverQuiet(s: Exec)
    ensures QuietStep(s, RecoverAfterUpgrade(s))
  {
  }

  lemma LocalQuiet(s: Exec, e: LocalEvent)
    requires Inv(s)
    ensures QuietStep(s, LocalNext(s, e))
  {
    hide Inv, QuietStep, SetMode, SetPaused, InstallPlan, InstallOperation, ReviseOperation, InstallGrant, Revoke, Submit, Cancel;
    hide EngineTransportFailed, FinishEvaluation, RecoverAfterUpgrade;
    match e
    case EvSubmit(c, n, o, g, now) => SubmitQuiet(s, c, n, o, g, now);
    case EvCancel(c, id) => CancelQuiet(s, c, id);
    case EvTransportFailed(id, d) => TransportFailedQuiet(s, id, d);
    case EvFinishEvaluation(id, d, r, now) => FinishEvaluationQuiet(s, id, d, r, now);
    case EvUpgrade => RecoverQuiet(s);
    case _ => RegistrySame(s, e); QuietSame(s, LocalNext(s, e));
  }

  lemma FreshQuiet(s: Exec, t: Exec, id: Digest, c: Principal)
    requires Fresh(s, t, id, c) && !Settledness(t.requests[id].status)
    ensures QuietStep(s, t)
  {
    hide RequestId;
  }

  lemma SubmitQuiet(s: Exec, c: Principal, n: U64, o: Digest, g: Digest, now: U64)
    requires Inv(s)
    ensures var t := Submit(s, c, n, o, g, now).state; QuietStep(s, t) && AllowStep(s, t)
  {
    hide Inv, Admit, QuietStep, AllowStep, Snapshot, RequestId;
    SubmitFresh(s, c, n, o, g, now);
    var t, id := Submit(s, c, n, o, g, now).state, RequestId(s.instance, c, n);
    if t != s {
      assert t.requests[id].status == Received;
      hide Submit;
      FreshQuiet(s, t, id, c);
      FreshAllows(s, t, id, c);
    } else {
      QuietSame(s, t);
      AllowSame(s, t);
    }
  }

  lemma CancelQuiet(s: Exec, c: Principal, id: Digest)
    requires Inv(s)
    ensures var t := Cancel(s, c, id).state; QuietStep(s, t) && AllowStep(s, t)
  {
    hide Inv, QuietStep, AllowStep, AllowsAsMuch;
    QuietSame(s, s);
    AllowSame(s, s);
    if id in s.requests && s.requests[id].frozen.None? {
      var r := s.requests[id];
      UnfrozenUnsettled(s, id);
      QuietPutAt(s, id, Dropped(r));
      PendingSends(s, id);
      AllowRecord(r, Dropped(r));
      AllowPutAt(s, id, Dropped(r));
    }
  }

  lemma TransportFailedQuiet(s: Exec, id: Digest, d: Digest)
    requires Inv(s)
    ensures var t := EngineTransportFailed(s, id, d).state; QuietStep(s, t) && AllowStep(s, t)
  {
    hide Inv, QuietStep, AllowStep, AllowsAsMuch;
    QuietSame(s, s);
    AllowSame(s, s);
    if id in s.requests && s.requests[id].status == Evaluating && s.requests[id].pending.Some? {
      var r := s.requests[id];
      QuietPutAt(s, id, Unsent(r));
      PendingSends(s, id);
      AllowRecord(r, Unsent(r));
      AllowPutAt(s, id, Unsent(r));
    }
  }

  lemma StalledQuiet(s: Exec, id: Digest)
    requires id in s.requests && InProgress(s.requests[id].status)
    ensures QuietStep(s, PutAt(s, id, Stalled(s.requests[id])))
  {
    hide QuietStep;
    QuietPutAt(s, id, Stalled(s.requests[id]));
  }

  lemma VerdictQuiet(s: Exec, id: Digest, n: nat, result: Fallible<Receipt>, verdict: Fallible<bool>)
    requires id in s.requests && s.requests[id].status == Evaluating && (verdict.Ok? ==> result.Ok?)
    ensures QuietStep(s, PutAt(s, id, Verdict(s.requests[id], n, result, verdict)))
  {
    hide QuietStep;
    QuietPutAt(s, id, Verdict(s.requests[id], n, result, verdict));
  }

  lemma FinishEvaluationQuiet(s: Exec, id: Digest, d: Digest, r: Fallible<Receipt>, now: U64)
    requires Inv(s)
    ensures var t := FinishEvaluation(s, id, d, r, now).state; QuietStep(s, t) && AllowStep(s, t)
  {
    hide Inv, QuietStep, AllowStep, Current, Verdict, KnownReceipt, Stalled;
    QuietSame(s, s);
    AllowSame(s, s);
    if id in s.requests && s.requests[id].status == Evaluating && s.requests[id].pending.Some? {
      StalledQuiet(s, id);
      StalledAllows(s, id);
      var q := s.requests[id];
      if Current(s, q, now).Ok? {
        CurrentSnapshot(s, q, now);
      }
      if q.plan in s.plans && |q.receipts| < |s.plans[q.plan].signals| {
        var signals := s.plans[q.plan].signals;
        var verdict := Judge(signals[|q.receipts|], q.pending.value.request, r);
        VerdictQuiet(s, id, |signals|, r, verdict);
        VerdictAllows(s, id, |signals|, r, verdict);
      }
    }
  }

  lemma AskedQuiet(s: Exec, id: Digest, req: DecisionRequest)
    requires id in s.requests && InProgress(s.requests[id].status)
    ensures QuietStep(s, PutAt(s, id, Asked(s.requests[id], req)))
    ensures s.requests[id].pending.Some? ==> QuietStep(s, PutAt(s, id, Resent(s.requests[id])))
  {
    hide QuietStep;
    QuietPutAt(s, id, Asked(s.requests[id], req));
    if s.requests[id].pending.Some? {
      QuietPutAt(s, id, Resent(s.requests[id]));
    }
  }

  lemma BeginEvaluationQuiet(s: Exec, c: Principal, id: Digest, now: U64)
    ensures QuietStep(s, BeginEvaluation(s, c, id, now).state)
  {
    hide QuietStep, Current, SlotRequest, Asked, Resent, Stalled;
    QuietSame(s, s);
    var step := BeginEvaluation(s, c, id, now);
    if id in s.requests && InProgress(s.requests[id].status) {
      StalledQuiet(s, id);
      if step.result.Ok? {
        AskedQuiet(s, id, step.result.value);
      }
    }
  }

  lemma SettingsAfter(s: Exec, t: Exec, c: Principal, mode: Mode, pause: bool)
    requires Inv(s) && (t == SetMode(s, c, mode).state || t == SetPaused(s, c, pause).state)
    ensures Inv(t)
  {
    hide Inv;
    SettingsKeep(s, t.mode, t.paused, t.mockLedgers);
    assert AssertOwner(s, c).Err? ==> t == s;
    assert t == s.(mode := t.mode, paused := t.paused, mockLedgers := t.mockLedgers);
  }

  // ----- what finish_ledger may do ----------------------------------------------------------

  /** The four effects of a ledger answer on the request it names. */
  datatype Effect = NoEffect | Doubt(text: string) | Pay(index: string) | Release(reason: string)

  function EffectOf(r: RequestRecord, cmd: DispatchCommand, outcome: LedgerOutcome): Effect {
    if !IsOpen(r) then NoEffect else
    match outcome
    case Success(index) => if BlockIndex(index) then Pay(index) else NoEffect
    case AlreadyDone(index) => if BlockIndex(index) then Pay(index) else NoEffect
    case DefinitiveError(e) => if !r.everUnknown && cmd.attempt == r.ledgerAttempt then Release(e) else Doubt(e)
    case Unknown(e) => Doubt(e)
  }

  function Affected(r: RequestRecord, e: Effect): RequestRecord {
    match e
    case NoEffect => r
    case Doubt(text) => Doubted(r, text)
    case Pay(index) => Settled(r, true, index)
    case Release(reason) => Settled(r, false, reason)
  }

  /** On an invariant state every answer to a known command has exactly its effect on the named record. */
  lemma FinishLedgerEffect(s: Exec, cmd: DispatchCommand, outcome: LedgerOutcome)
    requires Inv(s) && Names(s, cmd)
    ensures var t, r := FinishLedger(s, cmd, outcome).state, s.requests[cmd.request];
      && t.instance == s.instance && t.requests == s.requests[cmd.request := Affected(r, EffectOf(r, cmd, outcome))]
      && t.mockLedgers == s.mockLedgers && t.plans == s.plans
      && (forall g | g in s.grants :: g in t.grants && t.grants[g].ledger == s.grants[g].ledger)
  {
    hide Inv, Settle, Doubted, Settled, SettleRecord;
    var id, r := cmd.request, s.requests[cmd.request];
    assert s.requests == s.requests[id := r];
    if IsOpen(r) {
      RecordOf(s, id);
      RecordKey(s, id, r);
      match EffectOf(r, cmd, outcome)
      case NoEffect =>
      case Doubt(_) =>
      case Pay(index) => SettleSucceeds(s, id, true, index); SettleShape(s, id, true, index);
      case Release(e) => SettleSucceeds(s, id, false, e); SettleShape(s, id, false, e);
    }
  }

  lemma SettleShape(s: Exec, id: Digest, success: bool, text: string)
    requires Inv(s) && id in s.requests && SettleRecord(s, s.requests[id], success, text).result.Ok?
    ensures var t := SettleRecord(s, s.requests[id], success, text).state;
      && t.instance == s.instance && t.requests == s.requests[id := Settled(s.requests[id], success, text)]
      && t.mockLedgers == s.mockLedgers && t.plans == s.plans
      && (forall g | g in s.grants :: g in t.grants && t.grants[g].ledger == s.grants[g].ledger)
  {
    hide Inv, Books, Settled;
    var r := s.requests[id];
    RecordOf(s, id);
    RecordKey(s, id, r);
    hide RecordOk;
    GrantOf(s, r.grant);
    SettleFields(s.grants[r.grant], r.reservation.value.charge, r.reservation.value.epoch, success);
    hide Settle;
  }

  /** Why an answer may be acted on: paying needs the block, releasing needs this very call's refusal. */
  ghost predicate Justified(s: System, cmd: DispatchCommand, e: Effect) {
    && (e.Pay? ==> exists n: nat :: OnChain(s, cmd.transfer, n) && e.index == Decimal.Show(n))
    && (e.Release? ==> exists i: nat :: i < |s.calls| && s.calls[i].command == cmd && Refusal(s.calls[i].message))
  }

  lemma AffectedKeeps(r: RequestRecord, e: Effect)
    ensures var q := Affected(r, e);
      && q.frozen == r.frozen && q.ledgerAttempt == r.ledgerAttempt && q.id == r.id && q.snapshot == r.snapshot
      && (e.NoEffect? ==> q == r) && (e.Doubt? ==> q.status.UnknownOutcome?)
      && (e.Pay? ==> q.status == Succeeded(e.index)) && (e.Release? ==> q.status == FailedDefinitive(e.reason))
  {
  }

  /** A release is a first attempt's: no other call of the request exists. */
  lemma ReleaseFirst(s: Exec, cmd: DispatchCommand, outcome: LedgerOutcome)
    requires Inv(s) && Names(s, cmd) && EffectOf(s.requests[cmd.request], cmd, outcome).Release?
    ensures s.requests[cmd.request].ledgerAttempt == 1 == cmd.attempt
  {
    hide Inv, EvidenceOk, RequestId;
    RecordOf(s, cmd.request);
  }

  lemma ResolveCalls(s: System, cmd: DispatchCommand, e: Effect, t: Exec)
    requires CallsOk(s) && Distinct(s) && Names(s.exec, cmd) && Justified(s, cmd, e)
    requires e.Release? ==> s.exec.requests[cmd.request].ledgerAttempt == 1 == cmd.attempt
    requires t.instance == s.exec.instance
    requires t.requests == s.exec.requests[cmd.request := Affected(s.exec.requests[cmd.request], e)]
    ensures CallsOk(s.(exec := t))
  {
    var u, id := s.(exec := t), cmd.request;
    AffectedKeeps(s.exec.requests[id], e);
    hide Affected;
    forall i | 0 <= i < |u.calls| ensures CallOk(u, u.calls[i]) {
      assert CallOk(s, s.calls[i]);
      if e.Release? && s.calls[i].command.request == id {
        var j: nat :| j < |s.calls| && s.calls[j].command == cmd && Refusal(s.calls[j].message);
        assert i == j;
      }
    }
  }

  lemma ResolveProbes(s: System, cmd: DispatchCommand, e: Effect, t: Exec)
    requires ProbesOk(s) && Names(s.exec, cmd)
    requires t.instance == s.exec.instance
    requires t.requests == s.exec.requests[cmd.request := Affected(s.exec.requests[cmd.request], e)]
    ensures ProbesOk(s.(exec := t))
  {
    var u := s.(exec := t);
    AffectedKeeps(s.exec.requests[cmd.request], e);
    hide Affected, FrozenDigest;
    forall i | 0 <= i < |u.probes| ensures ProbeOk(u, u.probes[i]) {
      var b := u.probes[i];
      assert ProbeOk(s, b);
      if b.answer.Some? && b.answer.value.Some? && b.answer.value.value.frozenHash == FrozenDigest(b.command.transfer) {
        var n: nat :| OnChain(s, b.command.transfer, n) && b.answer.value.value.blockIndex == Decimal.Show(n);
        assert OnChain(u, b.command.transfer, n);
      }
    }
  }

  lemma ResolveChain(s: System, cmd: DispatchCommand, e: Effect, t: Exec)
    requires ChainOk(s) && SuccessesOk(s) && Names(s.exec, cmd) && Justified(s, cmd, e)
    requires t.instance == s.exec.instance
    requires t.requests == s.exec.requests[cmd.request := Affected(s.exec.requests[cmd.request], e)]
    ensures ChainOk(s.(exec := t)) && SuccessesOk(s.(exec := t))
  {
    var u, k := s.(exec := t), cmd.request;
    AffectedKeeps(s.exec.requests[k], e);
    hide Affected;
    forall p, n | p in u.ledgers && 0 <= n < |u.ledgers[p].blocks| ensures BlockOk(u, p, u.ledgers[p].blocks[n]) {
      assert BlockOk(s, p, s.ledgers[p].blocks[n]);
      var memo := s.ledgers[p].blocks[n].transfer.memo;
      assert Accounted(s, memo) ==> Accounted(u, memo);
    }
    forall id | id in u.exec.requests ensures SuccessOk(u, u.exec.requests[id]) {
      var q := u.exec.requests[id];
      if q.status.Succeeded? {
        if id == k && e.Pay? {
          var n: nat :| OnChain(s, cmd.transfer, n) && e.index == Decimal.Show(n);
          assert OnChain(u, q.frozen.value, n);
        } else {
          assert SuccessOk(s, s.exec.requests[id]);
          var n: nat :| OnChain(s, q.frozen.value, n) && q.status.index == Decimal.Show(n);
          assert OnChain(u, q.frozen.value, n);
        }
      }
    }
  }

  lemma ResolveRest(s: System, t: Exec)
    requires LedgersOk(s) && Distinct(s)
    ensures LedgersOk(s.(exec := t)) && Distinct(s.(exec := t))
  {
  }

  lemma ResolveNet(s: System, cmd: DispatchCommand, outcome: LedgerOutcome)
    requires Inv(s.exec) && NetOk(s) && Names(s.exec, cmd)
    requires Justified(s, cmd, EffectOf(s.exec.requests[cmd.request], cmd, outcome))
    ensures Inv(FinishLedger(s.exec, cmd, outcome).state) && NetOk(s.(exec := FinishLedger(s.exec, cmd, outcome).state))
  {
    assert cmd.request in s.exec.requests;
    hide Inv, FinishLedger, EffectOf, Affected, Names, Justified, CallsOk, ProbesOk, ChainOk, SuccessesOk, LedgersOk, Distinct;
    var e, t := EffectOf(s.exec.requests[cmd.request], cmd, outcome), FinishLedger(s.exec, cmd, outcome).state;
    FinishLedgerKeeps(s.exec, cmd, outcome);
    FinishLedgerEffect(s.exec, cmd, outcome);
    if e.Release? {
      ReleaseFirst(s.exec, cmd, outcome);
    }
    ResolveCalls(s, cmd, e, t);
    ResolveProbes(s, cmd, e, t);
    ResolveChain(s, cmd, e, t);
    ResolveRest(s, t);
  }

  // ----- sending ------------------------------------------------------------------------------

  /** A send: one more call, for an attempt not sent before, of a record whose payload is now fixed. */
  ghost predicate SendStep(s: Exec, t: Exec, cmd: DispatchCommand) {
    && t.instance == s.instance && cmd.request in s.requests && cmd.request in t.requests
    && t.requests == s.requests[cmd.request := t.requests[cmd.request]]
    && var r, q := s.requests[cmd.request], t.requests[cmd.request];
       (r.frozen.None? || r.frozen == q.frozen) && q.frozen == Some(cmd.transfer)
       && !Settledness(r.status) && !Settledness(q.status)
       && cmd.attempt == q.ledgerAttempt == r.ledgerAttempt + 1
  }

  lemma SendCalls(s: System, t: Exec, cmd: DispatchCommand)
    requires CallsOk(s) && Distinct(s) && SendStep(s.exec, t, cmd)
    ensures var u := s.(exec := t, calls := s.calls + [Call(cmd, InFlight, true)]); CallsOk(u) && Distinct(u)
  {
    var u := s.(exec := t, calls := s.calls + [Call(cmd, InFlight, true)]);
    forall i | 0 <= i < |u.calls| ensures CallOk(u, u.calls[i]) {
      if i < |s.calls| {
        assert CallOk(s, s.calls[i]);
      }
    }
    forall i | 0 <= i < |s.calls|
      ensures s.calls[i].command.request != cmd.request || s.calls[i].command.attempt != cmd.attempt
    {
      assert CallOk(s, s.calls[i]);
    }
  }

  lemma SendRest(s: System, t: Exec, cmd: DispatchCommand)
    requires ProbesOk(s) && ChainOk(s) && SuccessesOk(s) && SendStep(s.exec, t, cmd)
    ensures var u := s.(exec := t, calls := s.calls + [Call(cmd, InFlight, true)]); ProbesOk(u) && ChainOk(u) && SuccessesOk(u)
  {
    hide FrozenDigest;
    var u := s.(exec := t, calls := s.calls + [Call(cmd, InFlight, true)]);
    forall i | 0 <= i < |u.probes| ensures ProbeOk(u, u.probes[i]) {
      var b := u.probes[i];
      assert ProbeOk(s, b);
      if b.answer.Some? && b.answer.value.Some? && b.answer.value.value.frozenHash == FrozenDigest(b.command.transfer) {
        var n: nat :| OnChain(s, b.command.transfer, n) && b.answer.value.value.blockIndex == Decimal.Show(n);
        assert OnChain(u, b.command.transfer, n);
      }
    }
    forall p, n | p in u.ledgers && 0 <= n < |u.ledgers[p].blocks| ensures BlockOk(u, p, u.ledgers[p].blocks[n]) {
      assert BlockOk(s, p, s.ledgers[p].blocks[n]);
      var memo := s.ledgers[p].blocks[n].transfer.memo;
      if Accounted(s, memo) {
        var i :| 0 <= i < |s.calls| && s.calls[i].command.request == memo && Commits(s.calls[i].message);
        assert u.calls[i] == s.calls[i];
      }
    }
    forall id | id in u.exec.requests ensures SuccessOk(u, u.exec.requests[id]) {
      var q := u.exec.requests[id];
      if q.status.Succeeded? {
        assert SuccessOk(s, s.exec.requests[id]);
        var n: nat :| OnChain(s, q.frozen.value, n) && q.status.index == Decimal.Show(n);
        assert OnChain(u, q.frozen.value, n);
      }
    }
  }

  lemma SendNet(s: System, t: Exec, cmd: DispatchCommand)
    requires NetOk(s) && SendStep(s.exec, t, cmd)
    ensures NetOk(s.(exec := t, calls := s.calls + [Call(cmd, InFlight, true)]))
  {
    SendCalls(s, t, cmd);
    SendRest(s, t, cmd);
    hide CallsOk, ProbesOk, ChainOk, SuccessesOk, Distinct, SendStep;
  }

  // ----- messages and ledgers -----------------------------------------------------------------

  /** Ledgers only grow, and new blocks of the executor are accounted for. */
  ghost predicate Grows(s: System, t: System) {
    && t.exec == s.exec && t.ledgers.Keys == s.ledgers.Keys
    && (forall p | p in s.ledgers :: s.ledgers[p].blocks <= t.ledgers[p].blocks)
  }

  lemma OnChainGrows(s: System, t: System, f: FrozenTransfer, n: nat)
    requires Grows(s, t) && OnChain(s, f, n)
    ensures OnChain(t, f, n)
  {
    var p := f.proposal.ledger;
    assert s.ledgers[p].blocks <= t.ledgers[p].blocks;
  }

  lemma ProbeGrows(s: System, t: System, b: Probe)
    requires Grows(s, t) && ProbeOk(s, b)
    ensures ProbeOk(t, b)
  {
    hide FrozenDigest, OnChain, Grows;
    assert Names(t.exec, b.command) by { GrowsExec(s, t); }
    if b.answer.Some? && b.answer.value.Some? && b.answer.value.value.frozenHash == FrozenDigest(b.command.transfer) {
      var n: nat :| OnChain(s, b.command.transfer, n) && b.answer.value.value.blockIndex == Decimal.Show(n);
      OnChainGrows(s, t, b.command.transfer, n);
    }
  }

  lemma GrowsExec(s: System, t: System)
    requires Grows(s, t)
    ensures t.exec == s.exec
  {
  }

  lemma CallGrows(s: System, t: System, c: Call)
    requires Grows(s, t) && CallOk(s, c)
    ensures CallOk(t, c)
  {
    GrowsExec(s, t);
    hide OnChain, Grows;
    if c.message.Executed? && c.message.reply.Landed? {
      OnChainGrows(s, t, c.command.transfer, c.message.reply.index);
    }
    if c.message.Executed? && c.message.reply.Refused? && c.message.reply.error.Duplicate? {
      OnChainGrows(s, t, c.command.transfer, c.message.reply.error.of);
    }
  }

  lemma SuccessGrows(s: System, t: System)
    requires Grows(s, t) && SuccessesOk(s)
    ensures SuccessesOk(t)
  {
    GrowsExec(s, t);
    hide OnChain, Grows;
    forall id | id in t.exec.requests ensures SuccessOk(t, t.exec.requests[id]) {
      var q := t.exec.requests[id];
      assert SuccessOk(s, q);
      if q.status.Succeeded? {
        var n: nat :| OnChain(s, q.frozen.value, n) && q.status.index == Decimal.Show(n);
        OnChainGrows(s, t, q.frozen.value, n);
      }
    }
  }

  /** Calls keep their commands and never un-commit. */
  ghost predicate CallsAdvance(s: System, t: System) {
    |t.calls| == |s.calls| && forall i | 0 <= i < |s.calls| ::
      t.calls[i].command == s.calls[i].command && (Commits(s.calls[i].message) ==> Commits(t.calls[i].message))
  }

  lemma AccountedAdvances(s: System, t: System, id: Digest)
    requires CallsAdvance(s, t) && Accounted(s, id)
    ensures Accounted(t, id)
  {
    var i :| 0 <= i < |s.calls| && s.calls[i].command.request == id && Commits(s.calls[i].message);
    assert t.calls[i].command.request == id && Commits(t.calls[i].message);
  }

  /** Everything the growth of ledgers and calls leaves to check is stated by its premises. */
  lemma GrowNet(s: System, t: System)
    requires NetOk(s) && Grows(s, t) && CallsAdvance(s, t) && t.probes == s.probes && LedgersOk(t)
    requires forall i | 0 <= i < |t.calls| :: t.calls[i] == s.calls[i] || CallOk(t, t.calls[i])
    requires forall p, n | p in t.ledgers && |s.ledgers[p].blocks| <= n < |t.ledgers[p].blocks| :: BlockOk(t, p, t.ledgers[p].blocks[n])
    ensures NetOk(t)
  {
    SuccessGrows(s, t);
    hide OnChain, FrozenDigest;
    forall i | 0 <= i < |t.calls| ensures CallOk(t, t.calls[i]) {
      if t.calls[i] == s.calls[i] {
        assert CallOk(s, s.calls[i]);
        CallGrows(s, t, s.calls[i]);
      }
    }
    forall i | 0 <= i < |t.probes| ensures ProbeOk(t, t.probes[i]) {
      assert ProbeOk(s, s.probes[i]);
      ProbeGrows(s, t, s.probes[i]);
    }
    forall p, n | p in t.ledgers && 0 <= n < |t.ledgers[p].blocks| ensures BlockOk(t, p, t.ledgers[p].blocks[n]) {
      if n < |s.ledgers[p].blocks| {
        assert s.ledgers[p].blocks <= t.ledgers[p].blocks;
        assert t.ledgers[p].blocks[n] == s.ledgers[p].blocks[n];
        assert BlockOk(s, p, s.ledgers[p].blocks[n]);
        if s.ledgers[p].blocks[n].caller == s.exec.instance {
          AccountedAdvances(s, t, s.ledgers[p].blocks[n].transfer.memo);
        }
      }
    }
  }

  lemma FrozenMemo(s: Exec, id: Digest)
    requires Inv(s) && id in s.requests && s.requests[id].frozen.Some?
    ensures s.requests[id].frozen.value.memo == id
  {
    hide Inv, EvidenceOk, RequestId;
    RecordOf(s, id);
  }

  /** The ledger's side of a delivery, for the executor's own payload. */
  lemma DeliveredReply(l: ML.Ledger, caller: Principal, f: FrozenTransfer, now: U64)
    requires ML.LedgerOk(l) && f.proposal.ledger == l.self
    ensures var (m, reply) := ML.Transfer(l, caller, ToIcrc(f), now);
      && ML.LedgerOk(m) && m.self == l.self && l.blocks <= m.blocks
      && (m.blocks == l.blocks || (m.blocks == l.blocks + [ML.Block(caller, f)] && (reply.Landed? || reply.Silent?)))
      && (reply.Landed? ==> reply.index < |m.blocks| && m.blocks[reply.index] == ML.Block(caller, f))
      && (reply.Refused? && reply.error.Duplicate? ==>
            reply.error.of < |m.blocks| && m.blocks[reply.error.of] == ML.Block(caller, f))
  {
    ML.TransferKeeps(l, caller, ToIcrc(f), now);
    WireRoundTrip(f);
    hide ML.LedgerOk, FrozenDigest;
    if FromIcrc(ToIcrc(f), l.self).Ok? {
      hide FromIcrc, ToIcrc;
      ML.ReplyMeans(l, caller, f, now);
    }
  }

  /** What a delivery did to the ledger, without saying how. */
  ghost predicate LedgerDid(l: ML.Ledger, m: ML.Ledger, reply: ML.Reply, b: ML.Block) {
    && m.self == l.self && l.blocks <= m.blocks
    && (m.blocks == l.blocks || (m.blocks == l.blocks + [b] && (reply.Landed? || reply.Silent?)))
    && (reply.Landed? ==> reply.index < |m.blocks| && m.blocks[reply.index] == b)
    && (reply.Refused? && reply.error.Duplicate? ==> reply.error.of < |m.blocks| && m.blocks[reply.error.of] == b)
  }

  lemma DeliveredNet(s: System, i: nat, m: ML.Ledger, reply: ML.Reply)
    requires NetOk(s) && i < |s.calls| && s.calls[i].message == InFlight
    requires var c := s.calls[i]; var f, p := c.command.transfer, c.command.transfer.proposal.ledger;
      && p in s.ledgers && f.memo == c.command.request && ML.LedgerOk(m)
      && LedgerDid(s.ledgers[p], m, reply, ML.Block(s.exec.instance, f))
    ensures var p := s.calls[i].command.transfer.proposal.ledger;
      NetOk(s.(ledgers := s.ledgers[p := m], calls := s.calls[i := s.calls[i].(message := Executed(reply))]))
  {
    hide ML.LedgerOk;
    var c := s.calls[i];
    var f, p := c.command.transfer, c.command.transfer.proposal.ledger;
    var t := s.(ledgers := s.ledgers[p := m], calls := s.calls[i := c.(message := Executed(reply))]);
    assert CallOk(s, c);
    assert CallOk(t, t.calls[i]);
    assert Grows(s, t) && CallsAdvance(s, t) && LedgersOk(t);
    forall q, n | q in t.ledgers && |s.ledgers[q].blocks| <= n < |t.ledgers[q].blocks| ensures BlockOk(t, q, t.ledgers[q].blocks[n]) {
      assert t.calls[i].command.request == f.memo && Commits(t.calls[i].message);
    }
    hide Grows, CallsAdvance, LedgersOk, LedgerDid;
    GrowNet(s, t);
  }

  lemma DeliverNet(s: System, i: nat, now: U64)
    requires Inv(s.exec) && NetOk(s) && i < |s.calls|
    ensures NetOk(DeliverNext(s, i, now))
  {
    hide Inv, ML.Transfer, ML.LedgerOk, ToIcrc, CallsOk, ProbesOk, ChainOk, SuccessesOk, Distinct, OnChain;
    var c := s.calls[i];
    var f, p := c.command.transfer, c.command.transfer.proposal.ledger;
    if c.message == InFlight && p in s.ledgers {
      CallNames(s, i);
      FrozenMemo(s.exec, c.command.request);
      var (m, reply) := ML.Transfer(s.ledgers[p], s.exec.instance, ToIcrc(f), now);
      DeliveredReply(s.ledgers[p], s.exec.instance, f, now);
      assert LedgerDid(s.ledgers[p], m, reply, ML.Block(s.exec.instance, f));
      hide NetOk, LedgerDid;
      DeliveredNet(s, i, m, reply);
    }
  }

  lemma CallNames(s: System, i: nat)
    requires NetOk(s) && i < |s.calls|
    ensures Names(s.exec, s.calls[i].command) && CallOk(s, s.calls[i])
  {
    assert CallOk(s, s.calls[i]);
  }

  lemma ProbeNames(s: System, i: nat)
    requires NetOk(s) && i < |s.probes|
    ensures Names(s.exec, s.probes[i].command) && ProbeOk(s, s.probes[i])
  {
    assert ProbeOk(s, s.probes[i]);
  }

  lemma DropNet(s: System, i: nat, c: Call)
    requires NetOk(s) && i < |s.calls| && c.command == s.calls[i].command
    requires c.message == s.calls[i].message || (s.calls[i].message == InFlight && c.message == Lost)
    ensures NetOk(s.(calls := s.calls[i := c]))
  {
    var t := s.(calls := s.calls[i := c]);
    assert CallOk(s, s.calls[i]);
    assert CallOk(t, t.calls[i]);
    assert Grows(s, t) && CallsAdvance(s, t);
    hide Grows, CallsAdvance;
    GrowNet(s, t);
  }

  lemma LedgerNet(s: System, p: Principal, l: ML.Ledger)
    requires NetOk(s) && p in s.ledgers && ML.LedgerOk(l) && l.self == p && s.ledgers[p].blocks <= l.blocks
    requires forall n | |s.ledgers[p].blocks| <= n < |l.blocks| :: l.blocks[n].caller != s.exec.instance
    ensures NetOk(s.(ledgers := s.ledgers[p := l]))
  {
    hide ML.LedgerOk;
    var t := s.(ledgers := s.ledgers[p := l]);
    assert Grows(s, t) && CallsAdvance(s, t) && LedgersOk(t);
    hide Grows, CallsAdvance, LedgersOk;
    GrowNet(s, t);
  }

  lemma ForeignNet(s: System, p: Principal, c: Principal, arg: TransferArg, now: U64)
    requires NetOk(s) && p in s.ledgers && c != s.exec.instance
    ensures NetOk(s.(ledgers := s.ledgers[p := ML.Transfer(s.ledgers[p], c, arg, now).0]))
  {
    hide ML.Transfer, ML.LedgerOk, CallsOk, ProbesOk, ChainOk, SuccessesOk, Distinct;
    ML.TransferKeeps(s.ledgers[p], c, arg, now);
    hide FromIcrc;
    LedgerNet(s, p, ML.Transfer(s.ledgers[p], c, arg, now).0);
  }

  lemma FaultNet(s: System, p: Principal, c: Principal, f: ML.Fault)
    requires NetOk(s) && p in s.ledgers
    ensures NetOk(s.(ledgers := s.ledgers[p := ML.SetFault(s.ledgers[p], c, f).0]))
  {
    ML.FaultKeeps(s.ledgers[p], f);
    hide ML.LedgerOk;
    LedgerNet(s, p, ML.SetFault(s.ledgers[p], c, f).0);
  }

  lemma ProbeNet(s: System, probes: seq<Probe>)
    requires NetOk(s) && forall i | 0 <= i < |probes| :: ProbeOk(s, probes[i])
    ensures NetOk(s.(probes := probes))
  {
    var t := s.(probes := probes);
    hide OnChain, FrozenDigest, Names;
    forall i | 0 <= i < |t.probes| ensures ProbeOk(t, t.probes[i]) {
      assert ProbeOk(s, probes[i]);
      ProbeGrows(s, t, probes[i]);
    }
    hide ProbeOk;
    forall i | 0 <= i < |t.calls| ensures CallOk(t, t.calls[i]) {
      assert CallOk(s, s.calls[i]);
      CallGrows(s, t, s.calls[i]);
    }
    SuccessGrows(s, t);
    forall p, n | p in t.ledgers && 0 <= n < |t.ledgers[p].blocks| ensures BlockOk(t, p, t.ledgers[p].blocks[n]) {
      assert BlockOk(s, p, s.ledgers[p].blocks[n]);
      assert Accounted(s, s.ledgers[p].blocks[n].transfer.memo) ==> Accounted(t, s.ledgers[p].blocks[n].transfer.memo);
    }
  }

  lemma StartProbeNet(s: System, c: Principal, id: Digest)
    requires Inv(s.exec) && NetOk(s) && ReconcileCommand(s.exec, c, id).Ok?
    ensures NetOk(s.(probes := s.probes + [Probe(ReconcileCommand(s.exec, c, id).value, None, true)]))
  {
    hide Inv, EvidenceOk, RequestId;
    RecordOf(s.exec, id);
    var cmd := ReconcileCommand(s.exec, c, id).value;
    assert Names(s.exec, cmd);
    assert ProbeOk(s, Probe(cmd, None, true));
    hide RecordOk, ReconcileCommand, Names, ProbeOk;
    ProbeNet(s, s.probes + [Probe(cmd, None, true)]);
  }

  lemma FoundOnChain(s: System, f: FrozenTransfer)
    requires LedgersOk(s) && f.proposal.ledger in s.ledgers
    ensures var found := ML.Find(s.ledgers[f.proposal.ledger], s.exec.instance, ToIcrc(f));
      found.Some? ==> exists n: nat :: OnChain(s, f, n) && found.value.blockIndex == Decimal.Show(n)
  {
    var l := s.ledgers[f.proposal.ledger];
    WireRoundTrip(f);
    hide FromIcrc, ToIcrc, FrozenDigest;
    if FromIcrc(ToIcrc(f), l.self).Ok? {
      ML.FindMeans(l, s.exec.instance, ToIcrc(f));
      hide ML.LedgerOk, ML.Find;
      var found := ML.Find(l, s.exec.instance, ToIcrc(f));
      if found.Some? {
        var n: nat :| n < |l.blocks| && l.blocks[n] == ML.Block(s.exec.instance, f) && found.value.blockIndex == Decimal.Show(n);
        assert OnChain(s, f, n);
      }
    }
  }

  lemma AnswerNet(s: System, i: nat)
    requires NetOk(s) && i < |s.probes|
    ensures NetOk(AnswerNext(s, i))
  {
    hide ML.Find, ToIcrc, FrozenDigest, OnChain, CallsOk, ChainOk, SuccessesOk, Distinct;
    var b := s.probes[i];
    var f, p := b.command.transfer, b.command.transfer.proposal.ledger;
    if b.answer.None? && p in s.ledgers {
      FoundOnChain(s, f);
      ProbeNames(s, i);
      var found := ML.Find(s.ledgers[p], s.exec.instance, ToIcrc(f));
      assert ProbeOk(s, b.(answer := Some(found)));
      ProbeReplaced(s, i, b.(answer := Some(found)));
    }
  }

  lemma ProbeReplaced(s: System, i: nat, b: Probe)
    requires NetOk(s) && i < |s.probes| && ProbeOk(s, b)
    ensures NetOk(s.(probes := s.probes[i := b]))
  {
    hide ProbeOk, CallsOk, ChainOk, SuccessesOk, Distinct, LedgersOk;
    ProbeNet(s, s.probes[i := b]);
  }

  // ----- sends and returns as steps ----------------------------------------------------------

  lemma CommitSends(s: Exec, id: Digest, g: Grant, charge: U128, epoch: U64, now: U64)
    requires id in s.requests && s.requests[id].operation in s.operations && s.requests[id].id == id
    requires s.requests[id].frozen.None? && s.requests[id].status == ReadyToDispatch && s.requests[id].ledgerAttempt == 0
    ensures var r := s.requests[id]; var op := s.operations[r.operation];
      SendStep(s, Commit(s, r, op, g, charge, epoch, now), DispatchCommand(id, 1, FrozenTransfer(op.proposal, id, now)))
  {
  }

  lemma UnsentAttempt(s: Exec, id: Digest, r: RequestRecord)
    requires RecordOk(s, id, r) && r.frozen.None?
    ensures r.ledgerAttempt == 0
  {
    hide EvidenceOk, RequestId;
  }

  lemma DispatchSendStep(s: System, caller: Principal, id: Digest, now: U64)
    requires Inv(s.exec) && Authorize(s.exec, caller, id, now).Ok?
    ensures Windowed(s.exec)
    ensures var step := PrepareDispatch(s.exec, Authorize(s.exec, caller, id, now).value, now);
      match step.result
      case Ok(cmd) => SendStep(s.exec, step.state, cmd)
      case Err(_) => QuietStep(s.exec, step.state)
  {
    hide Inv, RecordOk, Authorize, Budgeted, PrepareDispatch, Commit, OnlyReported, QuietStep, Windowed, SendStep;
    InvWindowed(s.exec);
    AuthorizedMeans(s.exec, caller, id, now);
    RecordOf(s.exec, id);
    RecordUnsent(s.exec, id, s.exec.requests[id]);
    UnsentAttempt(s.exec, id, s.exec.requests[id]);
    PrepareDispatchCases(s.exec, Authorize(s.exec, caller, id, now).value, now);
    if PrepareDispatch(s.exec, Authorize(s.exec, caller, id, now).value, now).result.Ok? {
      var b := Budgeted(s.exec, s.exec.requests[id], now).value;
      CommitSends(s.exec, id, b.0, b.1, b.2, now);
    }
    var step := PrepareDispatch(s.exec, Authorize(s.exec, caller, id, now).value, now);
    if step.result.Err? {
      if step.state != s.exec {
        ReportedQuiet(s.exec, id);
      } else {
        QuietSame(s.exec, s.exec);
      }
    }
  }

  lemma ReportedQuiet(s: Exec, id: Digest)
    requires id in s.requests && s.requests[id].status == ReadyToDispatch
    ensures QuietStep(s, PutAt(s, id, OnlyReported(s.requests[id])))
  {
    hide QuietStep;
    QuietPutAt(s, id, OnlyReported(s.requests[id]));
  }

  lemma CallbackJustified(s: System, i: nat)
    requires NetOk(s) && i < |s.calls| && s.calls[i].message.Executed? && !s.calls[i].message.reply.Silent?
    ensures var cmd := s.calls[i].command;
      Names(s.exec, cmd) && Justified(s, cmd, EffectOf(s.exec.requests[cmd.request], cmd, OutcomeOf(s.calls[i].message.reply)))
  {
    hide NetOk, OnChain, BlockIndex;
    CallNames(s, i);
  }

  lemma ProbeJustified(s: System, b: Probe)
    requires ProbeOk(s, b) && b.answer.Some? && ProbeOutcome(b.command, b.answer.value).Some?
    ensures Names(s.exec, b.command)
    ensures Justified(s, b.command, EffectOf(s.exec.requests[b.command.request], b.command, ProbeOutcome(b.command, b.answer.value).value))
  {
    hide FrozenDigest, OnChain;
  }

  lemma JustifiedFrame(s: System, t: System, cmd: DispatchCommand, outcome: LedgerOutcome)
    requires t == s.(probes := t.probes) && Names(s.exec, cmd) && Justified(s, cmd, EffectOf(s.exec.requests[cmd.request], cmd, outcome))
    ensures Names(t.exec, cmd) && Justified(t, cmd, EffectOf(t.exec.requests[cmd.request], cmd, outcome))
  {
    hide EffectOf;
    var e := EffectOf(s.exec.requests[cmd.request], cmd, outcome);
    if e.Pay? {
      var n: nat :| OnChain(s, cmd.transfer, n) && e.index == Decimal.Show(n);
      assert OnChain(t, cmd.transfer, n);
    }
  }

  // ----- questions to the engine ------------------------------------------------------------

  /** A record's successor may be asked no less, slot by slot. */
  ghost predicate AllowsAsMuch(r: RequestRecord, q: RequestRecord) {
    q.snapshot == r.snapshot && forall k: nat :: Allowance(r, k) <= Allowance(q, k)
  }

  ghost predicate AllowStep(s: Exec, t: Exec) {
    forall id | id in s.requests :: id in t.requests && AllowsAsMuch(s.requests[id], t.requests[id])
  }

  lemma NeverAsked(s: System, id: Digest, k: U64, snapshot: Digest)
    requires AskedKnown(s) && id !in s.exec.requests
    ensures s.asked[SlotId(id, k, snapshot)] == 0
  {
    hide SlotId;
    var d := SlotId(id, k, snapshot);
    if d in s.asked {
      var id', k': U64 :| id' in s.exec.requests && d == SlotId(id', k', s.exec.requests[id'].snapshot);
      SlotIdInjective(id, k, snapshot, id', k', s.exec.requests[id'].snapshot);
    }
  }

  lemma AllowKeeps(s: System, t: Exec)
    requires AskedWithin(s) && AskedKnown(s) && AllowStep(s.exec, t)
    ensures AskedWithin(s.(exec := t)) && AskedKnown(s.(exec := t))
  {
    hide SlotId, Allowance;
    var u := s.(exec := t);
    forall id, k: U64 | id in u.exec.requests
      ensures u.asked[SlotId(id, k, u.exec.requests[id].snapshot)] <= Allowance(u.exec.requests[id], k)
    {
      if id in s.exec.requests {
        assert AllowsAsMuch(s.exec.requests[id], t.requests[id]);
      } else {
        NeverAsked(s, id, k, u.exec.requests[id].snapshot);
      }
    }
    forall d | d in u.asked
      ensures exists id, k: U64 :: id in u.exec.requests && d == SlotId(id, k, u.exec.requests[id].snapshot)
    {
      var id, k: U64 :| id in s.exec.requests && d == SlotId(id, k, s.exec.requests[id].snapshot);
      assert AllowsAsMuch(s.exec.requests[id], t.requests[id]);
      assert id in u.exec.requests && d == SlotId(id, k, u.exec.requests[id].snapshot);
    }
  }

  lemma AllowPutAt(s: Exec, id: Digest, q: RequestRecord)
    requires id in s.requests && AllowsAsMuch(s.requests[id], q)
    ensures AllowStep(s, PutAt(s, id, q))
  {
    hide Allowance;
  }

  lemma AllowSame(s: Exec, t: Exec)
    requires t.requests == s.requests
    ensures AllowStep(s, t)
  {
  }

  /** Only what a status change does to the current slot's allowance matters. */
  lemma AllowRecord(r: RequestRecord, q: RequestRecord)
    requires q.snapshot == r.snapshot && |r.receipts| <= |q.receipts|
    requires r.pending.Some? ==> r.pending.value.sends <= 2
    requires |q.receipts| == |r.receipts| ==> Allowance(r, |r.receipts|) <= Allowance(q, |r.receipts|)
    ensures AllowsAsMuch(r, q)
  {
  }

  lemma PendingSends(s: Exec, id: Digest)
    requires Inv(s) && id in s.requests
    ensures var r := s.requests[id];
      (r.pending.Some? ==> 1 <= r.pending.value.sends <= 2 && r.status == Evaluating) && (r.status == Evaluating ==> r.pending.Some?)
  {
    hide Inv, RecordOk;
    RecordOf(s, id);
    RecordReceipts(s, id, s.requests[id]);
  }

  lemma FreshAllows(s: Exec, t: Exec, id: Digest, c: Principal)
    requires Fresh(s, t, id, c)
    ensures AllowStep(s, t)
  {
    hide RequestId;
  }

  lemma StalledAllows(s: Exec, id: Digest)
    requires Inv(s) && id in s.requests
    ensures AllowStep(s, PutAt(s, id, Stalled(s.requests[id])))
  {
    hide Inv, AllowStep, AllowsAsMuch;
    PendingSends(s, id);
    AllowRecord(s.requests[id], Stalled(s.requests[id]));
    AllowPutAt(s, id, Stalled(s.requests[id]));
  }

  lemma VerdictAllows(s: Exec, id: Digest, n: nat, result: Fallible<Receipt>, verdict: Fallible<bool>)
    requires Inv(s) && id in s.requests && s.requests[id].status == Evaluating && (verdict.Ok? ==> result.Ok?)
    ensures AllowStep(s, PutAt(s, id, Verdict(s.requests[id], n, result, verdict)))
  {
    hide Inv, AllowStep, AllowsAsMuch;
    PendingSends(s, id);
    AllowRecord(s.requests[id], Verdict(s.requests[id], n, result, verdict));
    AllowPutAt(s, id, Verdict(s.requests[id], n, result, verdict));
  }

  lemma RecoverAllows(s: Exec)
    requires Inv(s)
    ensures AllowStep(s, RecoverAfterUpgrade(s))
  {
    hide Inv, AllowsAsMuch;
    forall id | id in s.requests ensures AllowsAsMuch(s.requests[id], Recovered(s.requests[id])) {
      PendingSends(s, id);
      AllowRecord(s.requests[id], Recovered(s.requests[id]));
    }
  }

  /** A question goes out only for the current slot, and is counted there. */
  lemma BeginAsks(s: System, c: Principal, id: Digest, now: U64)
    requires Inv(s.exec) && AskedWithin(s) && AskedKnown(s)
    ensures var u := AskNext(s, c, id, now); AskedWithin(u) && AskedKnown(u)
  {
    hide Inv, AskedWithin, AskedKnown, AllowStep, Current, SlotRequest, Asked, Resent, Stalled;
    AllowSame(s.exec, s.exec);
    var step := BeginEvaluation(s.exec, c, id, now);
    if id in s.exec.requests && InProgress(s.exec.requests[id].status) {
      var r := s.exec.requests[id];
      StalledAllows(s.exec, id);
      AllowKeeps(s, PutAt(s.exec, id, Stalled(r)));
      PendingSends(s.exec, id);
      if step.result.Ok? {
        AskedId(s.exec, c, id, now);
        hide BeginEvaluation;
        AskOnce(s, id, step.state, step.result.value.evaluationId);
      } else {
        AllowKeeps(s, s.exec);
      }
    } else {
      AllowKeeps(s, s.exec);
    }
  }

  /** What a successful `begin_evaluation` asks, and what it records. */
  lemma AskedId(s: Exec, c: Principal, id: Digest, now: U64)
    requires Inv(s) && BeginEvaluation(s, c, id, now).result.Ok? && id in s.requests
    ensures var step, r := BeginEvaluation(s, c, id, now), s.requests[id];
      && id in step.state.requests && step.state.requests == s.requests[id := step.state.requests[id]]
      && var q := step.state.requests[id];
         && q.snapshot == r.snapshot && q.receipts == r.receipts && |r.receipts| < 256 && q.pending.Some?
         && q.pending.value.sends == Allowance(r, |r.receipts|) + 1
         && step.result.value.evaluationId == SlotId(id, |r.receipts|, r.snapshot)
  {
    hide Inv, Current, SlotId;
    var r := s.requests[id];
    PendingSends(s, id);
    RecordOf(s, id);
    PendingId(s, id, r);
    hide RecordOk;
  }

  lemma PendingId(s: Exec, id: Digest, r: RequestRecord)
    requires RecordOk(s, id, r)
    ensures |r.receipts| < 256 && (r.pending.Some? ==> r.pending.value.request.evaluationId == SlotId(id, |r.receipts|, r.snapshot))
    ensures r.pending.None? && InProgress(r.status) ==> r.status == Received
  {
    hide StageOk, RequestId, SlotId, SlotFilled, CheckRule;
  }

  lemma AskOnce(s: System, id: Digest, t: Exec, d: Digest)
    requires AskedWithin(s) && AskedKnown(s) && id in s.exec.requests && id in t.requests
    requires t.requests == s.exec.requests[id := t.requests[id]]
    requires var r, q := s.exec.requests[id], t.requests[id];
      && q.snapshot == r.snapshot && q.receipts == r.receipts && |r.receipts| < 256 && q.pending.Some?
      && q.pending.value.sends == Allowance(r, |r.receipts|) + 1 && d == SlotId(id, |r.receipts|, r.snapshot)
    ensures var u := s.(exec := t, asked := s.asked + multiset{d}); AskedWithin(u) && AskedKnown(u)
  {
    hide SlotId;
    var u, r := s.(exec := t, asked := s.asked + multiset{d}), s.exec.requests[id];
    forall k, n: U64 | k in u.exec.requests
      ensures u.asked[SlotId(k, n, u.exec.requests[k].snapshot)] <= Allowance(u.exec.requests[k], n)
    {
      var e := SlotId(k, n, s.exec.requests[k].snapshot);
      assert s.asked[e] <= Allowance(s.exec.requests[k], n);
      if e == d {
        SlotIdInjective(k, n, s.exec.requests[k].snapshot, id, |r.receipts|, r.snapshot);
      }
    }
    forall e | e in u.asked ensures exists k, n: U64 :: k in u.exec.requests && e == SlotId(k, n, u.exec.requests[k].snapshot) {
      if e == d {
        assert id in u.exec.requests && e == SlotId(id, |r.receipts|, u.exec.requests[id].snapshot);
      } else {
        var k, n: U64 :| k in s.exec.requests && e == SlotId(k, n, s.exec.requests[k].snapshot);
        assert k in u.exec.requests && e == SlotId(k, n, u.exec.requests[k].snapshot);
      }
    }
  }

  // ----- every step keeps the system invariant ---------------------------------------------

  lemma AskedFrame(s: System, t: System)
    requires t.exec.requests == s.exec.requests && t.asked == s.asked && AskedWithin(s) && AskedKnown(s)
    ensures AskedWithin(t) && AskedKnown(t)
  {
    hide SlotId, Allowance;
  }

  lemma AskedAfter(s: System, t: System)
    requires AskedWithin(s) && AskedKnown(s) && t.asked == s.asked && AllowStep(s.exec, t.exec)
    ensures AskedWithin(t) && AskedKnown(t)
  {
    AllowKeeps(s, t.exec);
    AskedFrame(s.(exec := t.exec), t);
  }

  lemma PaymentAllows(s: Exec, t: Exec, id: Digest)
    requires id in s.requests && id in t.requests && t.requests == s.requests[id := t.requests[id]]
    requires var r, q := s.requests[id], t.requests[id];
      q.snapshot == r.snapshot && q.receipts == r.receipts && q.pending == r.pending && (q.status == Received ==> r.status == Received)
      && (r.pending.Some? ==> r.pending.value.sends <= 2)
    ensures AllowStep(s, t)
  {
    hide AllowsAsMuch;
    AllowRecord(s.requests[id], t.requests[id]);
    forall k | k in s.requests ensures k in t.requests && AllowsAsMuch(s.requests[k], t.requests[k]) {
      if k != id {
        AllowRefl(s.requests[k]);
      }
    }
  }

  lemma AllowRefl(r: RequestRecord)
    ensures AllowsAsMuch(r, r)
  {
  }

  lemma FinishLedgerAllows(s: Exec, cmd: DispatchCommand, outcome: LedgerOutcome)
    requires Inv(s) && Names(s, cmd)
    ensures AllowStep(s, FinishLedger(s, cmd, outcome).state)
  {
    hide Inv, FinishLedger, EffectOf, AllowStep;
    FinishLedgerEffect(s, cmd, outcome);
    PendingSends(s, cmd.request);
    PaymentAllows(s, FinishLedger(s, cmd, outcome).state, cmd.request);
  }

  /** Executor-only events. */
  lemma RegistryKeeps(s: Exec, e: LocalEvent)
    requires Inv(s)
    requires !e.EvSubmit? && !e.EvCancel? && !e.EvTransportFailed? && !e.EvFinishEvaluation? && !e.EvUpgrade?
    ensures Inv(LocalNext(s, e))
  {
    hide Inv, SetMode, SetPaused, InstallPlan, InstallOperation, ReviseOperation, InstallGrant, Revoke;
    match e
    case EvSetMode(c, m) => SettingsAfter(s, SetMode(s, c, m).state, c, m, false);
    case EvSetPaused(c, p) => SettingsAfter(s, SetPaused(s, c, p).state, c, ReportOnlyMode, p);
    case EvInstallPlan(c, p) => InstallPlanKeeps(s, c, p);
    case EvInstallOperation(c, o) => InstallOperationKeeps(s, c, o);
    case EvReviseOperation(c, id, x) => ReviseOperationKeeps(s, c, id, x);
    case EvInstallGrant(c, g) => InstallGrantKeeps(s, c, g);
    case EvRevoke(c, id) => RevokeKeeps(s, c, id);
  }

  lemma LocalStep(s: System, e: LocalEvent)
    requires SysInv(s)
    ensures SysInv(s.(exec := LocalNext(s.exec, e)))
  {
    hide Inv, NetOk, AskedWithin, AskedKnown, QuietStep, AllowStep, SetMode, SetPaused, InstallPlan, InstallOperation, ReviseOperation,
         InstallGrant, Revoke, Submit, Cancel, EngineTransportFailed, FinishEvaluation, RecoverAfterUpgrade;
    var x, t := s.exec, LocalNext(s.exec, e);
    match e {
      case EvSubmit(c, n, o, g, now) => SubmitKeeps(x, c, n, o, g, now); SubmitQuiet(x, c, n, o, g, now);
      case EvCancel(c, id) => CancelKeeps(x, c, id); CancelQuiet(x, c, id);
      case EvTransportFailed(id, d) => EngineTransportFailedKeeps(x, id, d); TransportFailedQuiet(x, id, d);
      case EvFinishEvaluation(id, d, r, now) => FinishEvaluationKeeps(x, id, d, r, now); FinishEvaluationQuiet(x, id, d, r, now);
      case EvUpgrade => RecoverKeeps(x); RecoverAllows(x);
      case _ => RegistryKeeps(x, e); RegistrySame(x, e); AllowSame(x, t);
    }
    LocalQuiet(x, e);
    hide LocalNext;
    QuietNet(s, t);
    AllowKeeps(s, t);
  }

  lemma RegisterStep(s: System, c: Principal, p: Principal)
    requires SysInv(s)
    ensures SysInv(s.(exec := RegisterMockLedger(s.exec, c, p).state))
  {
    hide Inv, NetOk, AskedWithin, AskedKnown, QuietStep, AllowStep;
    var t := RegisterMockLedger(s.exec, c, p).state;
    SettingsKeep(s.exec, t.mode, t.paused, t.mockLedgers);
    assert t == s.exec.(mode := t.mode, paused := t.paused, mockLedgers := t.mockLedgers);
    QuietSame(s.exec, t);
    AllowSame(s.exec, t);
    QuietNet(s, t);
    AllowKeeps(s, t);
  }

  lemma AskStep(s: System, c: Principal, id: Digest, now: U64)
    requires SysInv(s)
    ensures SysInv(AskNext(s, c, id, now))
  {
    hide Inv, NetOk, AskedWithin, AskedKnown, QuietStep, BeginEvaluation;
    BeginEvaluationKeeps(s.exec, c, id, now);
    BeginEvaluationQuiet(s.exec, c, id, now);
    BeginAsks(s, c, id, now);
    var t := s.(exec := BeginEvaluation(s.exec, c, id, now).state);
    QuietNet(s, t.exec);
    NetAsked(t, AskNext(s, c, id, now));
  }

  lemma NetAsked(s: System, t: System)
    requires NetOk(s) && t == s.(asked := t.asked)
    ensures NetOk(t)
  {
    hide OnChain, FrozenDigest;
    assert Grows(s, t) && CallsAdvance(s, t);
    hide Grows, CallsAdvance;
    GrowNet(s, t);
  }

  lemma DispatchStep(s: System, c: Principal, id: Digest, now: U64)
    requires SysInv(s)
    ensures Windowed(s.exec)
    ensures SysInv(DispatchNext(s, c, id, now))
  {
    hide Inv, NetOk, AskedWithin, AskedKnown, AllowStep, Authorize, PrepareDispatch, Windowed, SendStep, QuietStep, Budgeted,
         RecordOk;
    InvWindowed(s.exec);
    if Authorize(s.exec, c, id, now).Ok? {
      var a := Authorize(s.exec, c, id, now).value;
      var step := PrepareDispatch(s.exec, a, now);
      PrepareDispatchKeeps(s.exec, a, now);
      DispatchSendStep(s, c, id, now);
      match step.result {
        case Ok(cmd) => SendNet(s, step.state, cmd);
        case Err(_) => QuietNet(s, step.state);
      }
      AuthorizedMeans(s.exec, c, id, now);
      PendingSends(s.exec, id);
      RecordOf(s.exec, id);
      RecordKey(s.exec, id, s.exec.requests[id]);
      PrepareDispatchCases(s.exec, a, now);
      if step.state == s.exec {
        AllowSame(s.exec, step.state);
      } else {
        PaymentAllows(s.exec, step.state, id);
      }
      AskedAfter(s, DispatchNext(s, c, id, now));
    }
  }

  lemma RetryStep(s: System, c: Principal, id: Digest, now: U64)
    requires SysInv(s)
    ensures SysInv(RetryNext(s, c, id, now))
  {
    hide Inv, NetOk, AskedWithin, AskedKnown, AllowStep, Current;
    RetryUnknownKeeps(s.exec, c, id, now);
    var step := RetryUnknown(s.exec, c, id, now);
    if step.result.Ok? {
      assert SendStep(s.exec, step.state, step.result.value);
      PendingSends(s.exec, id);
      PaymentAllows(s.exec, step.state, id);
      hide RetryUnknown, SendStep;
      SendNet(s, step.state, step.result.value);
      AskedAfter(s, RetryNext(s, c, id, now));
    }
  }

  /** A callback or timeout of call `i`. */
  lemma CallStep(s: System, i: nat, outcome: LedgerOutcome)
    requires SysInv(s) && i < |s.calls|
    requires outcome.Unknown? || (s.calls[i].message.Executed? && !s.calls[i].message.reply.Silent? && outcome == OutcomeOf(s.calls[i].message.reply))
    ensures SysInv(ResolveNext(s, i, outcome))
  {
    hide Inv, NetOk, AskedWithin, AskedKnown, AllowStep, FinishLedger, OutcomeOf;
    CallNames(s, i);
    if !outcome.Unknown? {
      CallbackJustified(s, i);
    }
    hide Names, CallOk, Justified, EffectOf;
    var cmd := s.calls[i].command;
    var t := s.(exec := FinishLedger(s.exec, cmd, outcome).state);
    ResolveNet(s, cmd, outcome);
    DropNet(t, i, t.calls[i].(awaited := false));
    FinishLedgerAllows(s.exec, cmd, outcome);
    AskedAfter(s, ResolveNext(s, i, outcome));
  }

  lemma ReturnStep(s: System, i: nat)
    requires SysInv(s) && i < |s.probes|
    ensures SysInv(ReturnNext(s, i))
  {
    hide Inv, NetOk, AskedWithin, AskedKnown, AllowStep, FinishLedger, FrozenDigest, OnChain, Names;
    ProbeNames(s, i);
    var b := s.probes[i];
    AllowSame(s.exec, s.exec);
    if b.awaited && b.answer.Some? {
      assert ProbeOk(s, b.(awaited := false));
      ProbeReplaced(s, i, b.(awaited := false));
      var done := s.(probes := s.probes[i := b.(awaited := false)]);
      if ProbeOutcome(b.command, b.answer.value).Some? {
        ProbeJustified(s, b);
        JustifiedFrame(s, done, b.command, ProbeOutcome(b.command, b.answer.value).value);
        hide ProbeOutcome, ProbeOk, Justified, EffectOf;
        ResolveNet(done, b.command, ProbeOutcome(b.command, b.answer.value).value);
        FinishLedgerAllows(s.exec, b.command, ProbeOutcome(b.command, b.answer.value).value);
      }
    }
    AskedAfter(s, ReturnNext(s, i));
  }

  /** Everything that leaves the executor alone. */
  lemma NetworkStep(s: System, t: System)
    requires SysInv(s) && NetOk(t) && t.exec == s.exec && t.asked == s.asked
    ensures SysInv(t)
  {
    hide Inv, NetOk, AskedWithin, AskedKnown;
    AskedFrame(s, t);
  }

  lemma NextKeeps(s: System, e: Event)
    requires SysInv(s)
    ensures Windowed(s.exec) && SysInv(Next(s, e))
  {
    hide SysInv, Windowed, LocalNext, AskNext, DispatchNext, RetryNext, DeliverNext, ResolveNext, AnswerNext, ReturnNext, OutcomeOf,
         ReconcileCommand, RegisterMockLedger, ML.SetFault, ML.Transfer;
    SystemWindowed(s);
    match e
    case Local(l) => LocalStep(s, l);
    case RegisterLedger(c, p) => RegisterStep(s, c, p);
    case BeginEval(c, id, now) => AskStep(s, c, id, now);
    case Dispatch(c, id, now) => DispatchStep(s, c, id, now);
    case Retry(c, id, now) => RetryStep(s, c, id, now);
    case Callback(i) =>
      if i < |s.calls| && s.calls[i].message.Executed? && !s.calls[i].message.reply.Silent? {
        CallStep(s, i, OutcomeOf(s.calls[i].message.reply));
      }
    case Timeout(i, text) => if i < |s.calls| { CallStep(s, i, Unknown(text)); }
    case ReturnProbe(i) => if i < |s.probes| { ReturnStep(s, i); }
    case _ => QuietEvent(s, e);
  }

  /** The events in which only messages, probes or ledgers move. */
  lemma QuietEvent(s: System, e: Event)
    requires SysInv(s) && Windowed(s.exec)
    requires e.Deliver? || e.DropMessage? || e.LoseCallback? || e.StartProbe? || e.AnswerProbe? || e.LedgerFault? || e.ForeignTransfer?
    ensures SysInv(Next(s, e))
  {
    hide Inv, NetOk, AskedWithin, AskedKnown, Windowed, ML.Transfer, ML.SetFault, ML.Find, ReconcileCommand;
    match e
    case Deliver(i, now) =>
      if i < |s.calls| {
        DeliverNet(s, i, now);
        NetworkStep(s, Next(s, e));
      }
    case DropMessage(i) =>
      if i < |s.calls| && s.calls[i].message == InFlight {
        DropNet(s, i, s.calls[i].(message := Lost));
        NetworkStep(s, Next(s, e));
      }
    case LoseCallback(i) =>
      if i < |s.calls| {
        DropNet(s, i, s.calls[i].(awaited := false));
        NetworkStep(s, Next(s, e));
      }
    case StartProbe(c, id) =>
      if ReconcileCommand(s.exec, c, id).Ok? {
        StartProbeNet(s, c, id);
        NetworkStep(s, Next(s, e));
      }
    case AnswerProbe(i) =>
      if i < |s.probes| {
        AnswerNet(s, i);
        NetworkStep(s, Next(s, e));
      }
    case LedgerFault(p, c, f) =>
      if p in s.ledgers {
        FaultNet(s, p, c, f);
        NetworkStep(s, Next(s, e));
      }
    case ForeignTransfer(p, c, arg, now) =>
      if p in s.ledgers && c != s.exec.instance {
        ForeignNet(s, p, c, arg, now);
        NetworkStep(s, Next(s, e));
      }
  }

  lemma InitialOk(s: System)
    requires Initial(s)
    ensures SysInv(s)
  {
    hide ML.LedgerOk;
    var owner :| s.exec == New(s.exec.instance, owner);
    NewOk(s.exec.instance, owner);
  }

  /** The invariant holds in every state of every behaviour, so every step of it is a genuine one. */
  lemma {:induction false} AlwaysOk(states: seq<System>, events: seq<Event>, i: nat)
    requires Behaviour(states, events) && i < |states|
    ensures SysInv(states[i]) && Windowed(states[i].exec)
  {
    hide SysInv, Next, Windowed, Initial;
    if i == 0 {
      InitialOk(states[0]);
      SysInvExec(states[0]);
      InvWindowed(states[0].exec);
    } else {
      AlwaysOk(states, events, i - 1);
      assert Follows(states, events, i - 1);
      NextKeeps(states[i - 1], events[i - 1]);
      SysInvExec(states[i]);
      InvWindowed(states[i].exec);
    }
  }

  lemma SysInvExec(s: System)
    requires SysInv(s)
    ensures Inv(s.exec)
  {
    hide Inv, NetOk, AskedWithin, AskedKnown;
  }

  /** Behaviours are unrestricted: from any initial system, any events whatsoever happen in some behaviour. */
  lemma {:induction false} AnyEvents(start: System, events: seq<Event>) returns (states: seq<System>)
    requires Initial(start)
    ensures Behaviour(states, events) && states[0] == start
  {
    hide Next, Windowed, Initial;
    if events == [] {
      states := [start];
    } else {
      var n := |events| - 1;
      var before := AnyEvents(start, events[..n]);
      AlwaysOk(before, events[..n], n);
      states := before + [Next(before[n], events[n])];
      forall i: nat | i < |events| ensures Follows(states, events, i) {
        if i < n {
          assert Follows(before, events[..n], i);
        }
      }
    }
  }
}
