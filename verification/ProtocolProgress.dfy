/** What resolves a payment whose outcome is not known: a lookup, or the one retry, finds the block. */
module ProtocolProgress {
  import opened Wrappers
  import opened Numbers
  import opened Canonical
  import opened Types
  import opened Icrc
  import opened Workflow
  import opened WorkflowInvariant
  import opened WorkflowSteps
  import opened Protocol
  import opened ProtocolSafety
  import opened ProtocolHistory
  import ML = MockLedger
  import Decimal

  /** An open request whose frozen payload is block `n` of its ledger. */
  ghost predicate PaidOpen(s: System, id: Digest, n: nat) {
    && id in s.exec.requests
    && var r := s.exec.requests[id];
       && (r.status == Submitted || r.status.UnknownOutcome?) && r.frozen.Some?
       && var p := r.frozen.value.proposal.ledger;
          p in s.ledgers && n < |s.ledgers[p].blocks|
          && s.ledgers[p].blocks[n] == ML.Block(s.exec.instance, r.frozen.value)
  }

  /** The request has succeeded as block `n`, and its charge has moved from reserved to spent. */
  ghost predicate Resolved(s: Exec, t: Exec, id: Digest, n: nat) {
    && id in s.requests && id in t.requests && s.requests[id].frozen.Some?
    && var r, q, f := s.requests[id], t.requests[id], s.requests[id].frozen.value;
       && q.status == Succeeded(Decimal.Show(n)) && q.frozen == r.frozen && q.reservation.None?
       && r.operation in t.operations && t.operations[r.operation].status == Consumed(id)
       && r.grant in s.grants && r.grant in t.grants && s.grants[r.grant].windowNs > 0
       && var g, h, charge := s.grants[r.grant], t.grants[r.grant], f.proposal.amount + f.proposal.fee;
          && h.total.reserved + charge == g.total.reserved && h.total.spent == g.total.spent + charge
          && var e := Epoch(f.createdAt, g.windowNs);
             && WindowOf(h, e).reserved + charge == WindowOf(g, e).reserved
             && WindowOf(h, e).spent == WindowOf(g, e).spent + charge
  }

  lemma ShortIndex(n: nat)
    requires n < 2048
    ensures BlockIndex(Decimal.Show(n))
  {
    assert Decimal.Power10(4) == 10000;
    Decimal.ShowLength(n, 4);
  }

  lemma SettlePays(s: Exec, id: Digest, n: nat)
    requires Inv(s) && id in s.requests && IsOpen(s.requests[id])
    ensures Resolved(s, SettleRecord(s, s.requests[id], true, Decimal.Show(n)).state, id, n)
  {
    hide Inv, EvidenceOk, RequestId, Books, Decimal.Show;
    SettleSucceeds(s, id, true, Decimal.Show(n));
    RecordOf(s, id);
    GrantOf(s, s.requests[id].grant);
    OperationOf(s, s.requests[id].operation);
  }

  lemma FinishPays(s: Exec, cmd: DispatchCommand, outcome: LedgerOutcome, n: nat)
    requires Inv(s) && Names(s, cmd) && IsOpen(s.requests[cmd.request]) && n < 2048
    requires outcome == Success(Decimal.Show(n)) || outcome == AlreadyDone(Decimal.Show(n))
    ensures Resolved(s, FinishLedger(s, cmd, outcome).state, cmd.request, n)
  {
    hide Inv, SettleRecord, BlockIndex, Resolved, Decimal.Show;
    ShortIndex(n);
    SettlePays(s, cmd.request, n);
  }

  /** The payload is found, and found as that block. */
  lemma Found(l: ML.Ledger, caller: Principal, f: FrozenTransfer, n: nat)
    requires ML.LedgerOk(l) && l.self == f.proposal.ledger && f.proposal.Validate().Ok?
    requires n < |l.blocks| && l.blocks[n] == ML.Block(caller, f)
    ensures n < 2048 && ML.Find(l, caller, ToIcrc(f)) == Some(ML.Lookup(FrozenDigest(f), Decimal.Show(n)))
    ensures caller != ANONYMOUS ==> forall now: U64 :: ML.Transfer(l, caller, ToIcrc(f), now) == (l, ML.Refused(ML.Duplicate(n)))
  {
    hide FrozenDigest, ToIcrc, FromIcrc, Decimal.Show, Decimal.Read, ML.Refusal;
    WireRoundTrip(f);
    assert ML.KeyOf(l.blocks[n]) in l.records;
    Decimal.ReadShow(n);
  }

  function CommandOf(s: Exec, id: Digest, attempt: nat): DispatchCommand
    requires id in s.requests && s.requests[id].frozen.Some?
  {
    DispatchCommand(id, attempt, s.requests[id].frozen.value)
  }

  // ----- by lookup ----------------------------------------------------------------------------------

  lemma ProbeStarts(s: System, c: Principal, id: Digest, n: nat)
    requires Windowed(s.exec) && PaidOpen(s, id, n) && s.exec.requests[id].frozen.value.proposal.ledger in s.exec.mockLedgers
    requires c == s.exec.requests[id].caller || c == s.exec.owner
    ensures Next(s, StartProbe(c, id))
         == s.(probes := s.probes + [Probe(CommandOf(s.exec, id, s.exec.requests[id].ledgerAttempt), None, true)])
  {
    hide Windowed, LocalNext, AskNext, DispatchNext, RetryNext, DeliverNext, ResolveNext, AnswerNext, ReturnNext;
  }

  lemma ProbeAnswers(s: System, k: nat, f: FrozenTransfer, n: nat)
    requires Windowed(s.exec) && k < |s.probes| && s.probes[k].command.transfer == f && s.probes[k].answer.None?
    requires LedgersOk(s) && f.proposal.Validate().Ok? && OnChain(s, f, n)
    ensures Next(s, AnswerProbe(k)) ==
            s.(probes := s.probes[k := s.probes[k].(answer := Some(Some(ML.Lookup(FrozenDigest(f), Decimal.Show(n)))))])
  {
    hide Windowed, LocalNext, AskNext, DispatchNext, RetryNext, DeliverNext, ResolveNext, ReturnNext, ReconcileCommand, ML.Find, ML.LedgerOk,
         FrozenDigest, ToIcrc, Decimal.Show;
    Found(s.ledgers[f.proposal.ledger], s.exec.instance, f, n);
  }

  lemma ProbeReturns(s: System, k: nat, f: FrozenTransfer, n: nat)
    requires Windowed(s.exec) && k < |s.probes| && s.probes[k].command.transfer == f && s.probes[k].awaited
    requires s.probes[k].answer == Some(Some(ML.Lookup(FrozenDigest(f), Decimal.Show(n))))
    ensures Next(s, ReturnProbe(k)).exec == FinishLedger(s.exec, s.probes[k].command, Success(Decimal.Show(n))).state
  {
    hide Windowed, LocalNext, AskNext, DispatchNext, RetryNext, DeliverNext, ResolveNext, AnswerNext, ReconcileCommand, FinishLedger,
         FrozenDigest, Decimal.Show;
  }

  lemma PaidFacts(s: System, id: Digest, n: nat)
    requires SysInv(s) && PaidOpen(s, id, n)
    ensures n < 2048 && IsOpen(s.exec.requests[id]) && OnChain(s, s.exec.requests[id].frozen.value, n)
    ensures 1 <= s.exec.requests[id].ledgerAttempt && LedgersOk(s)
  {
    hide Inv, AskedWithin, AskedKnown, EvidenceOk, RequestId;
    RecordOf(s.exec, id);
    assert ML.LedgerOk(s.ledgers[s.exec.requests[id].frozen.value.proposal.ledger]);
  }

  /** A frozen payload is valid, and its ledger is registered for good. */
  lemma FrozenFacts(states: seq<System>, events: seq<Event>, i: nat, id: Digest)
    requires Behaviour(states, events) && i < |states| && id in states[i].exec.requests && states[i].exec.requests[id].frozen.Some?
    ensures var f := states[i].exec.requests[id].frozen.value;
      f.proposal.Validate().Ok? && f.proposal.ledger in states[i].exec.mockLedgers
  {
    hide Behaviour, FrozenUnder;
    var j := FrozenByDispatch(states, events, i, id);
    FrozenValid(states[j].exec, id, states[i].exec.requests[id].frozen.value);
    KeptAlong(states, events, j, i);
  }

  lemma FrozenValid(s: Exec, id: Digest, f: FrozenTransfer)
    requires FrozenUnder(s, id, f)
    ensures f.proposal.Validate().Ok? && f.proposal.ledger in s.mockLedgers
  {
  }

  lemma LookupChain(s: System, t: System, u: System, v: System, c: Principal, id: Digest, n: nat)
    requires SysInv(s) && PaidOpen(s, id, n) && s.exec.requests[id].frozen.value.proposal.Validate().Ok?
    requires Windowed(t.exec) && Windowed(u.exec)
    requires t == s.(probes := s.probes + [Probe(CommandOf(s.exec, id, s.exec.requests[id].ledgerAttempt), None, true)])
    requires u == Next(t, AnswerProbe(|s.probes|)) && v == Next(u, ReturnProbe(|s.probes|))
    ensures Resolved(s.exec, v.exec, id, n)
  {
    hide Next, Windowed, SysInv, Resolved, FinishLedger, FrozenDigest, Decimal.Show, OnChain, LedgersOk;
    PaidFacts(s, id, n);
    var r, k := s.exec.requests[id], |s.probes|;
    SameChain(s, t, r.frozen.value, n);
    ProbeAnswers(t, k, r.frozen.value, n);
    ProbeReturns(u, k, r.frozen.value, n);
    SysInvExec(s);
    FinishPays(s.exec, CommandOf(s.exec, id, r.ledgerAttempt), Success(Decimal.Show(n)), n);
  }

  /**
   Reconciliation resolves: in every state of every behaviour, a lookup started by the caller or the owner for an open
   request whose payload is on a registered ledger ends, once answered and returned, in success as that very block.
   */
  lemma ReconcileResolves(states: seq<System>, events: seq<Event>, i: nat, c: Principal, id: Digest, n: nat)
    requires Behaviour(states, events) && i + 3 < |states| && PaidOpen(states[i], id, n)
    requires c == states[i].exec.requests[id].caller || c == states[i].exec.owner
    requires events[i] == StartProbe(c, id) && events[i + 1] == AnswerProbe(|states[i].probes|)
    requires events[i + 2] == ReturnProbe(|states[i].probes|)
    ensures Resolved(states[i].exec, states[i + 3].exec, id, n)
  {
    hide Next, Windowed, Initial, SysInv, Resolved;
    AlwaysOk(states, events, i);
    FrozenFacts(states, events, i, id);
    AlwaysOk(states, events, i + 1);
    AlwaysOk(states, events, i + 2);
    assert Follows(states, events, i) && Follows(states, events, i + 1) && Follows(states, events, i + 2);
    hide Behaviour, Follows;
    ProbeStarts(states[i], c, id, n);
    LookupChain(states[i], states[i + 1], states[i + 2], states[i + 3], c, id, n);
  }

  // ----- by retry -----------------------------------------------------------------------------------

  lemma RetrySends(s: System, c: Principal, id: Digest, now: U64, n: nat)
    requires Windowed(s.exec) && PaidOpen(s, id, n) && |Next(s, Retry(c, id, now)).calls| > |s.calls|
    ensures var r := s.exec.requests[id];
      Next(s, Retry(c, id, now)) == s.(exec := PutAt(s.exec, id, Retried(r)),
        calls := s.calls + [Call(CommandOf(s.exec, id, r.ledgerAttempt + 1), InFlight, true)])
  {
    hide Windowed, LocalNext, AskNext, DispatchNext, DeliverNext, ResolveNext, AnswerNext, ReturnNext, Current;
  }

  /** The terms of the grant were checked when the payload was frozen, so only what can change since decides. */
  ghost predicate Retriable(s: Exec, c: Principal, id: Digest, now: U64)
    requires id in s.requests && s.requests[id].frozen.Some?
  {
    var r, f := s.requests[id], s.requests[id].frozen.value;
    && (c == r.caller || c == s.owner) && !s.paused && s.mode == Mock && r.ledgerAttempt == 1 && now < r.expiresAt
    && f.createdAt <= now <= f.createdAt + 60_000_000_000
    && r.operation in s.operations && r.grant in s.grants && r.plan in s.plans
    && var o, g := s.operations[r.operation], s.grants[r.grant];
       && !g.revoked && now < g.expiresAt && o.revision == r.operationRevision && g.revision == r.grantRevision
       && Snapshot(o, g, s.plans[r.plan]) == r.snapshot
  }

  /** When a payment in doubt is sent again. */
  lemma RetrySentExactly(states: seq<System>, events: seq<Event>, i: nat, c: Principal, id: Digest, now: U64)
    requires Behaviour(states, events) && i + 1 < |states| && id in states[i].exec.requests && events[i] == Retry(c, id, now)
    requires states[i].exec.requests[id].status.UnknownOutcome?
    ensures states[i].exec.requests[id].frozen.Some?
    ensures |states[i + 1].calls| > |states[i].calls| <==> Retriable(states[i].exec, c, id, now)
  {
    hide Next, Windowed, Initial, SysInv, FrozenUnder, Snapshot, Retriable;
    AlwaysOk(states, events, i);
    assert Follows(states, events, i);
    var s := states[i];
    SysInvExec(s);
    OpenFacts(s.exec, id);
    var j := FrozenByDispatch(states, events, i, id);
    KeptAlong(states, events, j, i);
    RetryStepIs(s, c, id, now);
    RetryDecides(states[j].exec, s.exec, c, id, now);
  }

  lemma OpenFacts(s: Exec, id: Digest)
    requires Inv(s) && id in s.requests && s.requests[id].status.UnknownOutcome?
    ensures var r := s.requests[id];
      && r.frozen.Some? && 1 <= r.ledgerAttempt <= 2 && r.operation in s.operations && r.grant in s.grants && r.plan in s.plans
      && s.operations[r.operation].proposal == r.frozen.value.proposal
  {
    hide Inv, EvidenceOk, RequestId;
    RecordOf(s, id);
  }

  lemma RetryStepIs(s: System, c: Principal, id: Digest, now: U64)
    requires Windowed(s.exec)
    ensures |Next(s, Retry(c, id, now)).calls| > |s.calls| <==> RetryUnknown(s.exec, c, id, now).result.Ok?
  {
    hide Windowed, RetryUnknown, LocalNext, AskNext, DispatchNext, DeliverNext, ResolveNext, AnswerNext, ReturnNext;
  }

  lemma RetryDecides(s: Exec, t: Exec, c: Principal, id: Digest, now: U64)
    requires id in t.requests && t.requests[id].frozen.Some? && FrozenUnder(s, id, t.requests[id].frozen.value) && Kept(s, t)
    requires t.requests[id].status.UnknownOutcome? && t.requests[id].operation in t.operations && 1 <= t.requests[id].ledgerAttempt <= 2
    requires t.operations[t.requests[id].operation].proposal == t.requests[id].frozen.value.proposal
    ensures RetryUnknown(t, c, id, now).result.Ok? <==> Retriable(t, c, id, now)
  {
    hide Snapshot, TransferProposal.Validate, TransferProposal.Charge;
  }

  lemma RetryDelivers(s: System, k: nat, now: U64, f: FrozenTransfer, n: nat)
    requires Windowed(s.exec) && k < |s.calls| && s.calls[k].command.transfer == f && s.calls[k].message == InFlight
    requires LedgersOk(s) && f.proposal.Validate().Ok? && OnChain(s, f, n) && s.exec.instance != ANONYMOUS
    ensures Next(s, Deliver(k, now)).exec == s.exec
    ensures Next(s, Deliver(k, now)).calls == s.calls[k := s.calls[k].(message := Executed(ML.Refused(ML.Duplicate(n))))]
  {
    hide Windowed, LocalNext, AskNext, DispatchNext, RetryNext, ResolveNext, AnswerNext, ReturnNext, ReconcileCommand, ML.Transfer,
         ML.LedgerOk, ToIcrc;
    Found(s.ledgers[f.proposal.ledger], s.exec.instance, f, n);
  }

  lemma RetryReturns(s: System, k: nat, n: nat)
    requires Windowed(s.exec) && k < |s.calls| && s.calls[k].awaited && s.calls[k].message == Executed(ML.Refused(ML.Duplicate(n)))
    ensures Next(s, Callback(k)).exec == FinishLedger(s.exec, s.calls[k].command, AlreadyDone(Decimal.Show(n))).state
  {
    hide Windowed, LocalNext, AskNext, DispatchNext, RetryNext, DeliverNext, AnswerNext, ReturnNext, ReconcileCommand, FinishLedger,
         Decimal.Show;
  }

  lemma RetriedResolves(s: Exec, t: Exec, id: Digest, n: nat)
    requires id in s.requests && Resolved(PutAt(s, id, Retried(s.requests[id])), t, id, n)
    ensures Resolved(s, t, id, n)
  {
    hide Decimal.Show;
  }

  lemma RetryChain(s: System, t: System, u: System, v: System, k: nat, id: Digest, n: nat, later: U64)
    requires SysInv(s) && PaidOpen(s, id, n) && s.exec.instance != ANONYMOUS && s.exec.requests[id].frozen.value.proposal.Validate().Ok?
    requires Windowed(t.exec) && SysInv(u) && Windowed(u.exec) && k == |s.calls|
    requires t == s.(exec := PutAt(s.exec, id, Retried(s.exec.requests[id])),
                     calls := s.calls + [Call(CommandOf(s.exec, id, s.exec.requests[id].ledgerAttempt + 1), InFlight, true)])
    requires u == Next(t, Deliver(k, later)) && v == Next(u, Callback(k))
    ensures Resolved(s.exec, v.exec, id, n)
  {
    hide Next, Windowed, SysInv, Resolved, FinishLedger, Decimal.Show, OnChain, LedgersOk;
    PaidFacts(s, id, n);
    var f := s.exec.requests[id].frozen.value;
    SameChain(s, t, f, n);
    RetryDelivers(t, k, later, f, n);
    RetryReturns(u, k, n);
    SysInvExec(u);
    FinishPays(u.exec, CommandOf(s.exec, id, s.exec.requests[id].ledgerAttempt + 1), AlreadyDone(Decimal.Show(n)), n);
    RetriedResolves(s.exec, v.exec, id, n);
  }

  /** The same by the one bounded retry: where it is sent, the ledger answers with the block it already has. */
  lemma RetryResolves(states: seq<System>, events: seq<Event>, i: nat, c: Principal, id: Digest, n: nat, now: U64, later: U64)
    requires Behaviour(states, events) && i + 3 < |states| && PaidOpen(states[i], id, n) && states[i].exec.instance != ANONYMOUS
    requires events[i] == Retry(c, id, now) && |states[i + 1].calls| > |states[i].calls|
    requires events[i + 1] == Deliver(|states[i].calls|, later) && events[i + 2] == Callback(|states[i].calls|)
    ensures Resolved(states[i].exec, states[i + 3].exec, id, n)
  {
    hide Next, Windowed, Initial, SysInv, FrozenUnder, Resolved, FinishLedger, Decimal.Show, OnChain, LedgersOk;
    var s, k := states[i], |states[i].calls|;
    AlwaysOk(states, events, i);
    FrozenFacts(states, events, i, id);
    AlwaysOk(states, events, i + 1);
    AlwaysOk(states, events, i + 2);
    assert Follows(states, events, i) && Follows(states, events, i + 1) && Follows(states, events, i + 2);
    hide Behaviour, Follows, PaidOpen, Retried;
    RetrySends(s, c, id, now, n);
    RetryChain(s, states[i + 1], states[i + 2], states[i + 3], k, id, n, later);
  }

  lemma SameChain(s: System, t: System, f: FrozenTransfer, n: nat)
    requires t.exec.instance == s.exec.instance && t.ledgers == s.ledgers && OnChain(s, f, n) && LedgersOk(s)
    ensures OnChain(t, f, n) && LedgersOk(t)
  {
    hide ML.LedgerOk;
  }
}
