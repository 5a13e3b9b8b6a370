/** Every entry point of the executor keeps the invariant (crates/ic-laya-core/src/workflow.rs). */
module WorkflowSteps {
  import opened Wrappers
  import opened Numbers
  import opened Canonical
  import opened Types
  import opened Icrc
  import opened Workflow
  import opened WorkflowInvariant

  // ----- replacing one record ---------------------------------------------------------------

  /** The two records stand for the same payment in the same phase. */
  ghost predicate SameMoney(r: RequestRecord, q: RequestRecord) {
    && q.id == r.id && q.operation == r.operation && q.grant == r.grant && q.frozen == r.frozen
    && (IsOpen(q) <==> IsOpen(r)) && (q.status.Succeeded? <==> r.status.Succeeded?)
  }

  lemma BooksKept(rs: Requests, id: Digest, q: RequestRecord, g: Grant)
    requires id in rs && SameMoney(rs[id], q) && Books(rs, g)
    ensures Books(rs[id := q], g)
  {
    hide Total;
    TotalPut(rs, Open(Slice(g.id, None)), id, q);
    TotalPut(rs, Paid(Slice(g.id, None)), id, q);
    var rs' := rs[id := q];
    forall e: U64 ensures WindowBooks(rs', g, e) {
      assert WindowBooks(rs, g, e);
      TotalPut(rs, Open(Slice(g.id, Some(Window(e, g.windowNs)))), id, q);
      TotalPut(rs, Paid(Slice(g.id, Some(Window(e, g.windowNs)))), id, q);
    }
  }

  lemma QuietPut(s: Exec, id: Digest, q: RequestRecord)
    requires Inv(s) && id in s.requests && SameMoney(s.requests[id], q) && RecordOk(s, id, q)
    ensures Inv(PutAt(s, id, q))
  {
    hide Books, StageOk, EvidenceOk, RequestId;
    var t := PutAt(s, id, q);
    forall k | k in t.grants ensures GrantOk(t, k, t.grants[k]) {
      assert GrantOk(s, k, s.grants[k]);
      BooksKept(s.requests, id, q, s.grants[k]);
    }
    forall k | k in t.requests ensures RecordOk(t, k, t.requests[k]) {
      assert k != id ==> RecordOk(s, k, s.requests[k]);
    }
    forall k | k in t.operations ensures Held(t, k, t.operations[k]) {
      assert Held(s, k, s.operations[k]);
    }
  }

  /** The part of `RecordOk` a quiet step must re-establish. */
  lemma QuietRecord(s: Exec, id: Digest, r: RequestRecord, q: RequestRecord)
    requires RecordOk(s, id, r)
    requires q.id == r.id && q.caller == r.caller && q.nonce == r.nonce && q.operation == r.operation && q.grant == r.grant && q.plan == r.plan
    requires StageOk(q, s.operations[r.operation], s.grants[r.grant]) && EvidenceOk(id, q, s.plans[r.plan])
    ensures RecordOk(s, id, q)
  {
    hide StageOk, EvidenceOk, RequestId;
  }

  // ----- evaluation -------------------------------------------------------------------------

  lemma SlotFrame(id: Digest, r: RequestRecord, q: RequestRecord, p: Plan, i: nat)
    requires i < |r.receipts| && i < |p.signals| && i < 256 && i < |q.receipts|
    requires q.receipts[i] == r.receipts[i] && q.snapshot == r.snapshot
    ensures SlotFilled(id, r, p, i) == SlotFilled(id, q, p, i)
  {
    hide SlotId, SawEvidence;
  }

  /** Leaving the evidence alone: only the status and the pending question may change. */
  lemma EvidenceFrame(id: Digest, r: RequestRecord, q: RequestRecord, p: Plan)
    requires EvidenceOk(id, r, p) && q.receipts == r.receipts && q.snapshot == r.snapshot
    requires Complete(q.status) ==> Complete(r.status)
    requires InProgress(q.status) ==> InProgress(r.status)
    requires q.pending.Some? <==> q.status == Evaluating
    requires q.pending.Some? ==> PendingOk(id, q, p)
    ensures EvidenceOk(id, q, p)
  {
    hide SlotFilled, PendingOk, CheckRule;
    forall i | 0 <= i < |q.receipts| ensures SlotFilled(id, q, p, i) {
      assert SlotFilled(id, r, p, i);
      SlotFrame(id, r, q, p, i);
    }
  }

  lemma PendingFrame(id: Digest, r: RequestRecord, q: RequestRecord, p: Plan)
    requires |r.receipts| < 256 && q.receipts == r.receipts && q.snapshot == r.snapshot && r.pending.Some? && q.pending.Some?
    requires PendingOk(id, r, p) && q.pending.value.request == r.pending.value.request
    requires 1 <= q.pending.value.sends <= 2 && (!q.pending.value.inFlight ==> q.pending.value.sends == 1)
    ensures PendingOk(id, q, p)
  {
    hide SlotId, CommitsTo;
  }

  lemma CurrentSnapshot(s: Exec, r: RequestRecord, now: U64)
    requires Current(s, r, now).Ok?
    ensures r.operation in s.operations && r.grant in s.grants && r.plan in s.plans && !s.paused
    ensures Snapshot(s.operations[r.operation], s.grants[r.grant], s.plans[r.plan]) == r.snapshot
    ensures CommitsTo(r.snapshot, s.operations[r.operation].evidence)
    ensures s.operations[r.operation].proposal.Charge().Ok? && s.grants[r.grant].ledger == s.operations[r.operation].proposal.ledger
  {
    hide Snapshot;
  }

  lemma StalledOk(s: Exec, id: Digest, r: RequestRecord)
    requires RecordOk(s, id, r) && InProgress(r.status)
    ensures RecordOk(s, id, Stalled(r)) && SameMoney(r, Stalled(r))
  {
    hide EvidenceOk, RequestId, PendingOk;
    EvidenceFrame(id, r, Stalled(r), s.plans[r.plan]);
    QuietRecord(s, id, r, Stalled(r));
  }

  lemma ResentOk(s: Exec, id: Digest, r: RequestRecord)
    requires RecordOk(s, id, r) && r.pending.Some? && !r.pending.value.inFlight
    ensures RecordOk(s, id, Resent(r)) && SameMoney(r, Resent(r))
  {
    hide RequestId, CommitsTo, SlotFilled, CheckRule, SlotId;
    PendingFrame(id, r, Resent(r), s.plans[r.plan]);
    EvidenceFrame(id, r, Resent(r), s.plans[r.plan]);
    hide EvidenceOk, PendingOk;
    QuietRecord(s, id, r, Resent(r));
  }

  lemma AskedPending(s: Exec, id: Digest, r: RequestRecord, now: U64)
    requires RecordOk(s, id, r) && InProgress(r.status) && r.pending.None? && Current(s, r, now).Ok? && |r.receipts| < 256
    ensures |r.receipts| < |s.plans[r.plan].signals|
    ensures PendingOk(id, Asked(r, SlotRequest(s, id, r)), s.plans[r.plan])
  {
    CurrentSnapshot(s, r, now);
    hide RequestId, CommitsTo, SlotFilled, CheckRule, SlotId, Current, Snapshot, StageOk;
  }

  lemma AskedOk(s: Exec, id: Digest, r: RequestRecord, now: U64)
    requires RecordOk(s, id, r) && InProgress(r.status) && r.pending.None? && Current(s, r, now).Ok? && |r.receipts| < 256
    ensures |r.receipts| < |s.plans[r.plan].signals|
    ensures var q := Asked(r, SlotRequest(s, id, r)); RecordOk(s, id, q) && SameMoney(r, q)
  {
    hide RequestId, SlotId, CommitsTo, Current;
    AskedPending(s, id, r, now);
    hide SlotFilled, CheckRule, Snapshot, SlotRequest, PendingOk;
    var q := Asked(r, SlotRequest(s, id, r));
    EvidenceFrame(id, r, q, s.plans[r.plan]);
    hide EvidenceOk;
    QuietRecord(s, id, r, q);
  }

  lemma RecordReceipts(s: Exec, id: Digest, r: RequestRecord)
    requires RecordOk(s, id, r)
    ensures Linked(s, r) && |r.receipts| <= MAX_SLOTS && (r.pending.Some? <==> r.status == Evaluating)
    ensures InProgress(r.status) ==> |r.receipts| < |s.plans[r.plan].signals|
    ensures r.pending.Some? ==> 1 <= r.pending.value.sends <= 2 && (!r.pending.value.inFlight ==> r.pending.value.sends == 1)
  {
    hide StageOk, RequestId, SlotFilled, CheckRule, SlotId, CommitsTo;
  }

  lemma BeginEvaluationKeeps(s: Exec, caller: Principal, id: Digest, now: U64)
    requires Inv(s)
    ensures Inv(BeginEvaluation(s, caller, id, now).state)
  {
    hide Inv, RecordOk, SameMoney, Current, SlotRequest, Asked, Stalled, Resent;
    if Owned(s, caller, id).Ok? && InProgress(s.requests[id].status) {
      var r := s.requests[id];
      RecordOf(s, id);
      if Current(s, r, now).Err? {
        StalledOk(s, id, r);
        QuietPut(s, id, Stalled(r));
      } else if r.pending.Some? {
        if !r.pending.value.inFlight {
          ResentOk(s, id, r);
          QuietPut(s, id, Resent(r));
        }
      } else {
        RecordReceipts(s, id, r);
        AskedOk(s, id, r, now);
        QuietPut(s, id, Asked(r, SlotRequest(s, id, r)));
      }
    }
  }

  /** The slot check and both retry limits of `begin_evaluation` guard states that do not occur. */
  lemma BeginEvaluationFails(s: Exec, caller: Principal, id: Digest, now: U64)
    requires Inv(s) && Owned(s, caller, id).Ok? && InProgress(s.requests[id].status) && Current(s, s.requests[id], now).Ok?
    ensures var r, out := s.requests[id], BeginEvaluation(s, caller, id, now).result;
      && out != Err(Capacity) && out != Err(Transition)
      && (out == Err(Busy) <==> r.pending.Some? && r.pending.value.inFlight)
      && (out.Ok? <==> !(r.pending.Some? && r.pending.value.inFlight))
  {
    hide Inv, RecordOk, Current, SlotRequest;
    RecordOf(s, id);
    RecordReceipts(s, id, s.requests[id]);
  }

  lemma UnsentOk(s: Exec, id: Digest, r: RequestRecord)
    requires RecordOk(s, id, r) && r.pending.Some?
    ensures RecordOk(s, id, Unsent(r)) && SameMoney(r, Unsent(r))
  {
    hide RequestId, CommitsTo, SlotFilled, CheckRule, SlotId;
    if r.pending.value.sends < 2 {
      PendingFrame(id, r, Unsent(r), s.plans[r.plan]);
    }
    EvidenceFrame(id, r, Unsent(r), s.plans[r.plan]);
    hide EvidenceOk, PendingOk;
    QuietRecord(s, id, r, Unsent(r));
  }

  lemma EngineTransportFailedKeeps(s: Exec, id: Digest, evalId: Digest)
    requires Inv(s)
    ensures Inv(EngineTransportFailed(s, id, evalId).state)
  {
    hide Inv, RecordOk, SameMoney, Unsent;
    if id in s.requests && s.requests[id].pending.Some? {
      RecordOf(s, id);
      UnsentOk(s, id, s.requests[id]);
      QuietPut(s, id, Unsent(s.requests[id]));
    }
  }

  /** A judged receipt fills the slot it was asked for. */
  lemma JudgedFills(id: Digest, r: RequestRecord, p: Plan, result: Fallible<Receipt>)
    requires r.pending.Some? && |r.receipts| < |p.signals| && |r.receipts| < 256 && PendingOk(id, r, p)
    requires Judge(p.signals[|r.receipts|], r.pending.value.request, result).Ok?
    ensures SlotFilled(id, r.(receipts := r.receipts + [result.value]), p, |r.receipts|)
    ensures CheckRule(p.signals[|r.receipts|], result.value) == Judge(p.signals[|r.receipts|], r.pending.value.request, result)
  {
    hide CheckRule, SlotId, CommitsTo;
  }

  /** A new receipt extends the evidence; the status then follows the verdict. */
  lemma PassedOk(id: Digest, r: RequestRecord, p: Plan, receipt: Receipt, q: RequestRecord)
    requires EvidenceOk(id, r, p) && r.status == Evaluating
    requires q.receipts == r.receipts + [receipt] && q.snapshot == r.snapshot && q.pending.None?
    requires SlotFilled(id, r.(receipts := q.receipts), p, |r.receipts|)
    requires if CheckRule(p.signals[|r.receipts|], receipt) != Ok(true) then q.status.NeedsReview?
             else q.status == if |q.receipts| == |p.signals| then ReadyToDispatch else Received
    ensures EvidenceOk(id, q, p)
  {
    hide CheckRule, SlotFilled, PendingOk;
    forall i | 0 <= i < |q.receipts| ensures SlotFilled(id, q, p, i) {
      if i < |r.receipts| {
        assert SlotFilled(id, r, p, i);
        SlotFrame(id, r, q, p, i);
      } else {
        SlotFrame(id, r.(receipts := q.receipts), q, p, i);
      }
    }
  }

  lemma VerdictOk(id: Digest, r: RequestRecord, p: Plan, result: Fallible<Receipt>)
    requires EvidenceOk(id, r, p) && r.status == Evaluating
    ensures var verdict := Judge(p.signals[|r.receipts|], r.pending.value.request, result);
      EvidenceOk(id, Verdict(r, |p.signals|, result, verdict), p)
  {
    hide CheckRule, SlotFilled, PendingOk;
    var verdict := Judge(p.signals[|r.receipts|], r.pending.value.request, result);
    var q := Verdict(r, |p.signals|, result, verdict);
    if verdict.Ok? {
      JudgedFills(id, r, p, result);
      hide Judge;
      PassedOk(id, r, p, result.value, q);
    } else {
      EvidenceFrame(id, r, q, p);
    }
  }

  lemma VerdictRecord(s: Exec, id: Digest, r: RequestRecord, result: Fallible<Receipt>)
    requires RecordOk(s, id, r) && r.status == Evaluating
    ensures r.pending.Some? && |r.receipts| < |s.plans[r.plan].signals|
    ensures var p := s.plans[r.plan];
      var q := Verdict(r, |p.signals|, result, Judge(p.signals[|r.receipts|], r.pending.value.request, result));
      RecordOk(s, id, q) && SameMoney(r, q)
  {
    VerdictOk(id, r, s.plans[r.plan], result);
    hide Judge, CheckRule, SlotFilled, PendingOk, RequestId;
    var p := s.plans[r.plan];
    QuietRecord(s, id, r, Verdict(r, |p.signals|, result, Judge(p.signals[|r.receipts|], r.pending.value.request, result)));
  }

  lemma FinishEvaluationKeeps(s: Exec, id: Digest, evalId: Digest, result: Fallible<Receipt>, now: U64)
    requires Inv(s)
    ensures Inv(FinishEvaluation(s, id, evalId, result, now).state)
  {
    hide Inv, RecordOk, SameMoney, Current, Verdict, KnownReceipt, Stalled;
    if id in s.requests && s.requests[id].status == Evaluating {
      var r := s.requests[id];
      RecordOf(s, id);
      RecordReceipts(s, id, r);
      StalledOk(s, id, r);
      QuietPut(s, id, Stalled(r));
      VerdictRecord(s, id, r, result);
      var p := s.plans[r.plan];
      QuietPut(s, id, Verdict(r, |p.signals|, result, Judge(p.signals[|r.receipts|], r.pending.value.request, result)));
    }
  }

  // ----- dispatch and settlement ------------------------------------------------------------

  lemma DroppedOk(s: Exec, id: Digest, r: RequestRecord)
    requires RecordOk(s, id, r) && r.frozen.None?
    ensures RecordOk(s, id, Dropped(r)) && SameMoney(r, Dropped(r))
  {
    hide EvidenceOk, RequestId, PendingOk;
    EvidenceFrame(id, r, Dropped(r), s.plans[r.plan]);
    QuietRecord(s, id, r, Dropped(r));
  }

  lemma CancelKeeps(s: Exec, caller: Principal, id: Digest)
    requires Inv(s)
    ensures Inv(Cancel(s, caller, id).state)
  {
    hide Inv, RecordOk, SameMoney, Dropped;
    if Owned(s, caller, id).Ok? && s.requests[id].frozen.None? {
      RecordOf(s, id);
      DroppedOk(s, id, s.requests[id]);
      QuietPut(s, id, Dropped(s.requests[id]));
    }
  }

  lemma NoPending(s: Exec, id: Digest, r: RequestRecord)
    requires RecordOk(s, id, r) && r.status != Evaluating
    ensures r.pending.None?
  {
    hide StageOk, SlotFilled, CheckRule, RequestId;
  }

  lemma RetriedOk(s: Exec, id: Digest, r: RequestRecord)
    requires RecordOk(s, id, r) && r.status.UnknownOutcome? && r.ledgerAttempt < 2
    ensures RecordOk(s, id, Retried(r)) && SameMoney(r, Retried(r))
  {
    NoPending(s, id, r);
    hide EvidenceOk, RequestId, PendingOk;
    EvidenceFrame(id, r, Retried(r), s.plans[r.plan]);
    QuietRecord(s, id, r, Retried(r));
  }

  lemma RetryUnknownKeeps(s: Exec, caller: Principal, id: Digest, now: U64)
    requires Inv(s)
    ensures Inv(RetryUnknown(s, caller, id, now).state)
  {
    hide Inv, RecordOk, SameMoney, Retried, Current;
    if Owned(s, caller, id).Ok? && s.requests[id].status.UnknownOutcome? && s.requests[id].ledgerAttempt < 2 {
      RecordOf(s, id);
      RetriedOk(s, id, s.requests[id]);
      QuietPut(s, id, Retried(s.requests[id]));
    }
  }

  lemma DoubtedOk(s: Exec, id: Digest, r: RequestRecord, text: string)
    requires RecordOk(s, id, r) && IsOpen(r)
    ensures RecordOk(s, id, Doubted(r, text)) && SameMoney(r, Doubted(r, text))
  {
    NoPending(s, id, r);
    hide EvidenceOk, RequestId, PendingOk;
    EvidenceFrame(id, r, Doubted(r, text), s.plans[r.plan]);
    QuietRecord(s, id, r, Doubted(r, text));
  }

  lemma RecordKey(s: Exec, id: Digest, r: RequestRecord)
    requires RecordOk(s, id, r)
    ensures r.id == id && Linked(s, r)
  {
    hide StageOk, EvidenceOk, RequestId;
  }

  lemma MarkUnknownKeeps(s: Exec, id: Digest, text: string)
    requires Inv(s) && id in s.requests && IsOpen(s.requests[id])
    ensures Inv(MarkUnknown(s, s.requests[id], text).state)
  {
    hide Inv, RecordOk, SameMoney, Doubted;
    RecordOf(s, id);
    RecordKey(s, id, s.requests[id]);
    DoubtedOk(s, id, s.requests[id], text);
    QuietPut(s, id, Doubted(s.requests[id], text));
  }

  /** Books after one record and its grant change together. */
  ghost predicate Moved(rs: Requests, id: Digest, q: RequestRecord, g: Grant, g': Grant) {
    && g'.id == g.id && g'.windowNs == g.windowNs && g'.totalCap == g.totalCap && g'.windowCap == g.windowCap
    && id in rs && q.id == rs[id].id && q.grant == rs[id].grant
    && (forall m: Measure | (m.Open? || m.Paid?) && m.slice.grant == g.id && m.slice.window.None? ::
          (if m.Open? then g'.total.reserved - g.total.reserved else g'.total.spent - g.total.spent)
          == Weight(q, m) - Weight(rs[id], m))
    && (forall e: U64 ::
          var slice, u, u' := Slice(g.id, Some(Window(e, g.windowNs))), WindowOf(g, e), WindowOf(g', e);
          && u'.reserved - u.reserved == Weight(q, Open(slice)) - Weight(rs[id], Open(slice))
          && u'.spent - u.spent == Weight(q, Paid(slice)) - Weight(rs[id], Paid(slice))
          && u'.spent + u'.reserved <= g.windowCap)
    && g'.total.spent + g'.total.reserved <= g.totalCap
  }

  lemma BooksMoved(rs: Requests, id: Digest, q: RequestRecord, g: Grant, g': Grant)
    requires Moved(rs, id, q, g, g') && Books(rs, g)
    ensures Books(rs[id := q], g')
  {
    hide Total, Weight;
    TotalPut(rs, Open(Slice(g.id, None)), id, q);
    TotalPut(rs, Paid(Slice(g.id, None)), id, q);
    var rs' := rs[id := q];
    forall e: U64 ensures WindowBooks(rs', g', e) {
      assert WindowBooks(rs, g, e);
      TotalPut(rs, Open(Slice(g.id, Some(Window(e, g.windowNs)))), id, q);
      TotalPut(rs, Paid(Slice(g.id, Some(Window(e, g.windowNs)))), id, q);
    }
  }

  /** A record's change is invisible to the books of other grants. */
  lemma BooksOther(rs: Requests, id: Digest, q: RequestRecord, g: Grant)
    requires id in rs && q.grant == rs[id].grant && q.grant != g.id && Books(rs, g)
    ensures Books(rs[id := q], g)
  {
    hide Total;
    TotalPut(rs, Open(Slice(g.id, None)), id, q);
    TotalPut(rs, Paid(Slice(g.id, None)), id, q);
    var rs' := rs[id := q];
    forall e: U64 ensures WindowBooks(rs', g, e) {
      assert WindowBooks(rs, g, e);
      TotalPut(rs, Open(Slice(g.id, Some(Window(e, g.windowNs)))), id, q);
      TotalPut(rs, Paid(Slice(g.id, Some(Window(e, g.windowNs)))), id, q);
    }
  }

  /** A record, its operation and its grant are replaced together. */
  function PutAll(s: Exec, id: Digest, q: RequestRecord, op: Operation, g: Grant): Exec {
    s.(requests := s.requests[id := q], operations := s.operations[q.operation := op], grants := s.grants[q.grant := g])
  }

  /** The operation was free or held by this request, and nothing but status and books changes. */
  ghost predicate Replaceable(s: Exec, id: Digest, q: RequestRecord, op: Operation, g: Grant) {
    && id in s.requests && q.operation in s.operations && q.grant in s.grants
    && var r, o, h := s.requests[id], s.operations[q.operation], s.grants[q.grant];
    && q.operation == r.operation && q.grant == r.grant && !r.status.Succeeded?
    && op.id == o.id && op.proposal == o.proposal && (o.status == Available || o.status == Reserved(id))
    && g.id == h.id && g.plan == h.plan && g.ledger == h.ledger && g.windowNs == h.windowNs && h.windows.Keys <= g.windows.Keys
  }

  lemma StageFrame(r: RequestRecord, o: Operation, op: Operation, h: Grant, g: Grant)
    requires StageOk(r, o, h)
    requires op == o || (op.proposal == o.proposal && (o.status == Available || (o.status.Reserved? && o.status.holder != r.id)))
    requires g.ledger == h.ledger && g.windowNs == h.windowNs && h.windows.Keys <= g.windows.Keys
    ensures StageOk(r, op, g)
  {
  }

  lemma RecordFrame(s: Exec, t: Exec, k: Digest, r: RequestRecord)
    requires RecordOk(s, k, r) && Linked(t, r)
    requires t.instance == s.instance && t.nextNonce == s.nextNonce && t.plans == s.plans
    requires StageOk(r, t.operations[r.operation], t.grants[r.grant])
    ensures RecordOk(t, k, r)
  {
    hide StageOk, EvidenceOk, RequestId;
  }

  lemma OthersKept(s: Exec, id: Digest, q: RequestRecord, op: Operation, g: Grant, k: Digest)
    requires Replaceable(s, id, q, op, g) && k in s.requests && k != id && RecordOk(s, k, s.requests[k])
    ensures RecordOk(PutAll(s, id, q, op, g), k, s.requests[k])
  {
    hide EvidenceOk, StageOk, RequestId;
    var t, r := PutAll(s, id, q, op, g), s.requests[k];
    StageFrame(r, s.operations[r.operation], t.operations[r.operation], s.grants[r.grant], t.grants[r.grant]);
    RecordFrame(s, t, k, r);
  }

  lemma PutAllKeeps(s: Exec, id: Digest, q: RequestRecord, op: Operation, g: Grant)
    requires Inv(s) && Replaceable(s, id, q, op, g) && Moved(s.requests, id, q, s.grants[q.grant], g)
    requires RecordOk(PutAll(s, id, q, op, g), id, q) && Held(PutAll(s, id, q, op, g), q.operation, op)
    ensures Inv(PutAll(s, id, q, op, g))
  {
    hide Moved, RecordOk, Books, RequestId;
    var t := PutAll(s, id, q, op, g);
    forall k | k in t.requests ensures RecordOk(t, k, t.requests[k]) {
      if k != id {
        RecordOf(s, k);
        OthersKept(s, id, q, op, g, k);
      }
    }
    forall k | k in t.operations ensures Held(t, k, t.operations[k]) {
      OperationOf(s, k);
      if k != q.operation {
        assert t.operations[k] == s.operations[k];
      }
    }
    forall k | k in t.grants ensures GrantOk(t, k, t.grants[k]) {
      GrantOf(s, k);
      if k == q.grant {
        BooksMoved(s.requests, id, q, s.grants[k], g);
      } else {
        BooksOther(s.requests, id, q, s.grants[k]);
      }
    }
  }

  lemma ReserveMoves(rs: Requests, id: Digest, q: RequestRecord, g: Grant, charge: U128, epoch: U64)
    requires id in rs && q.id == rs[id].id && q.grant == rs[id].grant == g.id && g.windowNs > 0
    requires Reserve(g, charge, epoch).Ok? && Books(rs, g)
    requires rs[id].frozen.None? && !IsOpen(rs[id]) && q.frozen.Some? && q.status == Submitted
    requires ChargeOf(q) == charge && Epoch(q.frozen.value.createdAt, g.windowNs) == epoch
    ensures Moved(rs, id, q, g, Reserve(g, charge, epoch).value)
  {
    var g' := Reserve(g, charge, epoch).value;
    hide Total;
    forall e: U64
      ensures var slice, u, u' := Slice(g.id, Some(Window(e, g.windowNs))), WindowOf(g, e), WindowOf(g', e);
          && u'.reserved - u.reserved == Weight(q, Open(slice)) - Weight(rs[id], Open(slice))
          && u'.spent - u.spent == Weight(q, Paid(slice)) - Weight(rs[id], Paid(slice))
          && u'.spent + u'.reserved <= g.windowCap
    {
      assert WindowBooks(rs, g, e);
    }
  }

  lemma ReportedOk(s: Exec, id: Digest, r: RequestRecord)
    requires RecordOk(s, id, r) && r.status == ReadyToDispatch
    ensures RecordOk(s, id, OnlyReported(r)) && SameMoney(r, OnlyReported(r))
  {
    NoPending(s, id, r);
    hide EvidenceOk, RequestId, PendingOk;
    EvidenceFrame(id, r, OnlyReported(r), s.plans[r.plan]);
    QuietRecord(s, id, r, OnlyReported(r));
  }

  lemma SentStage(r: RequestRecord, op: Operation, h: Grant, g: Grant, charge: U128, epoch: U64, now: U64)
    requires StageOk(r, op, h) && r.status == ReadyToDispatch && r.pending.None? && op.status == Available
    requires op.proposal.Charge() == Ok(charge) && h.windowNs > 0 && epoch == Epoch(now, h.windowNs)
    requires Reserve(h, charge, epoch) == Ok(g) && h.ledger == op.proposal.ledger
    ensures StageOk(Sent(r, op, charge, epoch, now), op.(status := Reserved(r.id)), g)
  {
  }

  /** What authorization and the budget check have established when a transfer is frozen. */
  ghost predicate ReadyToSend(s: Exec, id: Digest, g: Grant, charge: U128, epoch: U64, now: U64) {
    && id in s.requests
    && var r := s.requests[id];
       r.status == ReadyToDispatch && Current(s, r, now).Ok? && Linked(s, r)
       && s.operations[r.operation].status == Available
       && s.operations[r.operation].proposal.Charge() == Ok(charge)
       && s.grants[r.grant].windowNs > 0 && epoch == Epoch(now, s.grants[r.grant].windowNs)
       && Reserve(s.grants[r.grant], charge, epoch) == Ok(g)
  }

  lemma SentRecord(s: Exec, id: Digest, g: Grant, charge: U128, epoch: U64, now: U64)
    requires ReadyToSend(s, id, g, charge, epoch, now) && RecordOk(s, id, s.requests[id])
    ensures var r := s.requests[id]; var op := s.operations[r.operation]; var q := Sent(r, op, charge, epoch, now);
      RecordOk(PutAll(s, id, q, op.(status := Reserved(id)), g), id, q)
  {
    var r := s.requests[id];
    RecordKey(s, id, r);
    NoPending(s, id, r);
    CurrentSnapshot(s, r, now);
    hide RequestId, EvidenceOk, PendingOk, Current, CommitsTo;
    var op, h := s.operations[r.operation], s.grants[r.grant];
    var q := Sent(r, op, charge, epoch, now);
    SentStage(r, op, h, g, charge, epoch, now);
    EvidenceFrame(id, r, q, s.plans[r.plan]);
    hide StageOk, Reserve;
  }

  /** The dispatched record, operation and grant satisfy the invariant together. */
  lemma CommitKeeps(s: Exec, id: Digest, g: Grant, charge: U128, epoch: U64, now: U64)
    requires Inv(s) && ReadyToSend(s, id, g, charge, epoch, now) && RecordOk(s, id, s.requests[id])
    ensures Inv(Commit(s, s.requests[id], s.operations[s.requests[id].operation], g, charge, epoch, now))
  {
    hide Inv, RequestId, Current;
    var r := s.requests[id];
    SentRecord(s, id, g, charge, epoch, now);
    RecordUnsent(s, id, r);
    OperationOf(s, r.operation);
    GrantOf(s, r.grant);
    hide RecordOk, Books;
    var op, h, q := s.operations[r.operation], s.grants[r.grant], Sent(r, s.operations[r.operation], charge, epoch, now);
    var op' := op.(status := Reserved(id));
    ReserveMoves(s.requests, id, q, h, charge, epoch);
    SentHeld(s, id, q, op, g);
    hide Moved;
    assert Replaceable(s, id, q, op', g);
    assert op.id == r.operation && g.id == r.grant;
    hide Held, Replaceable;
    PutAllKeeps(s, id, q, op', g);
  }

  lemma RecordUnsent(s: Exec, id: Digest, r: RequestRecord)
    requires RecordOk(s, id, r) && r.status == ReadyToDispatch
    ensures r.id == id && Linked(s, r) && r.frozen.None? && !IsOpen(r)
  {
    hide EvidenceOk, RequestId;
  }

  lemma SentHeld(s: Exec, id: Digest, q: RequestRecord, op: Operation, g: Grant)
    requires q.operation in s.operations && s.operations[q.operation] == op && Held(s, q.operation, op) && q.status == Submitted
    ensures Held(PutAll(s, id, q, op.(status := Reserved(id)), g), q.operation, op.(status := Reserved(id)))
  {
  }

  lemma AuthorizedMeans(s: Exec, caller: Principal, id: Digest, now: U64)
    requires Authorize(s, caller, id, now).Ok?
    ensures id in s.requests && s.requests[id].status == ReadyToDispatch && Current(s, s.requests[id], now).Ok?
    ensures s.requests[id].operation in s.operations && s.operations[s.requests[id].operation].status == Available
    ensures Authorize(s, caller, id, now).value == AuthorizedTransfer(id, s.requests[id].snapshot)
  {
    hide CheckReceipts, Eligible, Snapshot;
  }

  lemma BudgetedMeans(s: Exec, id: Digest, now: U64)
    requires Windowed(s) && id in s.requests && s.requests[id].status == ReadyToDispatch && Current(s, s.requests[id], now).Ok?
    requires s.requests[id].operation in s.operations && s.operations[s.requests[id].operation].status == Available
    requires Budgeted(s, s.requests[id], now).Ok? && Linked(s, s.requests[id])
    ensures var b := Budgeted(s, s.requests[id], now).value; ReadyToSend(s, id, b.0, b.1, b.2, now)
    ensures s.operations[s.requests[id].operation].proposal.ledger in s.mockLedgers
  {
    hide Current, Reserve;
  }

  /** The three ways `prepare_dispatch` can leave the state, and when it returns a command. */
  lemma PrepareDispatchCases(s: Exec, a: AuthorizedTransfer, now: U64)
    requires Windowed(s)
    ensures var step := PrepareDispatch(s, a, now); var t := step.state;
      (t == s && step.result.Err?) ||
      (a.request in s.requests
       && var r := s.requests[a.request];
          Authorize(s, r.caller, r.id, now).Ok?
          && ((t == PutAt(s, r.id, OnlyReported(r)) && step.result.Err?)
              || (Budgeted(s, r, now).Ok? && r.operation in s.operations
                  && var b, op := Budgeted(s, r, now).value, s.operations[r.operation];
                     t == Commit(s, r, op, b.0, b.1, b.2, now)
                     && step.result == Ok(DispatchCommand(r.id, 1, FrozenTransfer(op.proposal, r.id, now))))))
  {
    hide Authorize, OnlyReported, Commit, Reserve, Windowed;
  }

  lemma PrepareDispatchKeeps(s: Exec, a: AuthorizedTransfer, now: U64)
    requires Inv(s)
    ensures Windowed(s)
    ensures Inv(PrepareDispatch(s, a, now).state)
  {
    InvWindowed(s);
    PrepareDispatchCases(s, a, now);
    hide Inv, RecordOk, SameMoney, Authorize, Budgeted, OnlyReported, Commit, ReadyToSend, PrepareDispatch, Current;
    if PrepareDispatch(s, a, now).state != s {
      var id, r := a.request, s.requests[a.request];
      RecordOf(s, id);
      RecordKey(s, id, r);
      AuthorizedMeans(s, r.caller, id, now);
      ReportedOk(s, id, r);
      QuietPut(s, id, OnlyReported(r));
      if Budgeted(s, r, now).Ok? {
        var b := Budgeted(s, r, now).value;
        BudgetedMeans(s, id, now);
        CommitKeeps(s, id, b.0, b.1, b.2, now);
      }
    }
  }

  lemma SettleMoves(rs: Requests, id: Digest, q: RequestRecord, g: Grant, success: bool)
    requires id in rs && q.id == rs[id].id && q.grant == rs[id].grant == g.id && g.windowNs > 0
    requires IsOpen(rs[id]) && rs[id].frozen.Some? && q.frozen == rs[id].frozen && Books(rs, g)
    requires if success then q.status.Succeeded? else q.status.FailedDefinitive?
    requires ChargeOf(q) < TWO_128
    requires Settle(g, ChargeOf(q), Epoch(q.frozen.value.createdAt, g.windowNs), success).Ok?
    ensures Moved(rs, id, q, g, Settle(g, ChargeOf(q), Epoch(q.frozen.value.createdAt, g.windowNs), success).value)
  {
    var g' := Settle(g, ChargeOf(q), Epoch(q.frozen.value.createdAt, g.windowNs), success).value;
    hide Total;
    forall e: U64
      ensures var slice, u, u' := Slice(g.id, Some(Window(e, g.windowNs))), WindowOf(g, e), WindowOf(g', e);
          && u'.reserved - u.reserved == Weight(q, Open(slice)) - Weight(rs[id], Open(slice))
          && u'.spent - u.spent == Weight(q, Paid(slice)) - Weight(rs[id], Paid(slice))
          && u'.spent + u'.reserved <= g.windowCap
    {
      assert WindowBooks(rs, g, e);
    }
  }

  lemma SettledStage(r: RequestRecord, op: Operation, h: Grant, g: Grant, success: bool, text: string)
    requires StageOk(r, op, h) && IsOpen(r) && (success || !r.everUnknown)
    requires g.ledger == h.ledger && g.windowNs == h.windowNs && h.windows.Keys <= g.windows.Keys
    ensures StageOk(Settled(r, success, text), op.(status := if success then Consumed(r.id) else Available), g)
  {
  }

  lemma SettledHeld(s: Exec, id: Digest, q: RequestRecord, op: Operation, g: Grant, success: bool)
    requires q.operation in s.operations && s.operations[q.operation] == op && Held(s, q.operation, op)
    requires success ==> q.status.Succeeded?
    ensures var op' := op.(status := if success then Consumed(id) else Available); Held(PutAll(s, id, q, op', g), q.operation, op')
  {
  }

  lemma OpenReservation(s: Exec, id: Digest, r: RequestRecord)
    requires RecordOk(s, id, r) && IsOpen(r)
    ensures r.frozen.Some? && Linked(s, r) && r.id == id && s.grants[r.grant].windowNs > 0
    ensures ChargeOf(r) < TWO_128 && s.operations[r.operation].status == Reserved(id)
    ensures r.reservation == Some(Reservation(ChargeOf(r), Epoch(r.frozen.value.createdAt, s.grants[r.grant].windowNs)))
  {
    hide EvidenceOk, RequestId;
  }

  lemma SettledRecord(s: Exec, id: Digest, g: Grant, success: bool, text: string)
    requires id in s.requests && RecordOk(s, id, s.requests[id]) && IsOpen(s.requests[id])
    requires success || !s.requests[id].everUnknown
    requires var h := s.grants[s.requests[id].grant];
      g.plan == h.plan && g.ledger == h.ledger && g.windowNs == h.windowNs && h.windows.Keys <= g.windows.Keys
    ensures var r := s.requests[id]; var op, q := s.operations[r.operation], Settled(r, success, text);
      RecordOk(PutAll(s, id, q, op.(status := if success then Consumed(id) else Available), g), id, q)
  {
    var r := s.requests[id];
    RecordKey(s, id, r);
    NoPending(s, id, r);
    hide RequestId, EvidenceOk, PendingOk;
    SettledStage(r, s.operations[r.operation], s.grants[r.grant], g, success, text);
    EvidenceFrame(id, r, Settled(r, success, text), s.plans[r.plan]);
    hide StageOk;
  }

  lemma SettleFields(g: Grant, charge: U128, epoch: U64, success: bool)
    requires Settle(g, charge, epoch, success).Ok?
    ensures var h := Settle(g, charge, epoch, success).value;
      && h.id == g.id && h.plan == g.plan && h.ledger == g.ledger && h.windowNs == g.windowNs && g.windows.Keys <= h.windows.Keys
  {
  }

  /** `success` may be false only for a first attempt whose outcome was never in doubt. */
  lemma SettleRecordKeeps(s: Exec, id: Digest, success: bool, text: string)
    requires Inv(s) && id in s.requests && IsOpen(s.requests[id])
    requires success || !s.requests[id].everUnknown
    ensures Inv(SettleRecord(s, s.requests[id], success, text).state)
  {
    hide Inv, RequestId;
    SettleSucceeds(s, id, success, text);
    var r := s.requests[id];
    RecordOf(s, id);
    OpenReservation(s, id, r);
    OperationOf(s, r.operation);
    GrantOf(s, r.grant);
    hide Settle;
    var op, h, q := s.operations[r.operation], s.grants[r.grant], Settled(r, success, text);
    var g := Settle(h, r.reservation.value.charge, r.reservation.value.epoch, success).value;
    var op' := op.(status := if success then Consumed(id) else Available);
    SettleFields(h, r.reservation.value.charge, r.reservation.value.epoch, success);
    SettledRecord(s, id, g, success, text);
    SettleMoves(s.requests, id, q, h, success);
    SettledHeld(s, id, q, op, g, success);
    hide RecordOk, Books, Moved;
    assert Replaceable(s, id, q, op', g);
    assert op.id == r.operation && g.id == r.grant;
    hide Held, Replaceable;
    PutAllKeeps(s, id, q, op', g);
  }

  lemma FinishLedgerKeeps(s: Exec, cmd: DispatchCommand, outcome: LedgerOutcome)
    requires Inv(s)
    ensures Inv(FinishLedger(s, cmd, outcome).state)
  {
    hide Inv, SettleRecord, MarkUnknown;
    var id := cmd.request;
    if id in s.requests && IsOpen(s.requests[id]) {
      match outcome
      case Success(index) => SettleRecordKeeps(s, id, true, index);
      case AlreadyDone(index) => SettleRecordKeeps(s, id, true, index);
      case Unknown(e) => MarkUnknownKeeps(s, id, e);
      case DefinitiveError(e) =>
        MarkUnknownKeeps(s, id, e);
        if !s.requests[id].everUnknown {
          SettleRecordKeeps(s, id, false, e);
        }
    }
  }

  lemma RecoveredOk(s: Exec, id: Digest, r: RequestRecord)
    requires RecordOk(s, id, r)
    ensures RecordOk(s, id, Recovered(r)) && SameMoney(r, Recovered(r))
  {
    if r.status == Submitted {
      DoubtedOk(s, id, r, "upgrade interrupted callback");
    } else if r.status == Evaluating {
      hide EvidenceOk, RequestId, PendingOk;
      EvidenceFrame(id, r, Recovered(r), s.plans[r.plan]);
      QuietRecord(s, id, r, Recovered(r));
    }
  }

  lemma SameMoneyWeight(r: RequestRecord, q: RequestRecord, m: Measure)
    requires SameMoney(r, q) && (m.Open? || m.Paid?)
    ensures Weight(r, m) == Weight(q, m)
  {
  }

  lemma AllQuietTotal(rs: Requests, rs': Requests, m: Measure)
    requires rs.Keys == rs'.Keys && (m.Open? || m.Paid?) && forall id | id in rs :: SameMoney(rs[id], rs'[id])
    ensures Total(rs, m) == Total(rs', m)
  {
    hide SameMoney, Weight, Total;
    forall id | id in rs ensures Weight(rs[id], m) == Weight(rs'[id], m) {
      SameMoneyWeight(rs[id], rs'[id], m);
    }
    TotalAgree(rs, m, rs', m);
  }

  lemma AllQuietBooks(rs: Requests, rs': Requests, g: Grant)
    requires rs.Keys == rs'.Keys && Books(rs, g) && forall id | id in rs :: SameMoney(rs[id], rs'[id])
    ensures Books(rs', g)
  {
    hide SameMoney, Total;
    AllQuietTotal(rs, rs', Open(Slice(g.id, None)));
    AllQuietTotal(rs, rs', Paid(Slice(g.id, None)));
    forall e: U64 ensures WindowBooks(rs', g, e) {
      assert WindowBooks(rs, g, e);
      AllQuietTotal(rs, rs', Open(Slice(g.id, Some(Window(e, g.windowNs)))));
      AllQuietTotal(rs, rs', Paid(Slice(g.id, Some(Window(e, g.windowNs)))));
    }
  }

  lemma RecordSettings(s: Exec, t: Exec, id: Digest, r: RequestRecord)
    requires RecordOk(s, id, r)
    requires t == s.(requests := t.requests, paused := t.paused, mode := t.mode, mockLedgers := t.mockLedgers)
    ensures RecordOk(t, id, r)
  {
    hide StageOk, EvidenceOk, RequestId;
  }

  lemma RecoverRecords(s: Exec)
    requires Inv(s)
    ensures var t := RecoverAfterUpgrade(s);
      forall id | id in s.requests :: id in t.requests && RecordOk(t, id, t.requests[id]) && SameMoney(s.requests[id], t.requests[id])
  {
    var t := RecoverAfterUpgrade(s);
    hide Inv, Recovered, RecordOk, SameMoney;
    forall id | id in s.requests
      ensures id in t.requests && RecordOk(t, id, t.requests[id]) && SameMoney(s.requests[id], t.requests[id])
    {
      RecordOf(s, id);
      RecoveredOk(s, id, s.requests[id]);
      RecordSettings(s, t, id, t.requests[id]);
    }
  }

  lemma RecoverFrame(s: Exec)
    ensures var t := RecoverAfterUpgrade(s);
      t.requests.Keys == s.requests.Keys && t.grants == s.grants && t.plans == s.plans
  {
    hide Recovered;
  }

  lemma HeldAfterRecovery(s: Exec)
    requires Inv(s)
    ensures OperationsOk(RecoverAfterUpgrade(s))
  {
    var t := RecoverAfterUpgrade(s);
    RecoverRecords(s);
    hide Inv, RecordOk, Recovered;
    forall k | k in t.operations ensures Held(t, k, t.operations[k]) {
      OperationOf(s, k);
    }
  }

  lemma RecoverKeeps(s: Exec)
    requires Inv(s)
    ensures Inv(RecoverAfterUpgrade(s))
  {
    hide RecordOk, Books, Recovered, SameMoney, RequestId;
    var t := RecoverAfterUpgrade(s);
    RecoverRecords(s);
    RecoverFrame(s);
    forall k | k in t.grants ensures GrantOk(t, k, t.grants[k]) {
      GrantOf(s, k);
      AllQuietBooks(s.requests, t.requests, s.grants[k]);
    }
    HeldAfterRecovery(s);
  }

  // ----- submission and registration --------------------------------------------------------

  lemma BooksGrow(rs: Requests, id: Digest, q: RequestRecord, g: Grant)
    requires id !in rs && q.frozen.None? && Books(rs, g)
    ensures Books(rs[id := q], g)
  {
    hide Total;
    TotalPut(rs, Open(Slice(g.id, None)), id, q);
    TotalPut(rs, Paid(Slice(g.id, None)), id, q);
    var rs' := rs[id := q];
    forall e: U64 ensures WindowBooks(rs', g, e) {
      assert WindowBooks(rs, g, e);
      TotalPut(rs, Open(Slice(g.id, Some(Window(e, g.windowNs)))), id, q);
      TotalPut(rs, Paid(Slice(g.id, Some(Window(e, g.windowNs)))), id, q);
    }
  }

  /** A fresh submission: one new record, one nonce further. */
  ghost predicate Fresh(s: Exec, t: Exec, id: Digest, caller: Principal) {
    && id !in s.requests && id in t.requests && t.requests[id].frozen.None?
    && caller in t.nextNonce
    && t == s.(requests := s.requests[id := t.requests[id]], nextNonce := s.nextNonce[caller := t.nextNonce[caller]])
    && t.nextNonce[caller] == NextNonce(s, caller) + 1
    && id == RequestId(s.instance, caller, NextNonce(s, caller))
  }

  lemma FreshRecords(s: Exec, t: Exec, id: Digest, caller: Principal)
    requires Inv(s) && Fresh(s, t, id, caller) && RecordOk(t, id, t.requests[id])
    ensures RecordsOk(t)
  {
    hide Inv, StageOk, EvidenceOk, RequestId;
    forall k | k in t.requests ensures RecordOk(t, k, t.requests[k]) {
      if k != id {
        RecordOf(s, k);
      }
    }
  }

  lemma FreshOthers(s: Exec, t: Exec, id: Digest, caller: Principal)
    requires Inv(s) && Fresh(s, t, id, caller)
    ensures OperationsOk(t) && GrantsOk(t) && PlansOk(t) && NoncesOk(t)
  {
    hide RecordOk, Books, RequestId;
    forall k | k in t.grants ensures GrantOk(t, k, t.grants[k]) {
      assert GrantOk(s, k, s.grants[k]);
      BooksGrow(s.requests, id, t.requests[id], s.grants[k]);
    }
    forall k | k in t.operations ensures Held(t, k, t.operations[k]) {
      assert Held(s, k, s.operations[k]);
    }
  }

  lemma SubmitFresh(s: Exec, caller: Principal, nonce: U64, operation: Digest, grant: Digest, now: U64)
    requires Inv(s)
    ensures var t := Submit(s, caller, nonce, operation, grant, now).state;
      t == s || (nonce == NextNonce(s, caller) && Fresh(s, t, RequestId(s.instance, caller, nonce), caller))
  {
    NonceConsumedUnreachable(s, caller, nonce, operation, grant, now);
    hide Inv, RequestId, Eligible, Snapshot;
  }

  lemma SubmitKeeps(s: Exec, caller: Principal, nonce: U64, operation: Digest, grant: Digest, now: U64)
    requires Inv(s)
    ensures Inv(Submit(s, caller, nonce, operation, grant, now).state)
  {
    var t := Submit(s, caller, nonce, operation, grant, now).state;
    SubmitFresh(s, caller, nonce, operation, grant, now);
    if t != s {
      SubmittedOk(s, caller, nonce, operation, grant, now);
      hide Submit, RecordOk, Fresh, Held, Books, RequestId;
      var id := RequestId(s.instance, caller, nonce);
      FreshRecords(s, t, id, caller);
      FreshOthers(s, t, id, caller);
    }
  }

  lemma SubmittedOk(s: Exec, caller: Principal, nonce: U64, operation: Digest, grant: Digest, now: U64)
    requires Inv(s) && Submit(s, caller, nonce, operation, grant, now).state != s
    ensures var t, id := Submit(s, caller, nonce, operation, grant, now).state, RequestId(s.instance, caller, nonce);
      id in t.requests && RecordOk(t, id, t.requests[id])
  {
    hide RequestId, Books, Eligible, Snapshot, RecordsOk, OperationsOk, NoncesOk;
    assert GrantOk(s, grant, s.grants[grant]);
    SignalsExist(s, s.grants[grant].plan);
  }

  /** Installed plans have at least one signal. */
  lemma SignalsExist(s: Exec, k: Digest)
    requires PlansOk(s) && k in s.plans
    ensures 1 <= |s.plans[k].signals| <= MAX_SLOTS
  {
  }

  lemma {:induction false} TotalZero(rs: Requests, m: Measure)
    requires forall id | id in rs :: Weight(rs[id], m) == 0
    ensures Total(rs, m) == 0
    decreases |rs|
  {
    if rs != map[] {
      var id :| id in rs;
      TotalRemove(rs, m, id);
      TotalZero(rs - {id}, m);
    }
  }

  lemma FreshBooks(s: Exec, g: Grant)
    requires Inv(s) && g.id !in s.grants && g.total == Usage(0, 0) && g.windows == map[]
    ensures Books(s.requests, g)
  {
    hide Inv, StageOk, EvidenceOk, RequestId, Total;
    forall id | id in s.requests ensures s.requests[id].grant != g.id {
      RecordOf(s, id);
    }
    TotalZero(s.requests, Open(Slice(g.id, None)));
    TotalZero(s.requests, Paid(Slice(g.id, None)));
    forall e: U64 ensures WindowBooks(s.requests, g, e) {
      TotalZero(s.requests, Open(Slice(g.id, Some(Window(e, g.windowNs)))));
      TotalZero(s.requests, Paid(Slice(g.id, Some(Window(e, g.windowNs)))));
    }
  }

  /** The registry may change around the requests as long as it says the same to them. */
  ghost predicate RegistryExtends(s: Exec, t: Exec) {
    && t.requests == s.requests && t.nextNonce == s.nextNonce && t.instance == s.instance
    && s.plans.Keys <= t.plans.Keys && (forall k | k in s.plans :: t.plans[k] == s.plans[k])
    && s.operations.Keys <= t.operations.Keys
    && (forall k | k in s.operations :: t.operations[k].status == s.operations[k].status && t.operations[k].proposal == s.operations[k].proposal)
    && s.grants.Keys <= t.grants.Keys
    && (forall k | k in s.grants ::
          && t.grants[k].plan == s.grants[k].plan && t.grants[k].ledger == s.grants[k].ledger
          && t.grants[k].windowNs == s.grants[k].windowNs && t.grants[k].windows == s.grants[k].windows)
  }

  lemma RegistryRecord(s: Exec, t: Exec, id: Digest)
    requires RegistryExtends(s, t) && id in s.requests && RecordOk(s, id, s.requests[id])
    ensures RecordOk(t, id, s.requests[id])
  {
    hide RequestId, EvidenceOk;
  }

  lemma RegistryRecords(s: Exec, t: Exec)
    requires Inv(s) && RegistryExtends(s, t)
    ensures RecordsOk(t) && NoncesOk(t)
  {
    assert t.requests == s.requests && t.nextNonce == s.nextNonce && t.instance == s.instance;
    hide RegistryExtends, RecordOk, RequestId;
    forall id | id in t.requests ensures RecordOk(t, id, t.requests[id]) {
      RecordOf(s, id);
      RegistryRecord(s, t, id);
    }
  }

  lemma SameOperations(s: Exec, t: Exec)
    requires Inv(s) && t.requests == s.requests && t.operations == s.operations
    ensures OperationsOk(t)
  {
    hide Inv;
    forall k | k in t.operations ensures Held(t, k, t.operations[k]) {
      OperationOf(s, k);
    }
  }

  lemma SameGrants(s: Exec, t: Exec)
    requires Inv(s) && t.requests == s.requests && t.grants == s.grants && s.plans.Keys <= t.plans.Keys
    ensures GrantsOk(t)
  {
    hide Inv, Books;
    forall k | k in t.grants ensures GrantOk(t, k, t.grants[k]) {
      GrantOf(s, k);
    }
  }

  lemma InvPlans(s: Exec)
    requires Inv(s)
    ensures PlansOk(s)
  {
  }

  lemma InvFrom(t: Exec)
    requires RecordsOk(t) && OperationsOk(t) && PlansOk(t) && GrantsOk(t) && NoncesOk(t)
    ensures Inv(t)
  {
    hide RecordsOk, OperationsOk, PlansOk, GrantsOk, NoncesOk;
  }

  lemma PutPlan(s: Exec, p: Plan)
    requires Inv(s) && p.id !in s.plans && 1 <= |p.signals| <= MAX_SLOTS
    ensures Inv(s.(plans := s.plans[p.id := p]))
  {
    var t := s.(plans := s.plans[p.id := p]);
    InvPlans(s);
    hide Inv;
    SameOperations(s, t);
    SameGrants(s, t);
    RegistryRecords(s, t);
    hide RecordsOk, OperationsOk, GrantsOk, NoncesOk;
    InvFrom(t);
  }

  lemma InstallPlanKeeps(s: Exec, caller: Principal, p: Plan)
    requires Inv(s)
    ensures Inv(InstallPlan(s, caller, p).state)
  {
    hide Inv, ValidateSignals;
    if InstallPlan(s, caller, p).state != s {
      PutPlan(s, p);
    }
  }

  /** An operation is added, or keeps its status and proposal. */
  lemma PutOperation(s: Exec, k: Digest, o: Operation)
    requires Inv(s) && o.id == k
    requires if k in s.operations then o.status == s.operations[k].status && o.proposal == s.operations[k].proposal else o.status == Available
    ensures Inv(s.(operations := s.operations[k := o]))
  {
    var t := s.(operations := s.operations[k := o]);
    InvPlans(s);
    SameGrants(s, t);
    RegistryRecords(s, t);
    hide Inv, RecordsOk, NoncesOk, GrantsOk;
    forall j | j in t.operations ensures Held(t, j, t.operations[j]) {
      if j in s.operations {
        OperationOf(s, j);
      }
    }
    InvFrom(t);
  }

  /** A grant is added with empty books, or is only revoked. */
  lemma PutGrant(s: Exec, k: Digest, g: Grant)
    requires Inv(s) && g.id == k && g.windowNs > 0 && g.plan in s.plans && Books(s.requests, g)
    requires k in s.grants ==> g == s.grants[k].(revoked := g.revoked, revision := g.revision)
    ensures Inv(s.(grants := s.grants[k := g]))
  {
    hide Inv, RecordsOk, NoncesOk, OperationsOk, Books, WindowBooks;
    var t := s.(grants := s.grants[k := g]);
    InvPlans(s);
    SameOperations(s, t);
    RegistryRecords(s, t);
    forall j | j in t.grants ensures GrantOk(t, j, t.grants[j]) {
      if j in s.grants {
        GrantOf(s, j);
      }
    }
    InvFrom(t);
  }

  lemma InstallOperationKeeps(s: Exec, caller: Principal, o: Operation)
    requires Inv(s)
    ensures Inv(InstallOperation(s, caller, o).state)
  {
    hide Inv;
    if InstallOperation(s, caller, o).state != s {
      PutOperation(s, o.id, o);
    }
  }

  lemma ReviseOperationKeeps(s: Exec, caller: Principal, id: Digest, evidence: Blob)
    requires Inv(s)
    ensures Inv(ReviseOperation(s, caller, id, evidence).state)
  {
    hide Inv;
    if ReviseOperation(s, caller, id, evidence).state != s {
      OperationOf(s, id);
      PutOperation(s, id, ReviseOperation(s, caller, id, evidence).state.operations[id]);
    }
  }

  lemma InstallGrantKeeps(s: Exec, caller: Principal, g: Grant)
    requires Inv(s)
    ensures Inv(InstallGrant(s, caller, g).state)
  {
    hide Inv, Books;
    if InstallGrant(s, caller, g).state != s {
      FreshBooks(s, g);
      PutGrant(s, g.id, g);
    }
  }

  lemma BooksFrame(rs: Requests, g: Grant, h: Grant)
    requires Books(rs, g) && h == g.(revoked := h.revoked, revision := h.revision)
    ensures Books(rs, h)
  {
    hide Total;
    forall e: U64 ensures WindowBooks(rs, h, e) {
      assert WindowBooks(rs, g, e);
    }
  }

  lemma RevokeKeeps(s: Exec, caller: Principal, id: Digest)
    requires Inv(s)
    ensures Inv(Revoke(s, caller, id).state)
  {
    hide Inv, Books;
    if Revoke(s, caller, id).state != s {
      GrantOf(s, id);
      var g := Revoke(s, caller, id).state.grants[id];
      BooksFrame(s.requests, s.grants[id], g);
      PutGrant(s, id, g);
    }
  }

  /** Mode, pause and ledger registration do not touch the books at all. */
  lemma SettingsKeep(s: Exec, mode: Mode, paused: bool, ledgers: seq<Principal>)
    requires Inv(s)
    ensures Inv(s.(mode := mode, paused := paused, mockLedgers := ledgers))
  {
    var t := s.(mode := mode, paused := paused, mockLedgers := ledgers);
    InvPlans(s);
    SameOperations(s, t);
    SameGrants(s, t);
    RegistryRecords(s, t);
    hide Inv, RecordsOk, OperationsOk, GrantsOk, NoncesOk;
    InvFrom(t);
  }

  // ----- why the invariant has to be stronger than the source's check -----------------------

  function SkewedRecord(): RequestRecord {
    var x, zero := Hash([]), seq(32, _ => 0);
    RequestRecord(
      x, [3], 0, x, x, x, 1, 1, x, 0, Submitted, [], None, Some(Reservation(0, 0)),
      Some(FrozenTransfer(TransferProposal([1], zero, Account([2], zero), 0, 0), x, 0)), 1, false)
  }

  function SkewedGrant(): Grant {
    Grant(Hash([]), 1, [3], Hash([]), [1], seq(32, _ => 0), [], 0, 0, 0, 0, 1, 0, false, Usage(0, 0), map[0 := Usage(0, 0)])
  }

  /** Two records filed under different keys that carry the same `id`, with an empty charge reserved for each. */
  function Skewed(): Exec {
    var x, r := Hash([]), SkewedRecord();
    Exec([9], [8], Mock, false, map[], map[x := Operation(x, 1, [1], r.frozen.value.proposal, Reserved(x))],
         map[x := SkewedGrant()], map[x := r, Hash([Byte(1)]) := r], map[[3] := 1], [[1]])
  }

  lemma SkewedPasses()
    ensures CheckInvariants(Skewed())
  {
    hide Total;
    var s, x := Skewed(), Hash([]);
    TotalZero(s.requests, Booked(x, None));
    TotalZero(s.requests, Booked(x, Some(0)));
  }

  lemma SkewedNotInv()
    ensures !Inv(Skewed())
  {
    hide StageOk, EvidenceOk, RequestId, Books;
    var y := Hash([Byte(1)]);
    assert Skewed().requests[y].id != y;
    if Inv(Skewed()) {
      RecordOf(Skewed(), y);
    }
  }

  /** `check_invariants` accepts this state and rejects the one a refused transfer leads to: it is not inductive. */
  lemma CheckIsNotInductive()
    ensures var s, cmd := Skewed(), DispatchCommand(Hash([]), 1, SkewedRecord().frozen.value);
      && CheckInvariants(s) && !Inv(s) && !CheckInvariants(FinishLedger(s, cmd, DefinitiveError("refused")).state)
  {
    SkewedPasses();
    SkewedNotInv();
    hide Inv, Total;
    var s, x, y := Skewed(), Hash([]), Hash([Byte(1)]);
    var t := FinishLedger(s, DispatchCommand(x, 1, SkewedRecord().frozen.value), DefinitiveError("refused")).state;
    assert t.operations[x].status == Available;
    assert x != y && y in t.requests && t.requests[y] == SkewedRecord();
  }
}
