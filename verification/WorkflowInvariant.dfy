/**
 The inductive invariant behind `check_invariants`, and its preservation by every entry
 point of the executor (crates/ic-laya-core/src/workflow.rs).
 */
module WorkflowInvariant {
  import opened Wrappers
  import opened Numbers
  import opened Canonical
  import opened Types
  import opened Icrc
  import opened Workflow

  // ----- sums of charges over the requests ------------------------------------------------

  /** One grant, or one of its time windows. */
  datatype Window = Window(epoch: U64, length: U64)
  datatype Slice = Slice(grant: Digest, window: Option<Window>)

  /** Which charges a sum counts. `Booked` is what `check_invariants` adds up. */
  datatype Measure = Open(slice: Slice) | Paid(slice: Slice) | Member(slice: Slice, ids: set<Digest>) | Booked(grant: Digest, epoch: Option<U64>)

  predicate IsOpen(r: RequestRecord) {
    r.status == Submitted || r.status.UnknownOutcome?
  }

  function ChargeOf(r: RequestRecord): nat {
    if r.frozen.Some? then r.frozen.value.proposal.amount + r.frozen.value.proposal.fee else 0
  }

  predicate InSlice(r: RequestRecord, slice: Slice) {
    && r.grant == slice.grant && r.frozen.Some?
    && (slice.window.Some? ==>
          slice.window.value.length > 0 && Epoch(r.frozen.value.createdAt, slice.window.value.length) == slice.window.value.epoch)
  }

  function Weight(r: RequestRecord, m: Measure): nat {
    match m
    case Open(slice) => if InSlice(r, slice) && IsOpen(r) then ChargeOf(r) else 0
    case Paid(slice) => if InSlice(r, slice) && r.status.Succeeded? then ChargeOf(r) else 0
    case Member(slice, ids) => if InSlice(r, slice) && r.id in ids then ChargeOf(r) else 0
    case Booked(grant, epoch) =>
      if r.grant == grant && r.reservation.Some? && (epoch.Some? ==> r.reservation.value.epoch == epoch.value)
      then r.reservation.value.charge else 0
  }

  type Requests = map<Digest, RequestRecord>

  ghost function Total(rs: Requests, m: Measure): nat {
    if rs == map[] then 0 else
    var id :| id in rs;
    Weight(rs[id], m) + Total(rs - {id}, m)
  }

  lemma {:induction false} TotalRemove(rs: Requests, m: Measure, id: Digest)
    requires id in rs
    ensures Total(rs, m) == Weight(rs[id], m) + Total(rs - {id}, m)
    decreases |rs|
  {
    var pick :| pick in rs && Total(rs, m) == Weight(rs[pick], m) + Total(rs - {pick}, m);
    if pick != id {
      TotalRemove(rs - {pick}, m, id);
      TotalRemove(rs - {id}, m, pick);
      assert rs - {pick} - {id} == rs - {id} - {pick};
    }
  }

  lemma TotalPut(rs: Requests, m: Measure, id: Digest, r: RequestRecord)
    ensures Total(rs[id := r], m) == Total(rs, m) - (if id in rs then Weight(rs[id], m) else 0) + Weight(r, m)
  {
    TotalRemove(rs[id := r], m, id);
    if id in rs {
      TotalRemove(rs, m, id);
    } else {
      assert rs - {id} == rs;
    }
    assert rs[id := r] - {id} == rs - {id};
  }

  /** Sums agree when the weights do, for two maps over the same keys and two measures. */
  lemma {:induction false} TotalAgree(rs: Requests, m: Measure, rs': Requests, m': Measure)
    requires rs.Keys == rs'.Keys && forall id | id in rs :: Weight(rs[id], m) == Weight(rs'[id], m')
    ensures Total(rs, m) == Total(rs', m')
    decreases |rs|
  {
    if rs != map[] {
      var id :| id in rs;
      TotalRemove(rs, m, id);
      TotalRemove(rs', m', id);
      assert (rs - {id}).Keys == (rs' - {id}).Keys;
      TotalAgree(rs - {id}, m, rs' - {id}, m');
    } else {
      assert rs' == map[];
    }
  }

  lemma {:induction false} TotalBelow(rs: Requests, m: Measure, a: Measure, b: Measure)
    requires forall id | id in rs :: Weight(rs[id], m) <= Weight(rs[id], a) + Weight(rs[id], b)
    ensures Total(rs, m) <= Total(rs, a) + Total(rs, b)
    decreases |rs|
  {
    if rs != map[] {
      var id :| id in rs;
      TotalRemove(rs, m, id);
      TotalRemove(rs, a, id);
      TotalRemove(rs, b, id);
      TotalBelow(rs - {id}, m, a, b);
    }
  }

  lemma {:induction false} TotalWithin(rs: Requests, m: Measure, m': Measure)
    requires forall id | id in rs :: Weight(rs[id], m) <= Weight(rs[id], m')
    ensures Total(rs, m) <= Total(rs, m')
    decreases |rs|
  {
    if rs != map[] {
      var id :| id in rs;
      TotalRemove(rs, m, id);
      TotalRemove(rs, m', id);
      TotalWithin(rs - {id}, m, m');
    }
  }

  lemma {:induction false} TotalAtLeast(rs: Requests, m: Measure, id: Digest)
    requires id in rs
    ensures Weight(rs[id], m) <= Total(rs, m)
  {
    TotalRemove(rs, m, id);
  }

  // ----- the invariant ----------------------------------------------------------------------

  /** The evidence text a snapshot digest commits to. */
  ghost predicate CommitsTo(snapshot: Digest, evidence: Blob) {
    exists o, g, p :: Snapshot(o, g, p) == snapshot && o.evidence == evidence
  }

  ghost predicate SawEvidence(snapshot: Digest, stateHash: Digest) {
    exists e :: CommitsTo(snapshot, e) && stateHash == StateHash(e)
  }

  /** A snapshot commits to one evidence text only. */
  lemma CommitsToOne(snapshot: Digest, e: Blob, f: Blob)
    requires CommitsTo(snapshot, e) && CommitsTo(snapshot, f)
    ensures e == f
  {
    hide Snapshot;
    var o, g, p :| Snapshot(o, g, p) == snapshot && o.evidence == e;
    var o', g', p' :| Snapshot(o', g', p') == snapshot && o'.evidence == f;
    SnapshotInjective(o, g, p, o', g', p');
  }

  ghost predicate Identified(s: Exec, id: Digest, r: RequestRecord) {
    && r.id == id && id == RequestId(s.instance, r.caller, r.nonce)
    && r.caller in s.nextNonce && r.nonce < s.nextNonce[r.caller]
  }

  ghost predicate Linked(s: Exec, r: RequestRecord) {
    && r.operation in s.operations && r.grant in s.grants && r.plan in s.plans && s.grants[r.grant].plan == r.plan
  }

  ghost predicate Dispatched(st: Status) {
    st == Submitted || st.UnknownOutcome? || st.Succeeded? || st.FailedDefinitive?
  }

  /** How a record's payment fields follow its status, its operation and its grant. */
  ghost predicate StageOk(r: RequestRecord, op: Operation, g: Grant) {
    && (Dispatched(r.status) <==> r.frozen.Some?)
    && (r.frozen.None? ==> r.ledgerAttempt == 0 && !r.everUnknown)
    && (r.frozen.Some? ==>
          && 1 <= r.ledgerAttempt <= 2 && r.frozen.value.memo == r.id && r.frozen.value.proposal.Charge().Ok?
          && r.frozen.value.proposal.ledger == g.ledger && g.windowNs > 0 && r.pending.None?)
    && (r.ledgerAttempt == 2 ==> r.everUnknown) && (r.status.UnknownOutcome? ==> r.everUnknown)
    && (IsOpen(r) <==> r.reservation.Some?)
    && (IsOpen(r) ==>
          && r.reservation.value == Reservation(ChargeOf(r), Epoch(r.frozen.value.createdAt, g.windowNs))
          && r.reservation.value.epoch in g.windows
          && op.status == Reserved(r.id) && op.proposal == r.frozen.value.proposal)
    && (r.status.Succeeded? ==> op.status == Consumed(r.id))
    && (r.status.FailedDefinitive? ==> r.ledgerAttempt == 1 && !r.everUnknown)
  }

  ghost predicate Complete(st: Status) {
    st == ReadyToDispatch || st == Reported || Dispatched(st)
  }

  ghost predicate InProgress(st: Status) {
    st == Received || st == Evaluating
  }

  /** Slot `i` holds a receipt bound to this request, slot and snapshot, over the committed evidence. */
  ghost predicate SlotFilled(id: Digest, r: RequestRecord, p: Plan, i: nat)
    requires i < |r.receipts| && i < |p.signals| && i < 256
  {
    && ReceiptBound(p, id, r, i)
    && r.receipts[i].stamp.evaluationId == SlotId(id, i, r.snapshot)
    && SawEvidence(r.snapshot, r.receipts[i].stamp.stateHash)
  }

  /** The outstanding question is the next slot's. */
  ghost predicate PendingOk(id: Digest, r: RequestRecord, p: Plan)
    requires r.pending.Some? && |r.receipts| < 256
  {
    var q, slot := r.pending.value, |r.receipts|;
    && slot < |p.signals| && 1 <= q.sends <= 2 && (!q.inFlight ==> q.sends == 1)
    && q.request.evaluationId == SlotId(id, slot, r.snapshot)
    && q.request.binding == Some(Binding(id, slot, 0, r.snapshot))
    && q.request.model == p.model && q.request.calibration == Some(p.signals[slot].calibration)
    && CommitsTo(r.snapshot, q.request.state)
  }

  ghost predicate EvidenceOk(id: Digest, r: RequestRecord, p: Plan) {
    && |r.receipts| <= |p.signals| <= MAX_SLOTS
    && (Complete(r.status) ==> |r.receipts| == |p.signals|)
    && (InProgress(r.status) ==> |r.receipts| < |p.signals|)
    && (r.pending.Some? <==> r.status == Evaluating)
    && (r.pending.Some? ==> PendingOk(id, r, p))
    && (forall i | 0 <= i < |r.receipts| :: SlotFilled(id, r, p, i))
    && (Complete(r.status) || InProgress(r.status) ==>
          forall i | 0 <= i < |r.receipts| :: CheckRule(p.signals[i], r.receipts[i]) == Ok(true))
  }

  ghost predicate RecordOk(s: Exec, id: Digest, r: RequestRecord) {
    && Identified(s, id, r) && Linked(s, r)
    && StageOk(r, s.operations[r.operation], s.grants[r.grant])
    && EvidenceOk(id, r, s.plans[r.plan])
  }

  ghost predicate RecordsOk(s: Exec) {
    forall id | id in s.requests :: RecordOk(s, id, s.requests[id])
  }

  /** An operation is held by at most one request, and that request knows it. */
  ghost predicate Held(s: Exec, k: Digest, o: Operation) {
    && o.id == k
    && (o.status.Reserved? ==>
          o.status.holder in s.requests && s.requests[o.status.holder].operation == k && IsOpen(s.requests[o.status.holder]))
    && (o.status.Consumed? ==>
          o.status.holder in s.requests && s.requests[o.status.holder].operation == k && s.requests[o.status.holder].status.Succeeded?)
  }

  ghost predicate OperationsOk(s: Exec) {
    forall k | k in s.operations :: Held(s, k, s.operations[k])
  }

  ghost predicate PlansOk(s: Exec) {
    forall k | k in s.plans :: s.plans[k].id == k && 1 <= |s.plans[k].signals| <= MAX_SLOTS
  }

  ghost predicate WindowBooks(rs: Requests, g: Grant, epoch: U64)
  {
    var u, slice := WindowOf(g, epoch), Slice(g.id, Some(Window(epoch, g.windowNs)));
    u.reserved == Total(rs, Open(slice)) && u.spent == Total(rs, Paid(slice)) && u.spent + u.reserved <= g.windowCap
  }

  /** Reserved is the sum of open charges and spent the sum of paid ones, in total and per window. */
  ghost predicate Books(rs: Requests, g: Grant) {
    && g.total.reserved == Total(rs, Open(Slice(g.id, None)))
    && g.total.spent == Total(rs, Paid(Slice(g.id, None)))
    && g.total.spent + g.total.reserved <= g.totalCap
    && forall e: U64 :: WindowBooks(rs, g, e)
  }

  ghost predicate GrantOk(s: Exec, k: Digest, g: Grant) {
    g.id == k && g.windowNs > 0 && g.plan in s.plans && Books(s.requests, g)
  }

  ghost predicate GrantsOk(s: Exec) {
    forall k | k in s.grants :: GrantOk(s, k, s.grants[k])
  }

  /** Accepted nonces are exactly 0..next-1. */
  ghost predicate NoncesOk(s: Exec) {
    forall c, n: U64 | c in s.nextNonce && n < s.nextNonce[c] ::
      RequestId(s.instance, c, n) in s.requests
  }

  ghost predicate Inv(s: Exec) {
    RecordsOk(s) && OperationsOk(s) && PlansOk(s) && GrantsOk(s) && NoncesOk(s)
  }

  lemma NewOk(instance: Principal, owner: Principal)
    ensures Inv(New(instance, owner))
  {
  }

  lemma RecordOf(s: Exec, id: Digest)
    requires Inv(s) && id in s.requests
    ensures RecordOk(s, id, s.requests[id])
  {
  }

  lemma GrantOf(s: Exec, k: Digest)
    requires Inv(s) && k in s.grants
    ensures GrantOk(s, k, s.grants[k])
  {
  }

  lemma OperationOf(s: Exec, k: Digest)
    requires Inv(s) && k in s.operations
    ensures Held(s, k, s.operations[k])
  {
  }

  lemma InvWindowed(s: Exec)
    requires Inv(s)
    ensures Windowed(s)
  {
    hide Inv, Books;
    forall g | g in s.grants ensures s.grants[g].windowNs > 0 {
      GrantOf(s, g);
    }
  }

  // ----- consequences -----------------------------------------------------------------------

  /** A consumed nonce always has its request on record: `NonceConsumed` cannot be returned. */
  lemma NonceConsumedUnreachable(s: Exec, caller: Principal, nonce: U64, operation: Digest, grant: Digest, now: U64)
    requires Inv(s)
    ensures Submit(s, caller, nonce, operation, grant, now).result != Err(NonceConsumed)
    ensures nonce < NextNonce(s, caller) <==> RequestId(s.instance, caller, nonce) in s.requests
  {
    hide RequestId, Books, StageOk, EvidenceOk, OperationsOk, PlansOk, GrantsOk, Snapshot;
    var id := RequestId(s.instance, caller, nonce);
    if id in s.requests {
      assert RecordOk(s, id, s.requests[id]);
      RequestIdInjective(s.instance, caller, nonce, s.instance, s.requests[id].caller, s.requests[id].nonce);
    }
    AdmitErrors(s, caller, operation, grant, now);
  }

  lemma AdmitErrors(s: Exec, caller: Principal, operation: Digest, grant: Digest, now: U64)
    ensures Admit(s, caller, operation, grant, now) != Err(NonceConsumed)
  {
  }

  /** Settling an open request never fails: `Storage` and `Budget` are unreachable there. */
  lemma SettleSucceeds(s: Exec, id: Digest, success: bool, text: string)
    requires Inv(s) && id in s.requests && IsOpen(s.requests[id])
    ensures SettleRecord(s, s.requests[id], success, text).result
         == Ok(if success then Succeeded(text) else FailedDefinitive(text))
  {
    hide RequestId, EvidenceOk, OperationsOk, PlansOk, NoncesOk;
    var r := s.requests[id];
    assert RecordOk(s, id, r);
    var g := s.grants[r.grant];
    assert GrantOk(s, r.grant, g);
    var e := r.reservation.value.epoch;
    assert WindowBooks(s.requests, g, e);
    TotalAtLeast(s.requests, Open(Slice(g.id, None)), id);
    TotalAtLeast(s.requests, Open(Slice(g.id, Some(Window(e, g.windowNs)))), id);
  }

  /** What `check_invariants` adds up and compares, over the whole state. */
  ghost predicate CheckInvariants(s: Exec) {
    && (forall k | k in s.grants ::
          var g := s.grants[k];
          && g.total.reserved == Total(s.requests, Booked(g.id, None))
          && g.total.spent + g.total.reserved <= g.totalCap
          && forall e | e in g.windows ::
               && g.windows[e].reserved == Total(s.requests, Booked(g.id, Some(e)))
               && g.windows[e].spent + g.windows[e].reserved <= g.windowCap)
    && (forall id | id in s.requests ::
          var r := s.requests[id];
          && r.operation in s.operations
          && (r.reservation.Some? ==>
                s.operations[r.operation].status == Reserved(r.id) && (r.status == Submitted || r.status.UnknownOutcome?))
          && (r.status.Succeeded? ==> r.reservation.None? && s.operations[r.operation].status == Consumed(r.id))
          && NextNonce(s, r.caller) > r.nonce)
  }

  lemma BookedWeight(s: Exec, id: Digest, g: Grant, e: U64)
    requires RecordsOk(s) && id in s.requests && g.id in s.grants && s.grants[g.id] == g && g.windowNs > 0
    ensures Weight(s.requests[id], Booked(g.id, None)) == Weight(s.requests[id], Open(Slice(g.id, None)))
    ensures Weight(s.requests[id], Booked(g.id, Some(e))) == Weight(s.requests[id], Open(Slice(g.id, Some(Window(e, g.windowNs)))))
  {
    hide RequestId, EvidenceOk;
    assert RecordOk(s, id, s.requests[id]);
  }

  lemma GrantCheck(s: Exec, k: Digest, e: U64)
    requires RecordsOk(s) && GrantsOk(s) && k in s.grants
    ensures s.grants[k].total.reserved == Total(s.requests, Booked(k, None))
    ensures WindowOf(s.grants[k], e).reserved == Total(s.requests, Booked(k, Some(e)))
    ensures WindowOf(s.grants[k], e).spent + WindowOf(s.grants[k], e).reserved <= s.grants[k].windowCap
    ensures s.grants[k].total.spent + s.grants[k].total.reserved <= s.grants[k].totalCap && s.grants[k].id == k
  {
    var g := s.grants[k];
    assert GrantOk(s, k, g);
    assert WindowBooks(s.requests, g, e);
    hide RecordsOk, GrantsOk, Weight;
    forall id | id in s.requests
      ensures Weight(s.requests[id], Booked(k, None)) == Weight(s.requests[id], Open(Slice(k, None)))
      ensures Weight(s.requests[id], Booked(k, Some(e))) == Weight(s.requests[id], Open(Slice(k, Some(Window(e, g.windowNs)))))
    {
      BookedWeight(s, id, g, e);
    }
    TotalAgree(s.requests, Booked(k, None), s.requests, Open(Slice(k, None)));
    TotalAgree(s.requests, Booked(k, Some(e)), s.requests, Open(Slice(k, Some(Window(e, g.windowNs)))));
  }

  /** The source's runtime check never fires on an invariant state. */
  lemma CheckPasses(s: Exec)
    requires Inv(s)
    ensures CheckInvariants(s)
  {
    hide Total, Books, RequestId, EvidenceOk;
    forall k | k in s.grants
      ensures var g := s.grants[k];
        && g.total.reserved == Total(s.requests, Booked(g.id, None))
        && g.total.spent + g.total.reserved <= g.totalCap
        && forall e | e in g.windows ::
             && g.windows[e].reserved == Total(s.requests, Booked(g.id, Some(e)))
             && g.windows[e].spent + g.windows[e].reserved <= g.windowCap
    {
      GrantCheck(s, k, 0);
      forall e | e in s.grants[k].windows
        ensures s.grants[k].windows[e].reserved == Total(s.requests, Booked(k, Some(e)))
        ensures s.grants[k].windows[e].spent + s.grants[k].windows[e].reserved <= s.grants[k].windowCap
      {
        GrantCheck(s, k, e);
      }
    }
    forall id | id in s.requests
      ensures var r := s.requests[id];
        && r.operation in s.operations
        && (r.reservation.Some? ==>
              s.operations[r.operation].status == Reserved(r.id) && (r.status == Submitted || r.status.UnknownOutcome?))
        && (r.status.Succeeded? ==> r.reservation.None? && s.operations[r.operation].status == Consumed(r.id))
        && NextNonce(s, r.caller) > r.nonce
    {
      assert RecordOk(s, id, s.requests[id]);
    }
  }
}
