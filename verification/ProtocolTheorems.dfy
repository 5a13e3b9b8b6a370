/** What the protocol guarantees its users, in every state of every behaviour. */
module ProtocolTheorems {
  import opened Wrappers
  import opened Numbers
  import opened Canonical
  import opened Types
  import opened Icrc
  import opened Workflow
  import opened WorkflowInvariant
  import opened WorkflowSteps
  import opened Protocol
  import opened ProtocolSafety
  import opened ProtocolHistory
  import opened Rules
  import ML = MockLedger
  import Decimal

  /** Block `n` of ledger `p` was committed by the executor for a request on operation `op`. */
  ghost predicate PaidFor(s: System, op: Digest, p: Principal, n: nat) {
    && p in s.ledgers && n < |s.ledgers[p].blocks| && s.ledgers[p].blocks[n].caller == s.exec.instance
    && var memo := s.ledgers[p].blocks[n].transfer.memo;
       memo in s.exec.requests && s.exec.requests[memo].operation == op
  }

  // ----- facts at one reachable state --------------------------------------------------------

  lemma BlockFacts(s: System, p: Principal, n: nat)
    requires NetOk(s) && p in s.ledgers && n < |s.ledgers[p].blocks| && s.ledgers[p].blocks[n].caller == s.exec.instance
    ensures BlockOk(s, p, s.ledgers[p].blocks[n])
  {
  }

  /** A request whose payload is on the chain is not a failed one. */
  lemma CommittedNotFailed(s: System, p: Principal, n: nat)
    requires SysInv(s) && p in s.ledgers && n < |s.ledgers[p].blocks| && s.ledgers[p].blocks[n].caller == s.exec.instance
    ensures var memo := s.ledgers[p].blocks[n].transfer.memo;
      memo in s.exec.requests && s.exec.requests[memo].frozen.Some? && !s.exec.requests[memo].status.FailedDefinitive?
  {
    BlockFacts(s, p, n);
    var memo := s.ledgers[p].blocks[n].transfer.memo;
    var i :| 0 <= i < |s.calls| && s.calls[i].command.request == memo && Commits(s.calls[i].message);
    CallNames(s, i);
    hide Inv, NetOk, AskedWithin, AskedKnown;
  }

  lemma HolderOf(s: Exec, id: Digest)
    requires Inv(s) && id in s.requests && (IsOpen(s.requests[id]) || s.requests[id].status.Succeeded?)
    ensures s.requests[id].operation in s.operations
    ensures s.operations[s.requests[id].operation].status == (if IsOpen(s.requests[id]) then Reserved(id) else Consumed(id))
  {
    hide Inv, EvidenceOk, RequestId;
    RecordOf(s, id);
  }

  lemma FrozenIsHeld(s: Exec, id: Digest)
    requires Inv(s) && id in s.requests && s.requests[id].frozen.Some? && !s.requests[id].status.FailedDefinitive?
    ensures IsOpen(s.requests[id]) || s.requests[id].status.Succeeded?
  {
    hide Inv, EvidenceOk, RequestId;
    RecordOf(s, id);
  }

  /** At most one committed transfer per operation, across all ledgers. */
  lemma OnePayment(s: System, op: Digest, p: Principal, n: nat, p': Principal, n': nat)
    requires SysInv(s) && PaidFor(s, op, p, n) && PaidFor(s, op, p', n')
    ensures p == p' && n == n'
  {
    CommittedNotFailed(s, p, n);
    CommittedNotFailed(s, p', n');
    BlockFacts(s, p, n);
    BlockFacts(s, p', n');
    var b, b' := s.ledgers[p].blocks[n], s.ledgers[p'].blocks[n'];
    assert ML.LedgerOk(s.ledgers[p]);
    hide Inv, NetOk, AskedWithin, AskedKnown;
    FrozenIsHeld(s.exec, b.transfer.memo);
    FrozenIsHeld(s.exec, b'.transfer.memo);
    HolderOf(s.exec, b.transfer.memo);
    HolderOf(s.exec, b'.transfer.memo);
    assert b.transfer.memo == b'.transfer.memo;
    assert b == b';
    ML.CommittedOnce(s.ledgers[p], n, n');
  }

  // ----- theorems over whole runs ------------------------------------------------------------

  /** Exactly-once: in every run an operation is paid for by at most one block of one ledger. */
  lemma AtMostOncePerOperation(states: seq<System>, events: seq<Event>, i: nat, op: Digest)
    requires Behaviour(states, events) && i < |states|
    ensures var s := states[i];
      forall p, n, p', n' | PaidFor(s, op, p, n) && PaidFor(s, op, p', n') :: p == p' && n == n'
  {
    AlwaysOk(states, events, i);
    var s := states[i];
    hide SysInv, PaidFor;
    forall p, n, p', n' | PaidFor(s, op, p, n) && PaidFor(s, op, p', n') ensures p == p' && n == n' {
      OnePayment(s, op, p, n, p', n');
    }
  }

  lemma SucceededHere(s: System, id: Digest)
    requires SysInv(s) && id in s.exec.requests && s.exec.requests[id].status.Succeeded?
    ensures var r := s.exec.requests[id];
      && r.frozen.Some? && r.frozen.value.memo == id
      && exists n: nat :: OnChain(s, r.frozen.value, n) && r.status.index == Decimal.Show(n)
  {
    var r := s.exec.requests[id];
    assert SuccessOk(s, r);
    hide Inv, NetOk, AskedWithin, AskedKnown, OnChain;
    FrozenMemo(s.exec, id);
  }

  lemma OnChainOnce(s: System, f: FrozenTransfer, m: nat, n: nat)
    requires SysInv(s) && OnChain(s, f, m) && OnChain(s, f, n)
    ensures m == n
  {
    assert ML.LedgerOk(s.ledgers[f.proposal.ledger]);
    hide Inv, NetOk, AskedWithin, AskedKnown;
    ML.CommittedOnce(s.ledgers[f.proposal.ledger], m, n);
  }

  /** `Succeeded(i)` means: the frozen payload is block `i` of its ledger, and no other. */
  lemma SucceededIsCommitted(states: seq<System>, events: seq<Event>, i: nat, id: Digest)
    requires Behaviour(states, events) && i < |states| && id in states[i].exec.requests && states[i].exec.requests[id].status.Succeeded?
    ensures var s := states[i]; var r := s.exec.requests[id];
      && r.frozen.Some? && r.frozen.value.memo == id
      && exists n: nat ::
           && OnChain(s, r.frozen.value, n) && r.status.index == Decimal.Show(n)
           && PaidFor(s, r.operation, r.frozen.value.proposal.ledger, n)
           && forall m: nat :: OnChain(s, r.frozen.value, m) ==> m == n
  {
    AlwaysOk(states, events, i);
    var s := states[i];
    hide SysInv;
    SucceededHere(s, id);
    var r := s.exec.requests[id];
    var n: nat :| OnChain(s, r.frozen.value, n) && r.status.index == Decimal.Show(n);
    assert PaidFor(s, r.operation, r.frozen.value.proposal.ledger, n);
    hide OnChain, PaidFor;
    forall m: nat | OnChain(s, r.frozen.value, m) ensures m == n {
      OnChainOnce(s, r.frozen.value, m, n);
    }
  }

  /** Both terminal payment states are final. */
  ghost predicate Final(s: Exec, t: Exec, id: Digest) {
    id in s.requests && Settledness(s.requests[id].status) ==>
      id in t.requests && t.requests[id].status == s.requests[id].status && t.requests[id].frozen == s.requests[id].frozen
      && t.instance == s.instance
  }

  lemma QuietFinal(s: Exec, t: Exec, id: Digest)
    requires QuietStep(s, t)
    ensures Final(s, t, id)
  {
  }

  lemma SendFinal(s: Exec, t: Exec, cmd: DispatchCommand, id: Digest)
    requires SendStep(s, t, cmd)
    ensures Final(s, t, id)
  {
  }

  lemma LedgerAnswerFinal(s: Exec, cmd: DispatchCommand, outcome: LedgerOutcome, id: Digest)
    requires Inv(s) && Names(s, cmd)
    ensures Final(s, FinishLedger(s, cmd, outcome).state, id)
  {
    FinishLedgerEffect(s, cmd, outcome);
    hide Inv, FinishLedger;
  }

  lemma DispatchFinal(s: System, c: Principal, k: Digest, now: U64, id: Digest)
    requires Inv(s.exec)
    ensures Windowed(s.exec) && Final(s.exec, DispatchNext(s, c, k, now).exec, id)
  {
    InvWindowed(s.exec);
    hide Inv, QuietStep, SendStep, Windowed, Authorize, PrepareDispatch;
    if Authorize(s.exec, c, k, now).Ok? {
      DispatchSendStep(s, c, k, now);
      var step := PrepareDispatch(s.exec, Authorize(s.exec, c, k, now).value, now);
      match step.result
      case Ok(cmd) => SendFinal(s.exec, step.state, cmd, id);
      case Err(_) => QuietFinal(s.exec, step.state, id);
    }
  }

  lemma RetryFinal(s: System, c: Principal, k: Digest, now: U64, id: Digest)
    ensures Final(s.exec, RetryNext(s, c, k, now).exec, id)
  {
    hide Current;
  }

  lemma NextFinal(s: System, e: Event, id: Digest)
    requires SysInv(s) && Windowed(s.exec)
    ensures Final(s.exec, Next(s, e).exec, id)
  {
    hide Inv, NetOk, AskedWithin, AskedKnown, QuietStep, SendStep, Final, Windowed, LocalNext, BeginEvaluation, RetryUnknown, Authorize,
         PrepareDispatch, FinishLedger, OutcomeOf, FrozenDigest, Names, DeliverNext, AnswerNext, ReconcileCommand, ML.SetFault, ML.Transfer;
    QuietSame(s.exec, s.exec);
    QuietFinal(s.exec, s.exec, id);
    match e
    case Local(l) => LocalQuiet(s.exec, l); QuietFinal(s.exec, LocalNext(s.exec, l), id);
    case RegisterLedger(c, p) =>
      QuietSame(s.exec, RegisterMockLedger(s.exec, c, p).state);
      QuietFinal(s.exec, RegisterMockLedger(s.exec, c, p).state, id);
    case BeginEval(c, k, now) =>
      BeginEvaluationQuiet(s.exec, c, k, now);
      QuietFinal(s.exec, BeginEvaluation(s.exec, c, k, now).state, id);
    case Dispatch(c, k, now) => DispatchFinal(s, c, k, now, id);
    case Retry(c, k, now) => RetryFinal(s, c, k, now, id);
    case Callback(i) =>
      if i < |s.calls| && s.calls[i].message.Executed? && !s.calls[i].message.reply.Silent? {
        CallNames(s, i);
        LedgerAnswerFinal(s.exec, s.calls[i].command, OutcomeOf(s.calls[i].message.reply), id);
      }
    case Timeout(i, text) =>
      if i < |s.calls| {
        CallNames(s, i);
        LedgerAnswerFinal(s.exec, s.calls[i].command, Unknown(text), id);
      }
    case ReturnProbe(i) =>
      if i < |s.probes| && s.probes[i].answer.Some? && ProbeOutcome(s.probes[i].command, s.probes[i].answer.value).Some? {
        ProbeNames(s, i);
        LedgerAnswerFinal(s.exec, s.probes[i].command, ProbeOutcome(s.probes[i].command, s.probes[i].answer.value).value, id);
      }
    case _ => QuietExec(s, e);
  }

  lemma {:induction false} FinalAlong(states: seq<System>, events: seq<Event>, i: nat, j: nat, id: Digest)
    requires Behaviour(states, events) && i <= j < |states|
    ensures Final(states[i].exec, states[j].exec, id)
  {
    hide SysInv, Next, Windowed, Initial;
    if i < j {
      FinalAlong(states, events, i, j - 1, id);
      AlwaysOk(states, events, j - 1);
      assert Follows(states, events, j - 1);
      NextFinal(states[j - 1], events[j - 1], id);
    }
  }

  /**
   A reservation is released only when payment can never happen: once a request has failed
   definitively, no continuation of the run, whatever is still in flight, commits its transfer.
   */
  lemma FailedNeverPays(states: seq<System>, events: seq<Event>, i: nat, j: nat, id: Digest)
    requires Behaviour(states, events) && i <= j < |states| && id in states[i].exec.requests && states[i].exec.requests[id].status.FailedDefinitive?
    ensures var s, t := states[i], states[j];
      && id in t.exec.requests && t.exec.requests[id].status == s.exec.requests[id].status
      && s.exec.requests[id].frozen.Some?
      && forall n: nat :: !OnChain(t, s.exec.requests[id].frozen.value, n)
  {
    hide SysInv, Inv, Next, Windowed, Initial, Follows;
    AlwaysOk(states, events, i);
    AlwaysOk(states, events, j);
    FinalAlong(states, events, i, j, id);
    var s, t := states[i], states[j];
    hide Behaviour;
    SysInvExec(s);
    FailedIsFrozen(s.exec, id);
    FrozenMemo(s.exec, id);
    forall n: nat ensures !OnChain(t, s.exec.requests[id].frozen.value, n) {
      if OnChain(t, s.exec.requests[id].frozen.value, n) {
        CommittedNotFailed(t, s.exec.requests[id].frozen.value.proposal.ledger, n);
      }
    }
  }

  lemma FailedIsFrozen(s: Exec, id: Digest)
    requires Inv(s) && id in s.requests && s.requests[id].status.FailedDefinitive?
    ensures s.requests[id].frozen.Some?
  {
    hide Inv, EvidenceOk, RequestId;
    RecordOf(s, id);
  }

  /** Success is final too: the block number never changes afterwards. */
  lemma SucceededForever(states: seq<System>, events: seq<Event>, i: nat, j: nat, id: Digest)
    requires Behaviour(states, events) && i <= j < |states| && id in states[i].exec.requests && states[i].exec.requests[id].status.Succeeded?
    ensures var s, t := states[i], states[j];
      id in t.exec.requests && t.exec.requests[id].status == s.exec.requests[id].status
  {
    AlwaysOk(states, events, i);
    FinalAlong(states, events, i, j, id);
  }

  /** The executor's runtime check never traps, and settling never fails, in any run. */
  lemma ChecksNeverFire(states: seq<System>, events: seq<Event>, i: nat)
    requires Behaviour(states, events) && i < |states|
    ensures var s := states[i].exec;
      && CheckInvariants(s)
      && (forall id, success, text | id in s.requests && IsOpen(s.requests[id]) :: SettleRecord(s, s.requests[id], success, text).result.Ok?)
      && (forall c, n: U64 | n < NextNonce(s, c) :: RequestId(s.instance, c, n) in s.requests)
  {
    AlwaysOk(states, events, i);
    var s := states[i].exec;
    hide NetOk, AskedWithin, AskedKnown, RequestId;
    CheckPasses(s);
    forall id, success, text | id in s.requests && IsOpen(s.requests[id])
      ensures SettleRecord(s, s.requests[id], success, text).result.Ok?
    {
      SettleSucceeds(s, id, success, text);
    }
    forall c, n: U64 | n < NextNonce(s, c) ensures RequestId(s.instance, c, n) in s.requests {
      NonceConsumedUnreachable(s, c, n, ZeroDigest(), ZeroDigest(), 0);
    }
  }

  // ----- budgets --------------------------------------------------------------------------------

  /** What blocks of the executor charge to one grant, or to one of its windows. */
  ghost function Spent(blocks: seq<ML.Block>, instance: Principal, rs: Requests, slice: Slice): nat {
    if blocks == [] then 0 else
    var b := blocks[|blocks| - 1];
    Spent(blocks[..|blocks| - 1], instance, rs, slice)
    + (if b.caller == instance && b.transfer.memo in rs && InSlice(rs[b.transfer.memo], slice)
       then b.transfer.proposal.amount + b.transfer.proposal.fee else 0)
  }

  /** The executor's memos among the first blocks. */
  ghost function Memos(blocks: seq<ML.Block>, instance: Principal): set<Digest> {
    set i | 0 <= i < |blocks| && blocks[i].caller == instance :: blocks[i].transfer.memo
  }

  /** Each of the executor's blocks is the frozen payload of its own request. */
  ghost predicate Faithful(blocks: seq<ML.Block>, instance: Principal, rs: Requests) {
    && (forall i | 0 <= i < |blocks| && blocks[i].caller == instance ::
          var m := blocks[i].transfer.memo; m in rs && rs[m].id == m && rs[m].frozen == Some(blocks[i].transfer))
    && (forall i, j | 0 <= i < j < |blocks| && blocks[i].caller == instance && blocks[j].caller == instance ::
          blocks[i].transfer.memo != blocks[j].transfer.memo)
  }

  lemma {:induction false} TotalInsert(rs: Requests, slice: Slice, ids: set<Digest>, id: Digest)
    requires id !in ids && id in rs && forall k | k in rs :: rs[k].id == k
    ensures Total(rs, Member(slice, ids + {id})) == Total(rs, Member(slice, ids)) + (if InSlice(rs[id], slice) then ChargeOf(rs[id]) else 0)
  {
    var rest := rs - {id};
    TotalRemove(rs, Member(slice, ids + {id}), id);
    TotalRemove(rs, Member(slice, ids), id);
    TotalAgree(rest, Member(slice, ids + {id}), rest, Member(slice, ids));
  }

  lemma {:induction false} SpentIsTotal(blocks: seq<ML.Block>, instance: Principal, rs: Requests, slice: Slice)
    requires Faithful(blocks, instance, rs) && forall k | k in rs :: rs[k].id == k
    ensures Spent(blocks, instance, rs, slice) == Total(rs, Member(slice, Memos(blocks, instance)))
  {
    if blocks == [] {
      assert Memos(blocks, instance) == {};
      TotalZero(rs, Member(slice, {}));
    } else {
      var front, b := blocks[..|blocks| - 1], blocks[|blocks| - 1];
      SpentIsTotal(front, instance, rs, slice);
      if b.caller == instance {
        assert Memos(blocks, instance) == Memos(front, instance) + {b.transfer.memo};
        assert b.transfer.memo !in Memos(front, instance);
        TotalInsert(rs, slice, Memos(front, instance), b.transfer.memo);
      } else {
        assert Memos(blocks, instance) == Memos(front, instance);
      }
    }
  }

  lemma RecordKeys(s: Exec)
    requires Inv(s)
    ensures forall k | k in s.requests :: s.requests[k].id == k
  {
    hide Inv, RecordOk;
    forall k | k in s.requests ensures s.requests[k].id == k {
      RecordOf(s, k);
      RecordKey(s, k, s.requests[k]);
    }
  }

  lemma BlocksFaithful(s: System, p: Principal)
    requires SysInv(s) && p in s.ledgers
    ensures Faithful(s.ledgers[p].blocks, s.exec.instance, s.exec.requests)
  {
    hide Inv, NetOk, AskedWithin, AskedKnown;
    RecordKeys(s.exec);
    var blocks := s.ledgers[p].blocks;
    forall i | 0 <= i < |blocks| && blocks[i].caller == s.exec.instance ensures BlockOk(s, p, blocks[i]) {
      BlockFacts(s, p, i);
    }
    forall i, j | 0 <= i < j < |blocks| && blocks[i].caller == s.exec.instance && blocks[j].caller == s.exec.instance
      ensures blocks[i].transfer.memo != blocks[j].transfer.memo
    {
      BlockFacts(s, p, i);
      BlockFacts(s, p, j);
      if blocks[i].transfer.memo == blocks[j].transfer.memo {
        OnChainOnce(s, blocks[i].transfer, i, j);
      }
    }
  }

  lemma MemoWeight(s: System, p: Principal, slice: Slice, id: Digest)
    requires SysInv(s) && p in s.ledgers && id in s.exec.requests
    ensures var r := s.exec.requests[id];
      Weight(r, Member(slice, Memos(s.ledgers[p].blocks, s.exec.instance))) <= Weight(r, Open(slice)) + Weight(r, Paid(slice))
  {
    hide Inv, NetOk, AskedWithin, AskedKnown;
    RecordKeys(s.exec);
    if id in Memos(s.ledgers[p].blocks, s.exec.instance) {
      var i :| 0 <= i < |s.ledgers[p].blocks| && s.ledgers[p].blocks[i].caller == s.exec.instance && s.ledgers[p].blocks[i].transfer.memo == id;
      CommittedNotFailed(s, p, i);
      FrozenIsHeld(s.exec, id);
    }
  }

  /** Committed charges are charges still reserved or already spent. */
  lemma CommittedWithinBooks(s: System, p: Principal, slice: Slice)
    requires SysInv(s) && p in s.ledgers
    ensures Spent(s.ledgers[p].blocks, s.exec.instance, s.exec.requests, slice)
         <= Total(s.exec.requests, Open(slice)) + Total(s.exec.requests, Paid(slice))
  {
    BlocksFaithful(s, p);
    RecordKeys(s.exec);
    hide SysInv, Weight, Faithful, Memos;
    var rs, ids := s.exec.requests, Memos(s.ledgers[p].blocks, s.exec.instance);
    SpentIsTotal(s.ledgers[p].blocks, s.exec.instance, rs, slice);
    forall id | id in rs ensures Weight(rs[id], Member(slice, ids)) <= Weight(rs[id], Open(slice)) + Weight(rs[id], Paid(slice)) {
      MemoWeight(s, p, slice, id);
    }
    TotalBelow(rs, Member(slice, ids), Open(slice), Paid(slice));
  }

  /** In every run the charges committed under a grant stay within its total cap and every window cap. */
  lemma BudgetsHold(states: seq<System>, events: seq<Event>, i: nat, k: Digest, p: Principal, e: U64)
    requires Behaviour(states, events) && i < |states| && k in states[i].exec.grants && p in states[i].ledgers
    ensures var s := states[i]; var g, blocks := s.exec.grants[k], s.ledgers[p].blocks;
      && Spent(blocks, s.exec.instance, s.exec.requests, Slice(k, None)) <= g.total.spent + g.total.reserved <= g.totalCap
      && Spent(blocks, s.exec.instance, s.exec.requests, Slice(k, Some(Window(e, g.windowNs)))) <= g.windowCap
  {
    AlwaysOk(states, events, i);
    var s := states[i];
    CommittedWithinBooks(s, p, Slice(k, None));
    CommittedWithinBooks(s, p, Slice(k, Some(Window(e, s.exec.grants[k].windowNs))));
    GrantOf(s.exec, k);
    assert WindowBooks(s.exec.requests, s.exec.grants[k], e);
  }

  lemma FrozenLedger(s: Exec, id: Digest)
    requires Inv(s) && id in s.requests && s.requests[id].frozen.Some?
    ensures s.requests[id].grant in s.grants && s.requests[id].frozen.value.proposal.ledger == s.grants[s.requests[id].grant].ledger
  {
    hide Inv, EvidenceOk, RequestId;
    RecordOf(s, id);
  }

  /** A grant is charged on its own ledger only, so the bound above is over all ledgers. */
  lemma ChargedOnOneLedger(states: seq<System>, events: seq<Event>, i: nat, p: Principal, n: nat)
    requires Behaviour(states, events) && i < |states| && p in states[i].ledgers && n < |states[i].ledgers[p].blocks|
    requires states[i].ledgers[p].blocks[n].caller == states[i].exec.instance
    ensures var s := states[i]; var memo := s.ledgers[p].blocks[n].transfer.memo;
      && memo in s.exec.requests && s.exec.requests[memo].grant in s.exec.grants
      && s.exec.grants[s.exec.requests[memo].grant].ledger == p
  {
    AlwaysOk(states, events, i);
    var s := states[i];
    BlockFacts(s, p, n);
    FrozenLedger(s.exec, s.ledgers[p].blocks[n].transfer.memo);
  }

  // ----- evidence ---------------------------------------------------------------------------------

  /** One receipt per plan signal, each bound to its slot, over the committed evidence, and meeting its rule. */
  ghost predicate FullEvidence(s: Exec, id: Digest, r: RequestRecord) {
    && r.plan in s.plans && |r.receipts| == |s.plans[r.plan].signals| <= MAX_SLOTS
    && forall i | 0 <= i < |r.receipts| ::
         var p, v := s.plans[r.plan], r.receipts[i];
         && v.stamp.binding == Some(Binding(id, i, 0, r.snapshot)) && v.stamp.model == p.model
         && v.stamp.schemaHash == p.signals[i].schema.schemaHash && v.stamp.calibration == Some(p.signals[i].calibration)
         && v.stamp.evaluationId == SlotId(id, i, r.snapshot) && SawEvidence(r.snapshot, v.stamp.stateHash)
         && RuleMet(p.signals[i], v)
  }

  lemma RecordEvidence(s: Exec, id: Digest, r: RequestRecord)
    requires RecordOk(s, id, r) && Complete(r.status) && r.plan in s.plans && SignalsFit(s.plans[r.plan])
    ensures FullEvidence(s, id, r)
  {
    hide StageOk, RequestId, SlotId, CheckRule, SawEvidence, CommitsTo, ChargeOf, Snapshot, RuleMet, RuleFits;
    var p := s.plans[r.plan];
    assert Linked(s, r) && EvidenceOk(id, r, p);
    hide RecordOk, Identified, Linked;
    forall i | 0 <= i < |r.receipts|
      ensures ReceiptBound(p, id, r, i) && RuleMet(p.signals[i], r.receipts[i])
      ensures r.receipts[i].stamp.evaluationId == SlotId(id, i, r.snapshot) && SawEvidence(r.snapshot, r.receipts[i].stamp.stateHash)
    {
      assert SlotFilled(id, r, p, i);
      RuleMeans(p.signals[i], r.receipts[i]);
    }
  }

  /** No dispatch on partial, failing or stale evidence, in any run. */
  lemma DispatchedOnFullEvidence(states: seq<System>, events: seq<Event>, i: nat, id: Digest)
    requires Behaviour(states, events) && i < |states| && id in states[i].exec.requests && Complete(states[i].exec.requests[id].status)
    ensures FullEvidence(states[i].exec, id, states[i].exec.requests[id])
  {
    hide NetOk, AskedWithin, AskedKnown, Inv, FullEvidence, SignalsFit, StageOk, EvidenceOk, Behaviour;
    AlwaysOk(states, events, i);
    RecordOf(states[i].exec, id);
    PlansFit(states, events, i, states[i].exec.requests[id].plan);
    RecordEvidence(states[i].exec, id, states[i].exec.requests[id]);
  }

  /** Every receipt of the request judged the evidence its operation holds now. */
  ghost predicate JudgedNow(s: Exec, id: Digest) {
    && id in s.requests && s.requests[id].operation in s.operations
    && var r, o := s.requests[id], s.operations[s.requests[id].operation];
       forall k | 0 <= k < |r.receipts| :: r.receipts[k].stamp.stateHash == StateHash(o.evidence)
  }

  /** At the moment of dispatch the snapshot still describes the operation, so the evidence judged is current. */
  lemma DispatchIsCurrent(states: seq<System>, events: seq<Event>, i: nat, caller: Principal, id: Digest, now: U64)
    requires Behaviour(states, events) && i < |states|
    ensures Authorize(states[i].exec, caller, id, now).Ok? ==> JudgedNow(states[i].exec, id)
  {
    var s := states[i].exec;
    if Authorize(s, caller, id, now).Ok? {
      AuthorizedMeans(s, caller, id, now);
      DispatchedOnFullEvidence(states, events, i, id);
      hide Authorize;
      var r := s.requests[id];
      CurrentSnapshot(s, r, now);
      hide Current, CommitsTo, CheckRule, ReceiptBound, SlotId;
      var o := s.operations[r.operation];
      forall k | 0 <= k < |r.receipts| ensures r.receipts[k].stamp.stateHash == StateHash(o.evidence) {
        assert SawEvidence(r.snapshot, r.receipts[k].stamp.stateHash);
        var e :| CommitsTo(r.snapshot, e) && r.receipts[k].stamp.stateHash == StateHash(e);
        CommitsToOne(r.snapshot, e, o.evidence);
      }
    }
  }

  lemma AskedTwice(s: System, d: Digest)
    requires Inv(s.exec) && AskedWithin(s) && AskedKnown(s)
    ensures s.asked[d] <= 2
  {
    hide Inv, SlotId;
    if d in s.asked {
      var id, k: U64 :| id in s.exec.requests && d == SlotId(id, k, s.exec.requests[id].snapshot);
      PendingSends(s.exec, id);
      assert s.asked[d] <= Allowance(s.exec.requests[id], k);
    } else {
      assert s.asked[d] == 0;
    }
  }

  /** No slot's question goes to the engine more than twice, in any run. */
  lemma AtMostTwoSendsPerSlot(states: seq<System>, events: seq<Event>, i: nat, d: Digest)
    requires Behaviour(states, events) && i < |states|
    ensures states[i].asked[d] <= 2
  {
    AlwaysOk(states, events, i);
    hide Inv, NetOk, AskedWithin, AskedKnown;
    AskedTwice(states[i], d);
  }
}
