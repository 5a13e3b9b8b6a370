/**
 Executor, network and ledgers as one state machine (canisters/executor/src/lib.rs,
 canisters/mock-ledger/src/lib.rs). An endpoint is split at each `await`; whatever happens
 between two awaits is one step. Clocks, callers, engine answers and delivery are adversarial.
 */
module Protocol {
  import opened Wrappers
  import opened Numbers
  import opened Canonical
  import opened Types
  import opened Icrc
  import opened Workflow
  import ML = MockLedger
  import Decimal

  /** The call's message to the ledger: on its way, executed there, or dropped. */
  datatype Message = InFlight | Executed(reply: ML.Reply) | Lost

  /** One `icrc1_transfer` send; `awaited` while its callback has not run. */
  datatype Call = Call(command: DispatchCommand, message: Message, awaited: bool)

  /** One `ic_laya_lookup` send and, once executed, its answer. */
  datatype Probe = Probe(command: DispatchCommand, answer: Option<Option<ML.Lookup>>, awaited: bool)

  /** `asked` counts the evaluation identifiers sent to the engine: history only. */
  datatype System = System(
    exec: Exec, ledgers: map<Principal, ML.Ledger>, calls: seq<Call>, probes: seq<Probe>, asked: multiset<Digest>)

  /** Entry points that neither send to a ledger nor hear from one. */
  datatype LocalEvent =
    | EvSetMode(caller: Principal, mode: Mode)
    | EvSetPaused(caller: Principal, pause: bool)
    | EvInstallPlan(caller: Principal, plan: Plan)
    | EvInstallOperation(caller: Principal, op: Operation)
    | EvReviseOperation(caller: Principal, id: Digest, evidence: Blob)
    | EvInstallGrant(caller: Principal, grant: Grant)
    | EvRevoke(caller: Principal, id: Digest)
    | EvSubmit(caller: Principal, nonce: U64, operation: Digest, grantId: Digest, now: U64)
    | EvCancel(caller: Principal, id: Digest)
    | EvTransportFailed(id: Digest, evalId: Digest)
    | EvFinishEvaluation(id: Digest, evalId: Digest, result: Fallible<Receipt>, now: U64)
    | EvUpgrade

  datatype Event =
    | Local(event: LocalEvent)
    | RegisterLedger(caller: Principal, ledger: Principal)
    | BeginEval(caller: Principal, id: Digest, now: U64)
    | Dispatch(caller: Principal, id: Digest, now: U64)
    | Retry(caller: Principal, id: Digest, now: U64)
    | Deliver(call: nat, now: U64)
    | DropMessage(call: nat)
    | Callback(call: nat)
    | Timeout(call: nat, text: string)
    | LoseCallback(call: nat)
    | StartProbe(caller: Principal, id: Digest)
    | AnswerProbe(probe: nat)
    | ReturnProbe(probe: nat)
    | LedgerFault(ledger: Principal, caller: Principal, fault: ML.Fault)
    | ForeignTransfer(ledger: Principal, caller: Principal, arg: TransferArg, now: U64)

  function LocalNext(s: Exec, e: LocalEvent): Exec {
    match e
    case EvSetMode(c, m) => SetMode(s, c, m).state
    case EvSetPaused(c, p) => SetPaused(s, c, p).state
    case EvInstallPlan(c, p) => InstallPlan(s, c, p).state
    case EvInstallOperation(c, o) => InstallOperation(s, c, o).state
    case EvReviseOperation(c, id, e) => ReviseOperation(s, c, id, e).state
    case EvInstallGrant(c, g) => InstallGrant(s, c, g).state
    case EvRevoke(c, id) => Revoke(s, c, id).state
    case EvSubmit(c, n, o, g, now) => Submit(s, c, n, o, g, now).state
    case EvCancel(c, id) => Cancel(s, c, id).state
    case EvTransportFailed(id, e) => EngineTransportFailed(s, id, e).state
    case EvFinishEvaluation(id, e, r, now) => FinishEvaluation(s, id, e, r, now).state
    case EvUpgrade => RecoverAfterUpgrade(s)
  }

  /** How `send` reads a reply; a silent ledger gives no reply to read. */
  function OutcomeOf(reply: ML.Reply): LedgerOutcome
    requires !reply.Silent?
  {
    match reply
    case Landed(n) => Success(Decimal.Show(n))
    case Refused(Duplicate(n)) => AlreadyDone(Decimal.Show(n))
    case Refused(_) => DefinitiveError("ledger error")
  }

  /** How `reconcile_mock` reads a lookup: nothing to do when another payload was found. */
  function ProbeOutcome(cmd: DispatchCommand, answer: Option<ML.Lookup>): Option<LedgerOutcome> {
    match answer
    case None => Some(Unknown("not found is not proof of non-execution"))
    case Some(found) => if found.frozenHash == FrozenDigest(cmd.transfer) then Some(Success(found.blockIndex)) else None
  }

  function AskNext(s: System, c: Principal, id: Digest, now: U64): System {
    var step := BeginEvaluation(s.exec, c, id, now);
    s.(exec := step.state,
       asked := if step.result.Ok? then s.asked + multiset{step.result.value.evaluationId} else s.asked)
  }

  function DispatchNext(s: System, caller: Principal, id: Digest, now: U64): System
    requires Windowed(s.exec)
  {
    match Authorize(s.exec, caller, id, now)
    case Err(_) => s
    case Ok(a) =>
      var step := PrepareDispatch(s.exec, a, now);
      match step.result
      case Err(_) => s.(exec := step.state)
      case Ok(cmd) => s.(exec := step.state, calls := s.calls + [Call(cmd, InFlight, true)])
  }

  function RetryNext(s: System, caller: Principal, id: Digest, now: U64): System {
    var step := RetryUnknown(s.exec, caller, id, now);
    match step.result
    case Err(_) => s
    case Ok(cmd) => s.(exec := step.state, calls := s.calls + [Call(cmd, InFlight, true)])
  }

  function DeliverNext(s: System, i: nat, now: U64): System
    requires i < |s.calls|
  {
    var c := s.calls[i];
    var p := c.command.transfer.proposal.ledger;
    if c.message != InFlight || p !in s.ledgers then s else
    var (l, reply) := ML.Transfer(s.ledgers[p], s.exec.instance, ToIcrc(c.command.transfer), now);
    s.(ledgers := s.ledgers[p := l], calls := s.calls[i := c.(message := Executed(reply))])
  }

  /** The callback runs `finish_ledger` once, with whatever the transport gave it. */
  function ResolveNext(s: System, i: nat, outcome: LedgerOutcome): System
    requires i < |s.calls|
  {
    var c := s.calls[i];
    s.(exec := FinishLedger(s.exec, c.command, outcome).state, calls := s.calls[i := c.(awaited := false)])
  }

  function AnswerNext(s: System, i: nat): System
    requires i < |s.probes|
  {
    var b := s.probes[i];
    var p := b.command.transfer.proposal.ledger;
    if b.answer.Some? || p !in s.ledgers then s else
    s.(probes := s.probes[i := b.(answer := Some(ML.Find(s.ledgers[p], s.exec.instance, ToIcrc(b.command.transfer))))])
  }

  function ReturnNext(s: System, i: nat): System
    requires i < |s.probes|
  {
    var b := s.probes[i];
    if !b.awaited || b.answer.None? then s else
    var done := s.(probes := s.probes[i := b.(awaited := false)]);
    match ProbeOutcome(b.command, b.answer.value)
    case None => done
    case Some(outcome) => done.(exec := FinishLedger(s.exec, b.command, outcome).state)
  }

  /** A step whose event is not enabled leaves the system alone. */
  function Next(s: System, e: Event): System
    requires Windowed(s.exec)
  {
    match e
    case Local(l) => s.(exec := LocalNext(s.exec, l))
    case RegisterLedger(c, p) => if p in s.ledgers then s.(exec := RegisterMockLedger(s.exec, c, p).state) else s
    case BeginEval(c, id, now) => AskNext(s, c, id, now)
    case Dispatch(c, id, now) => DispatchNext(s, c, id, now)
    case Retry(c, id, now) => RetryNext(s, c, id, now)
    case Deliver(i, now) => if i < |s.calls| then DeliverNext(s, i, now) else s
    case DropMessage(i) =>
      if i < |s.calls| && s.calls[i].message == InFlight then s.(calls := s.calls[i := s.calls[i].(message := Lost)]) else s
    case Callback(i) =>
      if i < |s.calls| && s.calls[i].awaited && s.calls[i].message.Executed? && !s.calls[i].message.reply.Silent?
      then ResolveNext(s, i, OutcomeOf(s.calls[i].message.reply)) else s
    case Timeout(i, text) => if i < |s.calls| && s.calls[i].awaited then ResolveNext(s, i, Unknown(text)) else s
    case LoseCallback(i) => if i < |s.calls| then s.(calls := s.calls[i := s.calls[i].(awaited := false)]) else s
    case StartProbe(c, id) =>
      (match ReconcileCommand(s.exec, c, id)
       case Err(_) => s
       case Ok(cmd) => s.(probes := s.probes + [Probe(cmd, None, true)]))
    case AnswerProbe(i) => if i < |s.probes| then AnswerNext(s, i) else s
    case ReturnProbe(i) => if i < |s.probes| then ReturnNext(s, i) else s
    case LedgerFault(p, c, f) => if p in s.ledgers then s.(ledgers := s.ledgers[p := ML.SetFault(s.ledgers[p], c, f).0]) else s
    case ForeignTransfer(p, c, arg, now) =>
      if p in s.ledgers && c != s.exec.instance then s.(ledgers := s.ledgers[p := ML.Transfer(s.ledgers[p], c, arg, now).0]) else s
  }

  /** A new executor among ledgers it has never used. */
  ghost predicate Initial(s: System) {
    && (exists owner :: s.exec == New(s.exec.instance, owner))
    && (forall p | p in s.ledgers ::
          s.ledgers[p].self == p && ML.LedgerOk(s.ledgers[p])
          && forall i | 0 <= i < |s.ledgers[p].blocks| :: s.ledgers[p].blocks[i].caller != s.exec.instance)
    && s.calls == [] && s.probes == [] && s.asked == multiset{}
  }

  /** `Windowed` is the domain of `Next`; it is proved to hold in every state of every behaviour. */
  ghost predicate Follows(states: seq<System>, events: seq<Event>, i: nat)
    requires i < |events| && |states| == |events| + 1
  {
    Windowed(states[i].exec) ==> states[i + 1] == Next(states[i], events[i])
  }

  /** A behaviour: a new system and what follows from any sequence of events. */
  ghost predicate Behaviour(states: seq<System>, events: seq<Event>) {
    && |states| == |events| + 1 && Initial(states[0])
    && forall i: nat | i < |events| :: Follows(states, events, i)
  }
}
