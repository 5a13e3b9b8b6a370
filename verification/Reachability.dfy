/**
 The safety theorems speak of states that exist: from a new system, every configuration the executor
 registers, and whose evidence passes, has a behaviour in which its transfer is paid.
 */
module Reachability {
  import opened Arithmetic
  import opened Wrappers
  import opened Numbers
  import opened Canonical
  import opened Types
  import opened Icrc
  import opened Workflow
  import opened Protocol
  import ML = MockLedger
  import Decimal
  import SchemaCompiler
  import opened Rules
  import Math

  // ----- paths ----------------------------------------------------------------------------------

  ghost predicate Path(states: seq<System>, events: seq<Event>) {
    |states| == |events| + 1 && forall i: nat | i < |events| :: Moves(states[i], events[i], states[i + 1])
  }

  ghost predicate Moves(s: System, e: Event, t: System) {
    Windowed(s.exec) && t == Next(s, e)
  }

  ghost predicate Reaches(s: System, t: System) {
    exists states, events :: Path(states, events) && states[0] == s && states[|events|] == t
  }

  lemma OneStep(s: System, e: Event, t: System)
    requires Moves(s, e, t)
    ensures Reaches(s, t)
  {
    hide Moves;
    var states := [s, t];
    assert Moves(states[0], e, states[1]);
    assert Path(states, [e]);
  }

  lemma LocalStep(s: System, l: LocalEvent, exec: Exec)
    requires Windowed(s.exec) && LocalNext(s.exec, l) == exec
    ensures Reaches(s, s.(exec := exec))
  {
    hide Windowed, LocalNext, Reaches, AskNext, DispatchNext, RetryNext, DeliverNext, ResolveNext, AnswerNext, ReturnNext,
         ReconcileCommand, RegisterMockLedger;
    OneStep(s, Local(l), s.(exec := exec));
  }

  lemma Chain(s: System, t: System, u: System)
    requires Reaches(s, t) && Reaches(t, u)
    ensures Reaches(s, u)
  {
    hide Moves;
    var a, e :| Path(a, e) && a[0] == s && a[|e|] == t;
    var b, f :| Path(b, f) && b[0] == t && b[|f|] == u;
    var states, events := a[..|e|] + b, e + f;
    forall i: nat | i < |events| ensures Moves(states[i], events[i], states[i + 1]) {
      if i < |e| {
        assert Moves(a[i], e[i], a[i + 1]);
      } else {
        assert Moves(b[i - |e|], f[i - |e|], b[i - |e| + 1]);
      }
    }
    assert Path(states, events);
  }

  // ----- configurations ---------------------------------------------------------------------------

  /** One plan, operation and grant, and what the engine answers for each signal, all at one time. */
  datatype Setting = Setting(
    instance: Principal, owner: Principal, plan: Plan, op: Operation, grant: Grant,
    outcomes: seq<(EvaluationOutcome, Option<Diagnostics>)>, now: U64)
  {
    function Ledger(): Principal {
      op.proposal.ledger
    }

    function Caller(): Principal {
      grant.delegate
    }

    function Id(): Digest {
      RequestId(instance, Caller(), 0)
    }

    function Token(): Digest {
      Snapshot(op, grant, plan)
    }

    /** The record as submitted. */
    function First(): RequestRecord {
      NewRecord(New(instance, owner), Caller(), 0, op, grant, plan, now)
    }

    /** One answer per signal, and as many signals as a plan may have. */
    predicate Shaped() {
      1 <= |plan.signals| == |outcomes| <= MAX_SLOTS
    }

    /** What the executor asks the engine for signal `i`. */
    function Question(i: nat): DecisionRequest
      requires Shaped() && i < |plan.signals|
    {
      DecisionRequest(
        SlotId(Id(), i, Token()), plan.signals[i].schema.schemaHash, plan.model, Some(plan.signals[i].calibration),
        Some(Binding(Id(), i, 0, Token())), op.evidence, First().expiresAt)
    }

    /** The engine's answer. */
    function Answer(i: nat): Receipt
      requires Shaped() && i < |plan.signals|
    {
      Receipt(ExpectedStamp(plan.signals[i], Question(i), Checkpoint), outcomes[i].0, outcomes[i].1, 1, 0)
    }

    function Answers(k: nat): (r: seq<Receipt>)
      requires Shaped() && k <= |plan.signals|
      ensures |r| == k
    {
      seq(k, i requires 0 <= i < k => Answer(i))
    }

    /** The executor allows the payment, and the evidence passes every rule. */
    ghost predicate Allowed(): (ok: bool)
      ensures ok ==> Shaped() && grant.windowNs > 0
    {
      && instance != ANONYMOUS && owner != ANONYMOUS
      && ValidatePlan(plan).Ok?
      && op.id != ZeroDigest() && op.revision != 0 && op.evidence != [] && |op.evidence| <= MAX_STATE_BYTES && op.status == Available
      && GrantFieldsOk(grant) && (forall i | 0 <= i < |grant.recipients| :: grant.recipients[i].Validate().Ok?)
      && grant.plan == plan.id && Eligible(grant, Caller(), op.proposal, now).Ok? && now + TTL_NS < TWO_64
      && Shaped() && forall i: nat | i < |plan.signals| :: Passes(i)
    }

    ghost predicate Passes(i: nat)
      requires Shaped() && i < |plan.signals|
    {
      RuleMet(plan.signals[i], Answer(i))
    }

    /** The ledger would take it, and the budgets have room. */
    predicate Affordable(): (ok: bool)
      ensures ok ==> op.proposal.amount + op.proposal.fee < TWO_128
    {
      && op.proposal.fee == ML.FEE && op.proposal.amount + op.proposal.fee <= ML.INITIAL_BALANCE
      && op.proposal.amount + op.proposal.fee <= grant.totalCap && op.proposal.amount + op.proposal.fee <= grant.windowCap
    }

    function Start(): System {
      System(New(instance, owner), map[Ledger() := ML.Genesis(Ledger(), owner)], [], [], multiset{})
    }

    /** Everything registered, no request yet. */
    function Registered(): Exec {
      Exec(instance, owner, Mock, false, map[plan.id := plan], map[op.id := op], map[grant.id := grant], map[], map[], [Ledger()])
    }

    /** Everything registered and the one request in this state. */
    function With(r: RequestRecord): Exec {
      Registered().(requests := map[Id() := r], nextNonce := map[Caller() := 1])
    }

    /** The system before anything was sent, with the request in this state. */
    function At(r: RequestRecord, asked: multiset<Digest>): System {
      Start().(exec := With(r), asked := asked)
    }

    /** The request after `k` answers. */
    function After(k: nat): RequestRecord
      requires Shaped() && k <= |plan.signals|
    {
      First().(receipts := Answers(k), status := if k == |plan.signals| then ReadyToDispatch else Received)
    }
  }

  // ----- registration -------------------------------------------------------------------------------

  lemma EligibleValid(g: Grant, caller: Principal, p: TransferProposal, now: U64)
    requires Eligible(g, caller, p, now).Ok?
    ensures p.Validate().Ok? && now < g.expiresAt && p.Charge().Ok? && g.ledger == p.ledger
  {
  }

  lemma Installs(c: Setting)
    requires c.Allowed()
    ensures var s := New(c.instance, c.owner);
      var s1 := s.(plans := map[c.plan.id := c.plan]);
      var s2 := s1.(operations := map[c.op.id := c.op]);
      var s3 := s2.(grants := map[c.grant.id := c.grant]);
      && LocalNext(s, EvInstallPlan(c.owner, c.plan)) == s1
      && LocalNext(s1, EvInstallOperation(c.owner, c.op)) == s2
      && LocalNext(s2, EvInstallGrant(c.owner, c.grant)) == s3
      && LocalNext(s3, EvSetMode(c.owner, Mock)) == s3.(mode := Mock)
      && RegisterMockLedger(s3.(mode := Mock), c.owner, c.Ledger()).state == c.Registered()
  {
    hide ValidatePlan, Eligible, Setting.Passes;
    EligibleValid(c.grant, c.Caller(), c.op.proposal, c.now);
    assert [] + [c.Ledger()] == [c.Ledger()];
  }

  lemma Submits(c: Setting)
    requires c.Allowed()
    ensures LocalNext(c.Registered(), EvSubmit(c.Caller(), 0, c.op.id, c.grant.id, c.now)) == c.With(c.After(0))
  {
    hide ValidatePlan, Eligible, Setting.Passes, RequestId, Snapshot;
    EligibleValid(c.grant, c.Caller(), c.op.proposal, c.now);
    assert c.Answers(0) == [];
  }

  /** From nothing to the request on record. */
  lemma SetUp(c: Setting)
    requires c.Allowed()
    ensures Reaches(c.Start(), c.At(c.After(0), multiset{}))
  {
    hide Reaches, Setting.With, Setting.After, Setting.Allowed, LocalNext, AskNext, DispatchNext, RetryNext, DeliverNext, ResolveNext,
         AnswerNext, ReturnNext, ReconcileCommand, ML.Genesis, RegisterMockLedger;
    Installs(c);
    Submits(c);
    var s0 := c.Start();
    var s1 := s0.(exec := s0.exec.(plans := map[c.plan.id := c.plan]));
    var s2 := s1.(exec := s1.exec.(operations := map[c.op.id := c.op]));
    var s3 := s2.(exec := s2.exec.(grants := map[c.grant.id := c.grant]));
    var s4 := s3.(exec := s3.exec.(mode := Mock));
    var s5 := s0.(exec := c.Registered());
    LocalStep(s0, EvInstallPlan(c.owner, c.plan), s1.exec);
    LocalStep(s1, EvInstallOperation(c.owner, c.op), s2.exec);
    LocalStep(s2, EvInstallGrant(c.owner, c.grant), s3.exec);
    LocalStep(s3, EvSetMode(c.owner, Mock), s4.exec);
    OneStep(s4, RegisterLedger(c.owner, c.Ledger()), s5);
    LocalStep(s5, EvSubmit(c.Caller(), 0, c.op.id, c.grant.id, c.now), c.With(c.After(0)));
    Chain(s0, s1, s2);
    Chain(s0, s2, s3);
    Chain(s0, s3, s4);
    Chain(s0, s4, s5);
    Chain(s0, s5, c.At(c.After(0), multiset{}));
  }

  // ----- evaluation ---------------------------------------------------------------------------------

  /** The request stays current: nothing was revised, revoked or expired. */
  lemma StaysCurrent(c: Setting, r: RequestRecord)
    requires c.Allowed() && r.caller == c.Caller() && r.operation == c.op.id && r.grant == c.grant.id && r.plan == c.plan.id
    requires r.operationRevision == c.op.revision && r.grantRevision == c.grant.revision
    requires r.snapshot == c.Token() && r.expiresAt == c.First().expiresAt
    ensures Current(c.With(r), r, c.now) == Ok(()) && Owned(c.With(r), c.Caller(), c.Id()) == Ok(r) && c.now < r.expiresAt
  {
    hide ValidatePlan, Eligible, Setting.Passes, RequestId, Snapshot;
    EligibleValid(c.grant, c.Caller(), c.op.proposal, c.now);
  }

  lemma AskedFor(c: Setting, k: nat)
    requires c.Allowed() && k < |c.plan.signals|
    ensures BeginEvaluation(c.With(c.After(k)), c.Caller(), c.Id(), c.now)
         == Step(c.With(Asked(c.After(k), c.Question(k))), Ok(c.Question(k)))
  {
    hide ValidatePlan, Eligible, Setting.Passes, RequestId, Snapshot, SlotId, Current, GrantFieldsOk;
    StaysCurrent(c, c.After(k));
  }

  lemma NotYetKnown(c: Setting, r: RequestRecord, k: nat, n: nat)
    requires c.Shaped() && n <= k < |c.plan.signals| && r.receipts == c.Answers(k)
    ensures KnownReceipt(r, c.Question(k).evaluationId, n) == None
    decreases k - n
  {
    hide SlotId;
    if n < k {
      if c.Answer(n).stamp.evaluationId == c.Question(k).evaluationId {
        SlotIdInjective(c.Id(), n, c.Token(), c.Id(), k, c.Token());
      }
      NotYetKnown(c, r, k, n + 1);
    }
  }

  lemma RulePasses(c: Setting, k: nat)
    requires c.Allowed() && k < |c.plan.signals|
    ensures CheckRule(c.plan.signals[k], c.Answer(k)) == Ok(true)
  {
    hide ValidatePlan, Eligible, GrantFieldsOk, RuleFits, CheckRule, RuleMet, Setting.Answer;
    ValidPlanFits(c.plan);
    assert c.Passes(k);
    RuleMeans(c.plan.signals[k], c.Answer(k));
  }

  lemma Answered(c: Setting, k: nat)
    requires c.Allowed() && k < |c.plan.signals|
    ensures FinishEvaluation(c.With(Asked(c.After(k), c.Question(k))), c.Id(), c.Question(k).evaluationId, Ok(c.Answer(k)), c.now)
              .state == c.With(c.After(k + 1))
  {
    hide ValidatePlan, Eligible, RequestId, Snapshot, SlotId, Current, GrantFieldsOk, CheckRule, KnownReceipt;
    StaysCurrent(c, Asked(c.After(k), c.Question(k)));
    NotYetKnown(c, Asked(c.After(k), c.Question(k)), k, 0);
    RulePasses(c, k);
    assert c.Answers(k) + [c.Answer(k)] == c.Answers(k + 1);
  }

  /** One question and its answer. */
  lemma OneSlot(c: Setting, asked: multiset<Digest>, k: nat) returns (more: multiset<Digest>)
    requires c.Allowed() && k < |c.plan.signals|
    ensures Reaches(c.At(c.After(k), asked), c.At(c.After(k + 1), more))
  {
    hide Reaches, Setting.Allowed, Setting.After, Setting.Question, Setting.Answer, BeginEvaluation, FinishEvaluation, LocalNext,
         DispatchNext, RetryNext, DeliverNext, ResolveNext, AnswerNext, ReturnNext, ReconcileCommand, RegisterMockLedger, Asked,
         ML.Genesis, GrantFieldsOk;
    AskedFor(c, k);
    var r := Asked(c.After(k), c.Question(k));
    more := asked + multiset{c.Question(k).evaluationId};
    OneStep(c.At(c.After(k), asked), BeginEval(c.Caller(), c.Id(), c.now), c.At(r, more));
    Answered(c, k);
    Finishes(c.With(r), c.Id(), c.Question(k).evaluationId, Ok(c.Answer(k)), c.now);
    LocalStep(c.At(r, more), EvFinishEvaluation(c.Id(), c.Question(k).evaluationId, Ok(c.Answer(k)), c.now), c.With(c.After(k + 1)));
    Chain(c.At(c.After(k), asked), c.At(r, more), c.At(c.After(k + 1), more));
  }

  lemma Finishes(s: Exec, id: Digest, evalId: Digest, result: Fallible<Receipt>, now: U64)
    ensures LocalNext(s, EvFinishEvaluation(id, evalId, result, now)) == FinishEvaluation(s, id, evalId, result, now).state
  {
    hide FinishEvaluation;
  }

  /** Slot after slot, until the request is ready. */
  lemma {:induction false} AnswerAll(c: Setting, k: nat) returns (asked: multiset<Digest>)
    requires c.Allowed() && k <= |c.plan.signals|
    ensures Reaches(c.At(c.After(0), multiset{}), c.At(c.After(k), asked))
  {
    hide Moves, Setting.Allowed, Setting.At, Setting.After;
    var s := c.At(c.After(0), multiset{});
    if k == 0 {
      asked := multiset{};
      assert Path([s], []);
    } else {
      hide Reaches;
      var before := AnswerAll(c, k - 1);
      asked := OneSlot(c, before, k - 1);
      Chain(s, c.At(c.After(k - 1), before), c.At(c.After(k), asked));
    }
  }

  // ----- dispatch and payment -------------------------------------------------------------------------

  lemma {:induction false} AllBound(c: Setting, i: nat)
    requires c.Allowed() && i <= |c.plan.signals|
    ensures CheckReceipts(c.plan, c.Id(), c.After(|c.plan.signals|), i) == Ok(())
    decreases |c.plan.signals| - i
  {
    hide ValidatePlan, Eligible, RequestId, Snapshot, SlotId, GrantFieldsOk, CheckRule;
    if i < |c.plan.signals| {
      AllBound(c, i + 1);
      RulePasses(c, i);
    }
  }

  /** What is sent, and the executor while its answer is awaited. */
  function Command(c: Setting): DispatchCommand {
    DispatchCommand(c.Id(), 1, FrozenTransfer(c.op.proposal, c.Id(), c.now))
  }

  function ChargeOf(c: Setting): nat {
    c.op.proposal.amount + c.op.proposal.fee
  }

  function Held(c: Setting): Exec
    requires c.Shaped() && c.grant.windowNs > 0 && ChargeOf(c) < TWO_128
  {
    var epoch := Epoch(c.now, c.grant.windowNs);
    var grant := c.grant.(total := Usage(0, ChargeOf(c)), windows := map[epoch := Usage(0, ChargeOf(c))]);
    var r := c.After(|c.plan.signals|);
    Commit(c.With(r), r, c.op, grant, ChargeOf(c), epoch, c.now)
  }

  lemma Authorized(c: Setting)
    requires c.Allowed()
    ensures Authorize(c.With(c.After(|c.plan.signals|)), c.Caller(), c.Id(), c.now) == Ok(AuthorizedTransfer(c.Id(), c.Token()))
  {
    hide ValidatePlan, Eligible, Setting.Passes, RequestId, Snapshot, SlotId, GrantFieldsOk, Current, CheckReceipts;
    StaysCurrent(c, c.After(|c.plan.signals|));
    AllBound(c, 0);
  }

  lemma Fits(c: Setting)
    requires c.Allowed() && c.Affordable()
    ensures var s, r := c.With(c.After(|c.plan.signals|)), c.After(|c.plan.signals|);
      && Windowed(s) && ChargeOf(c) < TWO_128
      && var epoch := Epoch(c.now, c.grant.windowNs);
         Budgeted(s, r, c.now)
         == Ok((c.grant.(total := Usage(0, ChargeOf(c)), windows := map[epoch := Usage(0, ChargeOf(c))]), ChargeOf(c), epoch))
  {
    hide ValidatePlan, Eligible, Setting.Passes, RequestId, Snapshot, Epoch, Setting.Answers;
  }

  lemma Prepared(c: Setting)
    requires c.Allowed() && c.Affordable()
    ensures Windowed(c.With(c.After(|c.plan.signals|))) && ChargeOf(c) < TWO_128
    ensures PrepareDispatch(c.With(c.After(|c.plan.signals|)), AuthorizedTransfer(c.Id(), c.Token()), c.now)
         == Step(Held(c), Ok(Command(c)))
  {
    hide RequestId, Snapshot, Authorize, Budgeted, Epoch, Commit, Setting.Answers, Setting.Allowed, Setting.Affordable, Windowed;
    Authorized(c);
    Fits(c);
  }

  /** An untouched ledger takes the transfer as its block 0. */
  lemma Lands(c: Setting)
    requires c.Allowed() && c.Affordable()
    ensures ML.Transfer(ML.Genesis(c.Ledger(), c.owner), c.instance, ToIcrc(Command(c).transfer), c.now).1 == ML.Landed(0)
  {
    hide ValidatePlan, Setting.Passes, RequestId, GrantFieldsOk, FrozenDigest, FromIcrc, ToIcrc;
    WireRoundTrip(Command(c).transfer);
    EligibleValid(c.grant, c.Caller(), c.op.proposal, c.now);
  }

  lemma Paid(c: Setting)
    requires c.Allowed() && c.Affordable()
    ensures Windowed(Held(c)) && Held(c).instance == c.instance
    ensures var e := FinishLedger(Held(c), Command(c), Success(Decimal.Show(0))).state;
      c.Id() in e.requests && e.requests[c.Id()].status == Succeeded(Decimal.Show(0))
  {
    hide Setting.Allowed, Setting.Affordable, Epoch, RequestId, Snapshot, Setting.Answers;
    assert BlockIndex(Decimal.Show(0));
  }

  /** Sent, delivered, answered. */
  lemma Pays(c: Setting, asked: multiset<Digest>) returns (t: System)
    requires c.Allowed() && c.Affordable()
    ensures Reaches(c.At(c.After(|c.plan.signals|), asked), t)
    ensures c.Id() in t.exec.requests && t.exec.requests[c.Id()].status == Succeeded(Decimal.Show(0))
  {
    hide Reaches, Setting.Allowed, Setting.Affordable, Setting.With, Setting.After, Windowed, Held, ToIcrc, Decimal.Show, Setting.Id,
         Authorize, PrepareDispatch, FinishLedger, ML.Transfer, ML.Genesis, LocalNext, AskNext, RetryNext, AnswerNext, ReturnNext,
         ReconcileCommand, ML.SetFault, RegisterMockLedger;
    Authorized(c);
    Prepared(c);
    Lands(c);
    Paid(c);
    var s := c.At(c.After(|c.plan.signals|), asked);
    var sent, landed := Call(Command(c), InFlight, true), Call(Command(c), Executed(ML.Landed(0)), true);
    assert [] + [sent] == [sent] && [sent][0 := landed] == [landed];
    var u := s.(exec := Held(c), calls := [sent]);
    OneStep(s, Dispatch(c.Caller(), c.Id(), c.now), u);
    var v := Next(u, Deliver(0, c.now));
    OneStep(u, Deliver(0, c.now), v);
    t := Next(v, Callback(0));
    OneStep(v, Callback(0), t);
    Chain(s, u, v);
    Chain(s, v, t);
  }

  // ----- the result -------------------------------------------------------------------------------------

  lemma StartInitial(c: Setting)
    ensures Initial(c.Start())
  {
    ML.GenesisOk(c.Ledger(), c.owner);
    assert c.Start().exec == New(c.instance, c.owner);
    hide ML.LedgerOk;
  }

  /** Whatever is allowed and affordable can be paid. */
  lemma AllowedCanBePaid(c: Setting)
    requires c.Allowed() && c.Affordable()
    ensures exists states: seq<System>, events: seq<Event> ::
      && Behaviour(states, events) && states[0] == c.Start()
      && c.Id() in states[|events|].exec.requests
      && states[|events|].exec.requests[c.Id()].status == Succeeded(Decimal.Show(0))
  {
    hide Next, Windowed, Decimal.Show, Setting.With, Setting.After, Setting.Id, Setting.Allowed, Setting.At, Initial, ML.Genesis;
    StartInitial(c);
    SetUp(c);
    var asked := AnswerAll(c, |c.plan.signals|);
    var end := Pays(c, asked);
    var s0, s1, s2 := c.Start(), c.At(c.After(0), multiset{}), c.At(c.After(|c.plan.signals|), asked);
    Chain(s0, s1, s2);
    Chain(s0, s2, end);
    var states, events :| Path(states, events) && states[0] == s0 && states[|events|] == end;
    forall i: nat | i < |events| ensures Follows(states, events, i) {
      assert Moves(states[i], events[i], states[i + 1]);
    }
  }

  // ----- one such configuration -----------------------------------------------------------------------------

  function Ones(): Digest {
    Raw(seq(32, _ => 1))
  }

  /** A yes/no question and its prefix: cls, mask, a word, mask, sep. */
  function SomeSchema(): Schema {
    Schema([97], 1, Noul, [97], [OptionDef(Ascii("false"), [97]), OptionDef(Ascii("true"), [97])])
  }

  function SomeCompiled(): CompiledSchema {
    CompiledSchema(SomeSchema(), SchemaDigest(SomeSchema(), Ones()), Ones(), [1, 3, 7, 3, 2], [1, 3], SpecialTokens(1, 2, 3, 0, []), 0)
  }

  function SomePlan(): Plan {
    Plan(Ones(), 1, Ones(), [RequiredSignal(SomeCompiled(), Ones(), NoulTrue(500_000))])
  }

  function SomeOperation(): Operation {
    Operation(Ones(), 1, [97], TransferProposal([1], Sub0(), Account([2], Sub0()), 1, 10), Available)
  }

  function Sub0(): Bytes32 {
    seq(32, _ => 0)
  }

  function SomeGrant(): Grant {
    Grant(Ones(), 1, [3], Ones(), [1], Sub0(), [Account([2], Sub0())], 1, 10, 11, 11, 1, 1, false, Usage(0, 0), map[])
  }

  function SomeSetting(): Setting {
    Setting([5], [6], SomePlan(), SomeOperation(), SomeGrant(), [(Assessed(NoulValue(0, PPM)), Some(Math.Diagnose(Sure())))], 0)
  }

  lemma TwoMasses(p: nat, q: nat)
    ensures Sum([p, q]) == p + q
  {
    assert [p, q][1..] == [q] && [q][1..] == [];
    assert Sum([q]) == q;
  }

  function Sure(): (d: seq<U32>)
    ensures Math.IsDistribution(d)
  {
    TwoMasses(0, PPM);
    [0, PPM]
  }

  lemma SomeSchemaValid()
    ensures SchemaCompiler.ValidateSchema(SomeSchema()).Ok?
  {
    var s := SomeSchema();
    assert SchemaCompiler.IdentifierByte(97);
    assert s.id[0] == s.instructions[0] == s.options[0].text[0] == s.options[1].text[0] == 97;
    assert !SchemaCompiler.Blank(s.instructions) && !SchemaCompiler.Blank(s.options[0].text);
    assert SchemaCompiler.Identifier(Ascii("false")) && SchemaCompiler.Identifier(Ascii("true"));
    assert Ascii("false")[0] != Ascii("true")[0];
  }

  lemma SomeCompiledValid()
    ensures SchemaCompiler.ValidateCompiled(SomeCompiled()).Ok?
  {
    hide SchemaDigest, SomeSchema, SchemaCompiler.ValidateSchema, SchemaCompiler.Count;
    SomeSchemaValid();
    CountTwo();
    SomeOptions();
  }

  lemma SomeOptions()
    ensures |SomeSchema().options| == 2
  {
  }

  lemma CountTwo()
    ensures SchemaCompiler.Count([1, 3, 7, 3, 2], 3) == 2
  {
  }

  /** All mass on "true" passes the rule, and cannot be tied. */
  lemma SomePasses()
    ensures SomeSetting().Shaped() && SomeSetting().Passes(0)
  {
    hide Setting.Question, Setting.Id, Setting.Token, SchemaDigest, Math.Diagnose, Diagnosed;
    DiagnoseMeans(Math.Diagnose(Sure()), Sure());
    assert Encodes(SomeSchema(), NoulValue(0, PPM), Sure());
  }

  lemma SomeAllowed()
    ensures SomeSetting().Allowed() && SomeSetting().Affordable()
  {
    hide Setting.Passes, SchemaCompiler.ValidateCompiled, SomeCompiled;
    SomePasses();
    SomeCompiledValid();
    assert Ones().bytes[0] != ZeroDigest().bytes[0];
    SomeRule();
    assert SomePlan().signals[1..] == [];
  }

  lemma SomeRule()
    ensures RuleFits(SomePlan().signals[0])
  {
  }

  /** There are behaviours that end in a payment. */
  lemma PaymentExists()
    ensures exists states: seq<System>, events: seq<Event>, id: Digest ::
      && Behaviour(states, events) && id in states[|events|].exec.requests
      && states[|events|].exec.requests[id].status.Succeeded?
  {
    hide SomeSetting, Setting.Allowed, Setting.Affordable, Initial, Follows, Setting.Id, Setting.Start;
    SomeAllowed();
    AllowedCanBePaid(SomeSetting());
    var states: seq<System>, events: seq<Event> :|
      && Behaviour(states, events) && states[0] == SomeSetting().Start()
      && SomeSetting().Id() in states[|events|].exec.requests
      && states[|events|].exec.requests[SomeSetting().Id()].status == Succeeded(Decimal.Show(0));
  }
}
