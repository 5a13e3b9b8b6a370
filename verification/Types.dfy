/** Wire types and their digests (crates/ic-laya-core/src/types.rs). */
module Types {
  import opened Wrappers
  import opened Numbers
  import opened Canonical

  const PPM: nat := 1_000_000
  const MAX_TOKENS: nat := 128
  const MAX_PREFIX: nat := 64
  const MAX_STATE_BYTES: nat := 16 * 1024
  const MAX_SLOTS: nat := 3
  const PROFILE: Blob := Ascii("Compact128-v1")

  datatype Error =
    | Unauthorized | Invalid(what: string) | TooLong | NotFound | BindingMismatch | Expired | IdConflict | Capacity
    | ModelUnavailable(why: string) | Numeric | Uncalibrated | Busy | Transition | NonceConsumed | NonceGap
    | OperationUsed | Denied(policy: string) | Budget | Stale | ReportOnly | LiveDisabled | OutcomeUnknown | Storage

  type Fallible<+T> = Result<T, Error>

  /** At most 29 bytes; `aaaaa-aa` is empty and the anonymous principal is the byte 4. */
  type Principal = b: seq<U8> | |b| <= 29
  const ANONYMOUS: Principal := [4]
  const MANAGEMENT: Principal := []

  datatype Primitive = Choice | Noul | Score {
    function Tag(): U64 {
      match this case Choice => 0 case Noul => 1 case Score => 2
    }

    predicate CountValid(n: nat) {
      match this case Choice => 2 <= n <= 5 case Noul => n == 2 case Score => 3 <= n <= 7
    }
  }

  datatype OptionDef = OptionDef(id: Blob, text: Blob)
  datatype Schema = Schema(id: Blob, version: U64, primitive: Primitive, instructions: Blob, options: seq<OptionDef>)
  datatype SpecialTokens = SpecialTokens(cls: U32, sep: U32, mask: U32, pad: U32, literals: seq<Blob>)
  datatype CompiledSchema = CompiledSchema(
    schema: Schema, schemaHash: Digest, tokenizerHash: Digest,
    prefix: seq<U32>, markers: seq<U32>, special: SpecialTokens, qtypeId: U32)
  datatype TokenInput = TokenInput(inputIds: seq<U32>, markers: seq<U32>, qtypeId: U32)

  datatype Binding = Binding(workflow: Digest, slot: U8, attempt: U32, snapshot: Digest)
  datatype DecisionRequest = DecisionRequest(
    evaluationId: Digest, schemaHash: Digest, model: Digest, calibration: Option<Digest>,
    binding: Option<Binding>, state: Blob, expiresAt: U64)
  datatype BackendKind = Checkpoint | SyntheticFixture
  datatype Stamp = Stamp(
    evaluationId: Digest, schemaHash: Digest, tokenizerHash: Digest, model: Digest, calibration: Option<Digest>,
    binding: Option<Binding>, stateHash: Digest, profile: Blob, backend: BackendKind)
  datatype DecisionValue =
    | ChoiceValue(optionIds: seq<Blob>, massPpm: seq<U32>, selectedId: Blob)
    | NoulValue(falsePpm: U32, truePpm: U32)
    | ScoreValue(binIds: seq<Blob>, binMassPpm: seq<U32>, expectedLevelMicrounits: nat, meanPpm: nat)
  {
    function Masses(): seq<U32> {
      match this
      case ChoiceValue(_, m, _) => m
      case NoulValue(f, t) => [f, t]
      case ScoreValue(_, m, _, _) => m
    }
  }
  datatype Diagnostics = Diagnostics(top1Ppm: U32, marginPpm: U32, tied: bool)
  datatype EvaluationOutcome = Assessed(value: DecisionValue) | Abstained(why: string) | Failed(error: Error)
  datatype Receipt = Receipt(
    stamp: Stamp, outcome: EvaluationOutcome, diagnostics: Option<Diagnostics>,
    inputTokens: U32, measuredInstructions: U64)

  datatype Account = Account(owner: Principal, subaccount: Bytes32) {
    function Validate(): Fallible<()> {
      if owner == ANONYMOUS || owner == MANAGEMENT then Err(Invalid("recipient principal")) else Ok(())
    }
  }

  datatype TransferProposal = TransferProposal(
    ledger: Principal, fromSubaccount: Bytes32, to: Account, amount: U128, fee: U128)
  {
    function Charge(): Fallible<U128> {
      if amount + fee < TWO_128 then Ok(amount + fee) else Err(Budget)
    }

    function Validate(): Fallible<()> {
      var _ :- to.Validate();
      if amount == 0 || ledger == ANONYMOUS || ledger == MANAGEMENT then Err(Invalid("transfer proposal")) else
      var _ :- Charge();
      Ok(())
    }
  }

  // ----- digests -----------------------------------------------------------------------

  function StateHash(state: Blob): Digest {
    Hash(Octets(state))
  }

  function OptionItems(os: seq<OptionDef>): (r: seq<Item>)
    ensures |r| == 2 * |os| && forall i | 0 <= i < |r| :: r[i].Text?
  {
    if os == [] then [] else [Text(os[0].id), Text(os[0].text)] + OptionItems(os[1..])
  }

  function SchemaItems(s: Schema, tokenizer: Digest): seq<Item>
    requires |s.options| < TWO_64
  {
    [Text(s.id), Num64(s.version), Num64(s.primitive.Tag()), Text(s.instructions), Num64(|s.options|)]
    + OptionItems(s.options) + [Id(tokenizer), Text(PROFILE)]
  }

  function SchemaDigest(s: Schema, tokenizer: Digest): Digest
    requires |s.options| < TWO_64
  {
    Seal("ic-laya/schema/v1", SchemaItems(s, tokenizer))
  }

  function CalibrationItems(c: Option<Digest>): seq<Item> {
    match c case Some(x) => [Num64(1), Id(x)] case None => [Num64(0)]
  }

  function BindingItems(b: Option<Binding>): seq<Item> {
    match b
    case Some(x) => [Num64(1), Id(x.workflow), Num64(x.slot), Num64(x.attempt), Id(x.snapshot)]
    case None => [Num64(0)]
  }

  function RequestItems(r: DecisionRequest): seq<Item> {
    [Id(r.evaluationId), Id(r.schemaHash), Id(r.model)]
    + CalibrationItems(r.calibration) + BindingItems(r.binding) + [Text(r.state), Num64(r.expiresAt)]
  }

  function RequestDigest(r: DecisionRequest): Digest {
    Seal("ic-laya/evaluation/v1", RequestItems(r))
  }

  function ProposalItems(p: TransferProposal): seq<Item> {
    [Text(p.ledger), Text(p.fromSubaccount), Text(p.to.owner), Text(p.to.subaccount), Num128(p.amount), Num128(p.fee)]
  }

  function ProposalDigest(p: TransferProposal): Digest {
    Seal("ic-laya/proposal/v1", ProposalItems(p))
  }

  lemma {:induction false} OptionItemsInjective(a: seq<OptionDef>, b: seq<OptionDef>)
    requires OptionItems(a) == OptionItems(b)
    ensures a == b
  {
    assert |a| == |b|;
    if a != [] {
      var x, y := OptionItems(a), OptionItems(b);
      assert x[0] == y[0] && x[1] == y[1];
      assert OptionItems(a[1..]) == x[2..] == y[2..] == OptionItems(b[1..]);
      OptionItemsInjective(a[1..], b[1..]);
      assert a == [a[0]] + a[1..] && b == [b[0]] + b[1..];
    }
  }

  lemma SchemaShape(s: Schema, t: Digest)
    requires |s.options| < TWO_64
    ensures var x, n := SchemaItems(s, t), |s.options|;
      && |x| == 7 + 2 * n
      && x[0] == Text(s.id) && x[1] == Num64(s.version) && x[2] == Num64(s.primitive.Tag())
      && x[3] == Text(s.instructions) && x[4] == Num64(n) && x[5..5 + 2 * n] == OptionItems(s.options)
      && (forall k | 5 <= k < 5 + 2 * n :: x[k].Text?) && x[5 + 2 * n] == Id(t) && x[6 + 2 * n] == Text(PROFILE)
  {
    hide Ascii;
    var x, n := SchemaItems(s, t), |s.options|;
    forall k | 5 <= k < 5 + 2 * n ensures x[k].Text? {
      assert x[k] == OptionItems(s.options)[k - 5];
    }
  }

  lemma SchemaScript(s: Schema, t: Digest, s': Schema, t': Digest)
    requires |s.options| < TWO_64 && |s'.options| < TWO_64
    ensures SameScript(SchemaItems(s, t), SchemaItems(s', t'))
  {
    SchemaShape(s, t);
    SchemaShape(s', t');
    var x, y := SchemaItems(s, t), SchemaItems(s', t');
    hide SchemaItems, OptionItems;
    forall k | 0 <= k < |x| && k < |y| && x[..k] == y[..k] ensures SameKind(x[k], y[k]) {
      if k >= 5 {
        assert x[..k][4] == y[..k][4];
      }
    }
  }

  /** The option count written before the options makes the list unambiguous. */
  lemma SchemaDigestInjective(s: Schema, t: Digest, s': Schema, t': Digest)
    requires |s.options| < TWO_64 && |s'.options| < TWO_64
    requires SchemaDigest(s, t) == SchemaDigest(s', t')
    ensures s == s' && t == t'
  {
    hide Seal, SchemaItems, OptionItems, Ascii, SameScript;
    SchemaScript(s, t, s', t');
    SealInjective("ic-laya/schema/v1", SchemaItems(s, t), SchemaItems(s', t'));
    SchemaShape(s, t);
    SchemaShape(s', t');
    OptionItemsInjective(s.options, s'.options);
  }

  lemma RequestShape(r: DecisionRequest)
    ensures var x, i := RequestItems(r), if r.calibration.Some? then 5 else 4;
      && |x| == i + (if r.binding.Some? then 5 else 1) + 2
      && x[0] == Id(r.evaluationId) && x[1] == Id(r.schemaHash) && x[2] == Id(r.model)
      && x[3] == Num64(i - 4) && (r.calibration.Some? ==> x[4] == Id(r.calibration.value))
      && x[i] == Num64(if r.binding.Some? then 1 else 0)
      && (r.binding.Some? ==>
            && x[i + 1] == Id(r.binding.value.workflow) && x[i + 2] == Num64(r.binding.value.slot)
            && x[i + 3] == Num64(r.binding.value.attempt) && x[i + 4] == Id(r.binding.value.snapshot))
      && x[|x| - 2] == Text(r.state) && x[|x| - 1] == Num64(r.expiresAt)
  {
  }

  lemma RequestScript(a: DecisionRequest, b: DecisionRequest)
    ensures SameScript(RequestItems(a), RequestItems(b))
  {
    RequestShape(a);
    RequestShape(b);
    var x, y := RequestItems(a), RequestItems(b);
    hide RequestItems;
    var i := if a.calibration.Some? then 5 else 4;
    forall k | 0 <= k < |x| && k < |y| && x[..k] == y[..k] ensures SameKind(x[k], y[k]) {
      if k > 3 {
        assert x[..k][3] == y[..k][3];
        if k > i {
          assert x[..k][i] == y[..k][i];
        }
      }
    }
  }

  /** Both optional fields are announced by a flag word, so requests of different shape differ. */
  lemma RequestDigestInjective(a: DecisionRequest, b: DecisionRequest)
    requires RequestDigest(a) == RequestDigest(b)
    ensures a == b
  {
    hide Seal, RequestItems, SameScript;
    RequestScript(a, b);
    SealInjective("ic-laya/evaluation/v1", RequestItems(a), RequestItems(b));
    RequestShape(a);
    RequestShape(b);
  }

  lemma ProposalDigestInjective(p: TransferProposal, q: TransferProposal)
    requires ProposalDigest(p) == ProposalDigest(q)
    ensures p == q
  {
    var x, y := ProposalItems(p), ProposalItems(q);
    SealInjective("ic-laya/proposal/v1", x, y);
    assert x[0] == y[0] && x[1] == y[1] && x[2] == y[2] && x[3] == y[3] && x[4] == y[4] && x[5] == y[5];
  }

  /** `Schema::digest`: the builder run over the options. */
  method DigestSchema(s: Schema, tokenizer: Digest) returns (d: Digest)
    requires |s.options| < TWO_64
    ensures d == SchemaDigest(s, tokenizer)
  {
    hide Encode, Ascii, OptionItems;
    var h := new Builder("ic-laya/schema/v1");
    ghost var head := h.items;
    h.Put(Text(s.id));
    h.Put(Num64(s.version));
    h.Put(Num64(s.primitive.Tag()));
    h.Put(Text(s.instructions));
    h.Put(Num64(|s.options|));
    ghost var fixed := h.items;
    ghost var front := [Text(s.id), Num64(s.version), Num64(s.primitive.Tag()), Text(s.instructions), Num64(|s.options|)];
    assert fixed == head + front;
    for i := 0 to |s.options|
      invariant h.Valid() && fresh(h)
      invariant h.items == fixed + OptionItems(s.options[..i])
    {
      OptionItemsSnoc(s.options[..i], s.options[i]);
      assert s.options[..i + 1] == s.options[..i] + [s.options[i]];
      h.Put(Text(s.options[i].id));
      h.Put(Text(s.options[i].text));
    }
    assert s.options[..|s.options|] == s.options;
    h.Put(Id(tokenizer));
    h.Put(Text(PROFILE));
    Regroup(head, front, OptionItems(s.options), Id(tokenizer), Text(PROFILE));
    d := h.Finish();
  }

  lemma Regroup(head: seq<Item>, front: seq<Item>, middle: seq<Item>, a: Item, b: Item)
    ensures ((head + front) + middle) + [a] + [b] == head + (front + middle + [a, b])
  {
  }

  lemma {:induction false} OptionItemsSnoc(os: seq<OptionDef>, o: OptionDef)
    ensures OptionItems(os + [o]) == OptionItems(os) + [Text(o.id), Text(o.text)]
  {
    if os == [] {
      assert os + [o] == [o];
      assert [o][1..] == [];
    } else {
      assert (os + [o])[1..] == os[1..] + [o];
      OptionItemsSnoc(os[1..], o);
    }
  }
}
