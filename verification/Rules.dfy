/**
 What a receipt has to say for its signal's rule to pass (crates/ic-laya-core/src/workflow.rs, crates/ic-laya-core/src/math.rs),
 in terms of the masses alone.
 */
module Rules {
  import opened Arithmetic
  import opened Wrappers
  import opened Numbers
  import opened Types
  import opened Workflow
  import Math

  // ----- the condition ----------------------------------------------------------------------------

  /** `best` is the first option of largest mass. */
  ghost predicate Leads(d: seq<U32>, best: nat) {
    best < |d| && (forall j | 0 <= j < |d| :: d[j] <= d[best]) && forall j | 0 <= j < best :: d[j] < d[best]
  }

  ghost predicate Named(ids: seq<Blob>, os: seq<OptionDef>) {
    |ids| == |os| && forall i | 0 <= i < |ids| :: ids[i] == os[i].id
  }

  /** Index times mass, summed. */
  ghost function Expected(d: seq<U32>): nat {
    if d == [] then 0 else Expected(d[..|d| - 1]) + (|d| - 1) * d[|d| - 1]
  }

  /** `v` is the decoded answer with masses `d`: right primitive, right names, and every derived field as defined. */
  ghost predicate Encodes(s: Schema, v: DecisionValue, d: seq<U32>) {
    && Math.IsDistribution(d) && |d| == |s.options| && s.primitive.CountValid(|d|)
    && match s.primitive
       case Choice =>
         && v.ChoiceValue? && v.massPpm == d && Named(v.optionIds, s.options)
         && exists best: nat :: Leads(d, best) && v.selectedId == s.options[best].id
       case Noul => v == NoulValue(d[0], d[1])
       case Score =>
         && v.ScoreValue? && v.binMassPpm == d && Named(v.binIds, s.options) && v.expectedLevelMicrounits == Expected(d)
         && 2 * (|d| - 1) * v.meanPpm <= 2 * Expected(d) + (|d| - 1) < 2 * (|d| - 1) * (v.meanPpm + 1)
  }

  /** The two largest masses, and whether they are equal. */
  ghost predicate Diagnosed(g: Diagnostics, d: seq<U32>) {
    exists i: nat, j: nat ::
      && i < |d| && j < |d| && i != j && (forall k | 0 <= k < |d| && k != i :: d[k] <= d[j] <= d[i])
      && g == Diagnostics(d[i], d[i] - d[j], d[i] == d[j])
  }

  /** The rule on the masses. */
  ghost predicate Meets(s: Schema, rule: Rule, d: seq<U32>) {
    match rule
    case NoulTrue(m) => |d| == 2 && d[1] >= m && d[0] != d[1]
    case ChoiceIs(o, m) =>
      exists i | 0 <= i < |d| && i < |s.options| ::
        s.options[i].id == o && d[i] >= m && forall j | 0 <= j < |d| && j != i :: d[j] < d[i]
    case ScoreTailAtMost(b, m) => b < |d| && Sum(d[b..]) <= m
  }

  /** An assessment whose value and diagnostics are those of masses that meet the rule. */
  ghost predicate RuleMet(s: RequiredSignal, receipt: Receipt) {
    && receipt.outcome.Assessed? && receipt.diagnostics.Some?
    && exists d: seq<U32> ::
         && Encodes(s.schema.schema, receipt.outcome.value, d) && Diagnosed(receipt.diagnostics.value, d)
         && Meets(s.schema.schema, s.rule, d)
  }

  // ----- admitted plans ---------------------------------------------------------------------------

  ghost predicate SignalsFit(p: Plan) {
    forall i | 0 <= i < |p.signals| :: RuleFits(p.signals[i])
  }

  lemma {:induction false} ValidFits(ss: seq<RequiredSignal>, i: nat)
    requires ValidateSignals(ss).Ok? && i < |ss|
    ensures RuleFits(ss[i])
  {
    hide RuleFits;
    if i > 0 {
      ValidFits(ss[1..], i - 1);
    }
  }

  lemma ValidPlanFits(p: Plan)
    requires ValidatePlan(p).Ok?
    ensures SignalsFit(p)
  {
    hide RuleFits;
    forall i | 0 <= i < |p.signals| ensures RuleFits(p.signals[i]) {
      ValidFits(p.signals, i);
    }
  }

  // ----- the computed fields are the described ones -------------------------------------------------

  lemma LeaderIs(d: seq<U32>, best: nat)
    requires |d| >= 1
    ensures Leads(d, best) <==> best == Math.ArgMax(d)
  {
    var top := Math.ArgMax(d);
    if Leads(d, best) {
      assert top <= best && best <= top;
    }
  }

  lemma NamedIs(ids: seq<Blob>, os: seq<OptionDef>)
    ensures Named(ids, os) <==> ids == Math.Ids(os)
  {
  }

  lemma {:induction false} ExpectedIs(d: seq<U32>, from: nat)
    requires from <= |d|
    ensures Expected(d) == Expected(d[..from]) + Math.Level(d, from)
    decreases |d| - from
  {
    if from < |d| {
      ExpectedIs(d, from + 1);
      assert d[..from + 1][..from] == d[..from];
    } else {
      assert d[..from] == d;
    }
  }

  lemma Division(x: nat, k: nat)
    requires k > 0
    ensures k * (x / k) <= x < k * (x / k + 1)
  {
    assert x == k * (x / k) + x % k;
  }

  lemma Nearest(n: nat, k: nat, mean: nat)
    requires k > 0
    ensures 2 * k * mean <= 2 * n + k < 2 * k * (mean + 1) <==> mean == (n + k / 2) / k
  {
    Division(n + k / 2, k);
    assert 2 * k * mean == 2 * (k * mean) && 2 * k * (mean + 1) == 2 * (k * (mean + 1));
    if 2 * k * mean <= 2 * n + k < 2 * k * (mean + 1) {
      Between(n + k / 2, k, mean, (n + k / 2) / k);
    }
  }

  lemma Between(x: nat, k: nat, p: nat, q: nat)
    requires k > 0 && k * p <= x < k * (p + 1) && k * q <= x < k * (q + 1)
    ensures p == q
  {
    if p < q {
      Scaled(k, p + 1, q);
    } else if q < p {
      Scaled(k, q + 1, p);
    }
  }

  lemma Scaled(k: nat, p: nat, q: nat)
    requires p <= q
    ensures k * p <= k * q
  {
  }

  lemma ChoiceMeans(s: Schema, v: DecisionValue, d: Math.Distribution)
    requires s.primitive == Choice
    ensures Math.Value(s, d) == Ok(v) <==> Encodes(s, v, d)
  {
    hide Leads, Math.ArgMax, Named, Math.Ids;
    LeaderIs(d, Math.ArgMax(d));
    forall best: nat | Leads(d, best) ensures best == Math.ArgMax(d) {
      LeaderIs(d, best);
    }
    if v.ChoiceValue? {
      NamedIs(v.optionIds, s.options);
    }
    IdAt(s.options);
  }

  lemma IdAt(os: seq<OptionDef>)
    ensures forall i | 0 <= i < |os| :: Math.Ids(os)[i] == os[i].id
  {
  }

  lemma ScoreMeans(s: Schema, v: DecisionValue, d: Math.Distribution)
    requires s.primitive == Score
    ensures Math.Value(s, d) == Ok(v) <==> Encodes(s, v, d)
  {
    hide Expected, Named, Math.Ids, Math.Level;
    if v.ScoreValue? {
      NamedIs(v.binIds, s.options);
      ExpectedIs(d, 0);
      assert Expected(d[..0]) == 0 by { Nothing(d[..0]); }
      Nearest(Expected(d), |d| - 1, v.meanPpm);
    }
  }

  lemma Nothing(d: seq<U32>)
    requires d == []
    ensures Expected(d) == 0
  {
  }

  /** The encoder writes, and validation accepts, exactly the described values. */
  lemma ValueMeans(s: Schema, v: DecisionValue, d: Math.Distribution)
    ensures Math.Value(s, d) == Ok(v) <==> Encodes(s, v, d)
  {
    match s.primitive
    case Choice => ChoiceMeans(s, v, d);
    case Noul =>
    case Score => ScoreMeans(s, v, d);
  }

  // ----- diagnostics -------------------------------------------------------------------------------

  lemma DiagnosedOnce(g: Diagnostics, h: Diagnostics, d: seq<U32>)
    requires Diagnosed(g, d) && Diagnosed(h, d)
    ensures g == h
  {
    var i: nat, j: nat :| i < |d| && j < |d| && i != j && (forall k | 0 <= k < |d| && k != i :: d[k] <= d[j] <= d[i])
      && g == Diagnostics(d[i], d[i] - d[j], d[i] == d[j]);
    var i': nat, j': nat :| i' < |d| && j' < |d| && i' != j' && (forall k | 0 <= k < |d| && k != i' :: d[k] <= d[j'] <= d[i'])
      && h == Diagnostics(d[i'], d[i'] - d[j'], d[i'] == d[j']);
    assert d[i] == d[i'];
    assert d[j] == d[j'];
  }

  lemma RunnerUp(d: Math.Distribution, best: nat) returns (j: nat)
    requires best < |d|
    ensures j < |d| && j != best && d[j] == Math.MaxBut(d, best, |d|)
  {
    hide Math.MaxBut;
    if Math.MaxBut(d, best, |d|) == 0 {
      j := if best == 0 then 1 else 0;
    } else {
      j :| 0 <= j < |d| && j != best && d[j] == Math.MaxBut(d, best, |d|);
    }
  }

  lemma TopTwo(d: Math.Distribution)
    ensures Diagnosed(Math.Diagnose(d), d)
  {
    var i := Math.ArgMax(d);
    var j := RunnerUp(d, i);
    var second := Math.MaxBut(d, i, |d|);
    hide Math.MaxBut, Math.ArgMax;
    assert Math.Diagnose(d) == Diagnostics(d[i], d[i] - d[j], d[i] == d[j]);
  }

  lemma DiagnoseMeans(g: Diagnostics, d: Math.Distribution)
    ensures g == Math.Diagnose(d) <==> Diagnosed(g, d)
  {
    hide Math.Diagnose, Diagnosed;
    TopTwo(d);
    if Diagnosed(g, d) {
      DiagnosedOnce(g, Math.Diagnose(d), d);
    }
  }

  // ----- the rule ----------------------------------------------------------------------------------

  lemma TiedOrNot(d: Math.Distribution)
    ensures !Math.Diagnose(d).tied <==> forall j | 0 <= j < |d| && j != Math.ArgMax(d) :: d[j] < d[Math.ArgMax(d)]
  {
    DiagnoseMeans(Math.Diagnose(d), d);
    LeaderIs(d, Math.ArgMax(d));
    hide Math.Diagnose, Math.ArgMax;
  }

  /** Passing a rule that fits its schema means exactly that the masses meet it. */
  lemma RuleMeans(s: RequiredSignal, receipt: Receipt)
    requires RuleFits(s)
    ensures CheckRule(s, receipt) == Ok(true) <==> RuleMet(s, receipt)
  {
    if receipt.outcome.Assessed? {
      var schema, v := s.schema.schema, receipt.outcome.value;
      if Math.ValidateValue(schema, v).Ok? {
        var d := Math.ValidateValue(schema, v).value;
        Math.ValidateValueExact(schema, v, d);
        ValueMeans(schema, v, d);
        Judged(s, receipt, d);
      }
      if RuleMet(s, receipt) {
        var d: seq<U32> :| Encodes(schema, v, d) && Diagnosed(receipt.diagnostics.value, d) && Meets(schema, s.rule, d);
        ValueMeans(schema, v, d);
        Math.ValidateValueExact(schema, v, d);
        Judged(s, receipt, d);
      }
      hide CheckRule, Encodes, Diagnosed, Meets, Math.ValidateValue, Math.Value;
    }
  }

  lemma Judged(s: RequiredSignal, receipt: Receipt, d: Math.Distribution)
    requires RuleFits(s) && receipt.outcome.Assessed? && Math.ValidateValue(s.schema.schema, receipt.outcome.value) == Ok(d)
    requires s.schema.schema.primitive.CountValid(|d|)
    ensures CheckRule(s, receipt) == Ok(true)
       <==> receipt.diagnostics.Some? && Diagnosed(receipt.diagnostics.value, d) && Meets(s.schema.schema, s.rule, d)
  {
    hide Math.ValidateValue, Diagnosed, Math.Diagnose, Math.ArgMax, Math.IsDistribution;
    if receipt.diagnostics.Some? {
      DiagnoseMeans(receipt.diagnostics.value, d);
    }
    TiedOrNot(d);
    LeaderIs(d, Math.ArgMax(d));
  }
}
