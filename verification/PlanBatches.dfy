/**
 Grouping inference phases into query batches (tools/explore_query_conditions.py,
 `plan_batches`): a backward dynamic program over phase boundaries.
 */
module PlanBatches {
  import opened Wrappers

  /** Summed cost of phases `i..j`. */
  function Cost(costs: seq<int>, i: nat, j: nat): int
    requires i <= j <= |costs|
  {
    if i == j then 0 else Cost(costs, i, j - 1) + costs[j - 1]
  }

  /** Phases `i..j` may run together: the source stops extending at the first prefix over budget. */
  ghost predicate BatchOk(costs: seq<int>, budget: int, maximum: int, i: nat, j: nat)
    requires i <= j <= |costs|
  {
    1 <= j - i <= maximum && forall k | i < k <= j :: Cost(costs, i, k) <= budget
  }

  /** `widths` partitions the phases from `i` on into allowed batches. */
  ghost predicate Feasible(costs: seq<int>, budget: int, maximum: int, i: nat, widths: seq<nat>)
    requires i <= |costs|
    decreases |widths|
  {
    if widths == [] then i == |costs|
    else i + widths[0] <= |costs| && BatchOk(costs, budget, maximum, i, i + widths[0])
         && Feasible(costs, budget, maximum, i + widths[0], widths[1..])
  }

  /** No partition of the phases from `i` on is allowed. */
  ghost predicate Hopeless(costs: seq<int>, budget: int, maximum: int, i: nat)
    requires i <= |costs|
  {
    forall widths: seq<nat> :: !Feasible(costs, budget, maximum, i, widths)
  }

  /** A boundary inside the run ships the state out and back in. */
  function Boundary(sizes: seq<int>, n: nat, j: nat): int
    requires n <= |sizes|
  {
    if j < n then 2 * sizes[j] else 0
  }

  /** Intermediate bytes of a partition starting at `i`. */
  function Bytes(sizes: seq<int>, n: nat, i: nat, widths: seq<nat>): int
    requires n <= |sizes|
    decreases |widths|
  {
    if widths == [] then 0 else Boundary(sizes, n, i + widths[0]) + Bytes(sizes, n, i + widths[0], widths[1..])
  }

  /** `v[:2]` order: fewer bytes, then fewer batches. */
  predicate AtMost(b: int, c: nat, b': int, c': nat) {
    b < b' || (b == b' && c <= c')
  }

  ghost predicate Optimal(costs: seq<int>, sizes: seq<int>, budget: int, maximum: int, i: nat, widths: seq<nat>)
    requires i <= |costs| <= |sizes|
  {
    && Feasible(costs, budget, maximum, i, widths)
    && forall other | Feasible(costs, budget, maximum, i, other) ::
         AtMost(Bytes(sizes, |costs|, i, widths), |widths|, Bytes(sizes, |costs|, i, other), |other|)
  }

  /** `(bytes, batches, widths)` for the phases from some boundary on. */
  datatype Entry = Entry(bytes: int, count: nat, widths: seq<nat>)

  ghost predicate EntryOk(costs: seq<int>, sizes: seq<int>, budget: int, maximum: int, i: nat, e: Entry)
    requires i <= |costs| <= |sizes|
  {
    Optimal(costs, sizes, budget, maximum, i, e.widths) && e.bytes == Bytes(sizes, |costs|, i, e.widths) && e.count == |e.widths|
  }

  /** Boundaries from `i` on are solved: an optimal entry where one exists, none where none does. */
  ghost predicate Solved(costs: seq<int>, sizes: seq<int>, budget: int, maximum: int, i: nat, best: map<nat, Entry>)
    requires i <= |costs| <= |sizes|
  {
    forall k: nat | i <= k <= |costs| ::
      if k in best then EntryOk(costs, sizes, budget, maximum, k, best[k])
      else Hopeless(costs, budget, maximum, k)
  }

  /** The candidate for a first batch `i..j` on top of the best tail at `j`. */
  function Candidate(sizes: seq<int>, n: nat, i: nat, j: nat, tail: Entry): Entry
    requires i < j <= n <= |sizes|
  {
    Entry(tail.bytes + Boundary(sizes, n, j), tail.count + 1, [j - i] + tail.widths)
  }

  /** The candidates collected so far for first batches ending at or before `upto`. */
  ghost predicate Collected(
    costs: seq<int>, sizes: seq<int>, i: nat, upto: nat, best: map<nat, Entry>, candidates: seq<Entry>)
    requires i < |costs| <= |sizes| && upto <= |costs|
  {
    && (forall j: nat | i < j <= upto && j in best :: Candidate(sizes, |costs|, i, j, best[j]) in candidates)
    && (forall c | c in candidates :: exists j: nat :: i < j <= upto && j in best && c == Candidate(sizes, |costs|, i, j, best[j]))
  }

  /** `min(candidates, key=lambda v: v[:2])` */
  method First(candidates: seq<Entry>) returns (e: Entry)
    requires candidates != []
    ensures e in candidates && forall c | c in candidates :: AtMost(e.bytes, e.count, c.bytes, c.count)
  {
    e := candidates[0];
    for k := 1 to |candidates|
      invariant e in candidates && forall m | 0 <= m < k :: AtMost(e.bytes, e.count, candidates[m].bytes, candidates[m].count)
    {
      if !AtMost(e.bytes, e.count, candidates[k].bytes, candidates[k].count) {
        e := candidates[k];
      }
    }
  }

  lemma CandidateFeasible(costs: seq<int>, sizes: seq<int>, budget: int, maximum: int, i: nat, j: nat, tail: Entry)
    requires i < j <= |costs| <= |sizes| && BatchOk(costs, budget, maximum, i, j)
    requires EntryOk(costs, sizes, budget, maximum, j, tail)
    ensures var c := Candidate(sizes, |costs|, i, j, tail);
      && Feasible(costs, budget, maximum, i, c.widths)
      && c.bytes == Bytes(sizes, |costs|, i, c.widths) && c.count == |c.widths|
  {
    assert ([j - i] + tail.widths)[1..] == tail.widths;
  }

  /** Any partition from `i` is no better than the candidate sharing its first batch. */
  lemma CandidateBeats(
    costs: seq<int>, sizes: seq<int>, budget: int, maximum: int, i: nat, best: map<nat, Entry>, widths: seq<nat>)
    requires i < |costs| <= |sizes| && Solved(costs, sizes, budget, maximum, i + 1, best)
    requires Feasible(costs, budget, maximum, i, widths)
    ensures widths != [] && i + widths[0] in best && i < i + widths[0] <= |costs|
    ensures BatchOk(costs, budget, maximum, i, i + widths[0])
    ensures var c := Candidate(sizes, |costs|, i, i + widths[0], best[i + widths[0]]);
      AtMost(c.bytes, c.count, Bytes(sizes, |costs|, i, widths), |widths|)
  {
    var j := i + widths[0];
    assert Feasible(costs, budget, maximum, j, widths[1..]);
    assert EntryOk(costs, sizes, budget, maximum, j, best[j]);
  }

  /** The widening stopped exactly where first batches stop being allowed. */
  ghost predicate Reaches(costs: seq<int>, budget: int, maximum: int, i: nat, upto: nat) {
    i <= upto <= |costs| && forall j: nat | i < j <= |costs| :: j <= upto <==> BatchOk(costs, budget, maximum, i, j)
  }

  lemma SomeCandidate(
    costs: seq<int>, sizes: seq<int>, budget: int, maximum: int, i: nat, upto: nat, best: map<nat, Entry>, candidates: seq<Entry>,
    widths: seq<nat>) returns (c: Entry)
    requires i < |costs| <= |sizes| && Solved(costs, sizes, budget, maximum, i + 1, best)
    requires Reaches(costs, budget, maximum, i, upto) && Collected(costs, sizes, i, upto, best, candidates)
    requires Feasible(costs, budget, maximum, i, widths)
    ensures c in candidates && AtMost(c.bytes, c.count, Bytes(sizes, |costs|, i, widths), |widths|)
  {
    CandidateBeats(costs, sizes, budget, maximum, i, best, widths);
    hide Solved, Feasible, BatchOk, Candidate, Bytes;
    c := Candidate(sizes, |costs|, i, i + widths[0], best[i + widths[0]]);
  }

  /** Without candidates nothing is feasible; with them the first minimum is optimal. */
  lemma Extend(
    costs: seq<int>, sizes: seq<int>, budget: int, maximum: int, i: nat, upto: nat, best: map<nat, Entry>, candidates: seq<Entry>)
    requires i < |costs| <= |sizes| && Solved(costs, sizes, budget, maximum, i + 1, best)
    requires Reaches(costs, budget, maximum, i, upto) && Collected(costs, sizes, i, upto, best, candidates)
    ensures candidates == [] ==> Hopeless(costs, budget, maximum, i)
  {
    hide Solved, Feasible, Reaches, Collected;
    forall widths: seq<nat> | Feasible(costs, budget, maximum, i, widths) ensures candidates != [] {
      var c := SomeCandidate(costs, sizes, budget, maximum, i, upto, best, candidates, widths);
    }
  }

  lemma MinimumIsOptimal(
    costs: seq<int>, sizes: seq<int>, budget: int, maximum: int, i: nat, upto: nat, best: map<nat, Entry>, candidates: seq<Entry>,
    e: Entry)
    requires i < |costs| <= |sizes| && Solved(costs, sizes, budget, maximum, i + 1, best)
    requires Reaches(costs, budget, maximum, i, upto) && Collected(costs, sizes, i, upto, best, candidates)
    requires e in candidates && forall c | c in candidates :: AtMost(e.bytes, e.count, c.bytes, c.count)
    ensures EntryOk(costs, sizes, budget, maximum, i, e)
  {
    var j: nat :| i < j <= upto && j in best && e == Candidate(sizes, |costs|, i, j, best[j]);
    assert EntryOk(costs, sizes, budget, maximum, j, best[j]);
    assert BatchOk(costs, budget, maximum, i, j);
    hide Feasible, BatchOk, Solved;
    CandidateFeasible(costs, sizes, budget, maximum, i, j, best[j]);
    hide Collected, Reaches, Candidate, Bytes;
    forall other: seq<nat> | Feasible(costs, budget, maximum, i, other)
      ensures AtMost(e.bytes, e.count, Bytes(sizes, |costs|, i, other), |other|)
    {
      var c := SomeCandidate(costs, sizes, budget, maximum, i, upto, best, candidates, other);
    }
  }

  /** The candidates for boundary `i`, widening the first batch until it leaves the budget. */
  method Candidates(costs: seq<int>, sizes: seq<int>, budget: int, maximum: int, i: nat, best: map<nat, Entry>)
    returns (candidates: seq<Entry>, ghost upto: nat)
    requires i < |costs| <= |sizes|
    ensures Reaches(costs, budget, maximum, i, upto) && Collected(costs, sizes, i, upto, best, candidates)
  {
    candidates := [];
    var cost, j := 0, i + 1;
    while j <= |costs| && j <= i + maximum
      invariant i < j <= |costs| + 1 && cost == Cost(costs, i, j - 1)
      invariant forall k | i < k < j :: Cost(costs, i, k) <= budget
      invariant j - 1 <= i + maximum || j == i + 1
      invariant Collected(costs, sizes, i, j - 1, best, candidates)
    {
      cost := cost + costs[j - 1];
      if cost > budget {
        assert forall k: nat | j <= k <= |costs| :: !BatchOk(costs, budget, maximum, i, k) by {
          assert Cost(costs, i, j) > budget;
        }
        upto := j - 1;
        return;
      }
      if j in best {
        candidates := candidates + [Candidate(sizes, |costs|, i, j, best[j])];
      }
      j := j + 1;
    }
    upto := j - 1;
  }

  /** `None` stands for the source's failure "a single phase exceeds the selected handler budget". */
  method Plan(costs: seq<int>, sizes: seq<int>, budget: int, maximum: int) returns (r: Option<seq<nat>>)
    requires |costs| <= |sizes|
    ensures r.Some? ==> Optimal(costs, sizes, budget, maximum, 0, r.value)
    ensures r.None? <==> Hopeless(costs, budget, maximum, 0)
  {
    hide Feasible, Bytes, Collected, Reaches, EntryOk, Hopeless;
    var n := |costs|;
    var best: map<nat, Entry> := map[n := Entry(0, 0, [])];
    EndEntry(costs, sizes, budget, maximum);
    var i: nat := n;
    while i > 0
      invariant 0 <= i <= n && Solved(costs, sizes, budget, maximum, i, best)
      invariant forall k | k in best :: i <= k
    {
      i := i - 1;
      var candidates, upto := Candidates(costs, sizes, budget, maximum, i, best);
      Extend(costs, sizes, budget, maximum, i, upto, best, candidates);
      if candidates != [] {
        var e := First(candidates);
        MinimumIsOptimal(costs, sizes, budget, maximum, i, upto, best, candidates, e);
        best := best[i := e];
      }
    }
    assert 0 in best ==> EntryOk(costs, sizes, budget, maximum, 0, best[0]);
    if 0 !in best { return None; }
    EntryFacts(costs, sizes, budget, maximum, 0, best[0]);
    return Some(best[0].widths);
  }

  lemma EntryFacts(costs: seq<int>, sizes: seq<int>, budget: int, maximum: int, i: nat, e: Entry)
    requires i <= |costs| <= |sizes| && EntryOk(costs, sizes, budget, maximum, i, e)
    ensures Optimal(costs, sizes, budget, maximum, i, e.widths) && !Hopeless(costs, budget, maximum, i)
  {
  }

  lemma EndEntry(costs: seq<int>, sizes: seq<int>, budget: int, maximum: int)
    requires |costs| <= |sizes|
    ensures EntryOk(costs, sizes, budget, maximum, |costs|, Entry(0, 0, []))
  {
    forall widths: seq<nat> | Feasible(costs, budget, maximum, |costs|, widths) ensures widths == [] {
    }
  }

  // ----- what the plan means for the caller ----------------------------------------------------

  lemma {:induction false} CostMonotone(costs: seq<int>, i: nat, k: nat, j: nat)
    requires i <= k <= j <= |costs| && forall p | 0 <= p < |costs| :: costs[p] >= 0
    ensures Cost(costs, i, k) <= Cost(costs, i, j)
    decreases j
  {
    if k < j {
      CostMonotone(costs, i, k, j - 1);
    }
  }

  lemma {:induction false} CostContains(costs: seq<int>, i: nat, k: nat, j: nat)
    requires i <= k < j <= |costs| && forall p | 0 <= p < |costs| :: costs[p] >= 0
    ensures costs[k] <= Cost(costs, i, j)
    decreases j
  {
    CostMonotone(costs, i, i, j - 1);
    if k < j - 1 {
      CostContains(costs, i, k, j - 1);
    }
  }

  /** With nonnegative costs a batch is allowed exactly when its own total is. */
  lemma NonNegativeBatch(costs: seq<int>, budget: int, maximum: int, i: nat, j: nat)
    requires i < j <= |costs| && forall p | 0 <= p < |costs| :: costs[p] >= 0
    ensures BatchOk(costs, budget, maximum, i, j) <==> j - i <= maximum && Cost(costs, i, j) <= budget
  {
    forall k | i < k <= j ensures Cost(costs, i, k) <= Cost(costs, i, j) {
      CostMonotone(costs, i, k, j);
    }
  }

  lemma {:induction false} Singletons(costs: seq<int>, budget: int, maximum: int, i: nat) returns (widths: seq<nat>)
    requires i <= |costs| && maximum >= 1 && forall k | 0 <= k < |costs| :: costs[k] <= budget
    ensures Feasible(costs, budget, maximum, i, widths)
    decreases |costs| - i
  {
    if i == |costs| {
      widths := [];
    } else {
      var rest := Singletons(costs, budget, maximum, i + 1);
      widths := [1] + rest;
      assert widths[1..] == rest;
      assert Cost(costs, i, i + 1) == Cost(costs, i, i) + costs[i];
    }
  }

  lemma {:induction false} FeasibleCovers(costs: seq<int>, budget: int, maximum: int, i: nat, widths: seq<nat>, k: nat)
    requires i <= k < |costs| && (forall p | 0 <= p < |costs| :: costs[p] >= 0) && Feasible(costs, budget, maximum, i, widths)
    ensures costs[k] <= budget
    decreases |widths|
  {
    var j := i + widths[0];
    if k < j {
      CostContains(costs, i, k, j);
      assert Cost(costs, i, j) <= budget;
    } else {
      FeasibleCovers(costs, budget, maximum, j, widths[1..], k);
    }
  }

  /** For nonnegative costs and a positive width the planner fails exactly when one phase alone is over budget. */
  lemma FailsOnlyOnOversizedPhase(costs: seq<int>, budget: int, maximum: int)
    requires maximum >= 1 && forall p | 0 <= p < |costs| :: costs[p] >= 0
    ensures Hopeless(costs, budget, maximum, 0) <==> exists k | 0 <= k < |costs| :: costs[k] > budget
  {
    if forall k | 0 <= k < |costs| :: costs[k] <= budget {
      var widths := Singletons(costs, budget, maximum, 0);
    } else {
      var k: nat :| k < |costs| && costs[k] > budget;
      forall widths: seq<nat> ensures !Feasible(costs, budget, maximum, 0, widths) {
        if Feasible(costs, budget, maximum, 0, widths) {
          FeasibleCovers(costs, budget, maximum, 0, widths, k);
        }
      }
    }
  }

  /** With a negative cost the message would be wrong: a phase over budget can hide behind an earlier credit. */
  lemma OversizedPhaseMayFit()
    ensures var costs := [-5, 8]; costs[1] > 5 && Feasible(costs, 5, 16, 0, [2])
  {
    var costs := [-5, 8];
    assert Cost(costs, 0, 0) == 0;
    assert Cost(costs, 0, 1) == -5;
    assert Cost(costs, 0, 2) == 3;
    assert [2][1..] == [];
  }
}
