/** Probability masses in parts per million (crates/ic-laya-core/src/math.rs). */
module Math {
  import opened Arithmetic
  import opened Wrappers
  import opened Numbers
  import opened Types

  // ----- sums --------------------------------------------------------------------------

  function SumReal(s: seq<real>): real {
    if s == [] then 0.0 else s[0] + SumReal(s[1..])
  }

  lemma {:induction false} SumUpdate(s: seq<int>, i: nat, v: int)
    requires i < |s|
    ensures Sum(s[i := v]) == Sum(s) - s[i] + v
  {
    if i == 0 {
      assert s[i := v][1..] == s[1..];
    } else {
      assert s[i := v][1..] == s[1..][i - 1 := v];
      SumUpdate(s[1..], i - 1, v);
    }
  }

  lemma {:induction false} SumWithin(s: seq<int>, i: nat)
    requires i < |s| && forall k | 0 <= k < |s| :: s[k] >= 0
    ensures 0 <= s[i] <= Sum(s)
  {
    SumNonNegative(s[1..]);
    if i > 0 {
      SumWithin(s[1..], i - 1);
    }
  }

  lemma {:induction false} SumNonNegative(s: seq<int>)
    requires forall k | 0 <= k < |s| :: s[k] >= 0
    ensures Sum(s) >= 0
  {
    if s != [] {
      SumNonNegative(s[1..]);
    }
  }

  // ----- distributions -----------------------------------------------------------------

  predicate IsDistribution(mass: seq<U32>) {
    2 <= |mass| <= 7 && (forall i | 0 <= i < |mass| :: mass[i] <= PPM) && Sum(mass) == PPM
  }

  /** All mass on the first of two options. */
  function Certain(): (d: seq<U32>)
    ensures IsDistribution(d)
  {
    assert [PPM, 0][1..] == [0] && [0][1..] == [];
    [PPM, 0]
  }

  type Distribution = d: seq<U32> | IsDistribution(d) witness Certain()

  /** `Distribution::new` */
  function NewDistribution(mass: seq<U32>): Fallible<Distribution> {
    if IsDistribution(mass) then Ok(mass) else Err(Numeric)
  }

  /** The first index of the largest of the first `n` masses. */
  function ArgMaxOf(d: seq<U32>, n: nat): (best: nat)
    requires 1 <= n <= |d|
    ensures best < n
    ensures forall i | 0 <= i < n :: d[i] <= d[best]
    ensures forall i | 0 <= i < best :: d[i] < d[best]
  {
    if n == 1 then 0 else
    var best := ArgMaxOf(d, n - 1);
    if d[n - 1] > d[best] then n - 1 else best
  }

  function ArgMax(d: seq<U32>): (best: nat)
    requires |d| >= 1
    ensures best < |d|
  {
    ArgMaxOf(d, |d|)
  }

  /** The source's loop, strict comparison and all: ties go to the first index. */
  method ComputeArgMax(d: seq<U32>) returns (best: nat)
    requires |d| >= 1
    ensures best < |d| && best == ArgMax(d)
    ensures forall i | 0 <= i < |d| :: d[i] <= d[best] && (d[i] == d[best] ==> best <= i)
  {
    best := 0;
    for i := 1 to |d|
      invariant best == ArgMaxOf(d, i)
    {
      if d[i] > d[best] {
        best := i;
      }
    }
  }

  function MaxBut(d: seq<U32>, skip: nat, n: nat): (top: nat)
    requires n <= |d|
    ensures forall i | 0 <= i < n && i != skip :: d[i] <= top
    ensures top == 0 || exists i | 0 <= i < n && i != skip :: d[i] == top
  {
    if n == 0 then 0 else
    var rest := MaxBut(d, skip, n - 1);
    if n - 1 != skip && d[n - 1] > rest then d[n - 1] else rest
  }

  /** The two largest masses; the source reads them off a descending sort. */
  function Diagnose(d: Distribution): (r: Diagnostics)
    ensures r.tied <==> exists i, j | 0 <= i < j < |d| :: d[i] == d[j] == r.top1Ppm
    ensures forall i | 0 <= i < |d| :: d[i] <= r.top1Ppm
  {
    var best := ArgMax(d);
    var second := MaxBut(d, best, |d|);
    SumWithin(d, best);
    assert second <= d[best];
    assert second == d[best] ==> exists i, j | 0 <= i < j < |d| :: d[i] == d[j] == d[best] by {
      if second == d[best] {
        MaxPositive(d);
        var i :| 0 <= i < |d| && i != best && d[i] == second;
        assert best < i && d[best] == d[i];
      }
    }
    Diagnostics(d[best], d[best] - second, d[best] == second)
  }

  lemma MaxPositive(d: Distribution)
    ensures d[ArgMax(d)] > 0
  {
    if d[ArgMax(d)] == 0 {
      ZeroSum(d);
    }
  }

  lemma {:induction false} ZeroSum(s: seq<int>)
    requires forall k | 0 <= k < |s| :: s[k] == 0
    ensures Sum(s) == 0
  {
    if s != [] {
      ZeroSum(s[1..]);
    }
  }

  lemma MultisetHas(a: seq<U32>, b: seq<U32>, i: nat) returns (j: nat)
    requires multiset(a) == multiset(b) && i < |a|
    ensures j < |b| && b[j] == a[i]
  {
    assert a[i] in multiset(a);
    j :| 0 <= j < |b| && b[j] == a[i];
  }

  ghost predicate Descending(s: seq<U32>) {
    forall i, j | 0 <= i < j < |s| :: s[i] >= s[j]
  }

  ghost function But(d: seq<U32>, i: nat): seq<U32>
    requires i < |d|
  {
    d[..i] + d[i + 1..]
  }

  lemma DropAt(s: seq<U32>, i: nat)
    requires i < |s|
    ensures multiset(But(s, i)) == multiset(s) - multiset{s[i]}
  {
    assert s == s[..i] + ([s[i]] + s[i + 1..]);
  }

  lemma ButIndex(d: seq<U32>, i: nat, j: nat)
    requires i < |d| && j < |d| - 1
    ensures |But(d, i)| == |d| - 1 && But(d, i)[j] == d[if j < i then j else j + 1]
  {
  }

  /** The second entry of a descending list is the largest of the entries other than a largest one. */
  lemma SecondOfSorted(d: seq<U32>, sorted: seq<U32>, best: nat)
    requires best < |d| && |d| == |sorted| >= 2 && Descending(sorted)
    requires multiset(But(d, best)) == multiset(sorted[1..])
    ensures MaxBut(d, best, |d|) == sorted[1]
  {
    var others, tail, second := But(d, best), sorted[1..], MaxBut(d, best, |d|);
    ButIndex(d, best, 0);
    hide MaxBut;
    assert second >= sorted[1] by {
      var i := MultisetHas(tail, others, 0);
      ButIndex(d, best, i);
    }
    if second > 0 {
      var k :| 0 <= k < |d| && k != best && d[k] == second;
      var m := if k < best then k else k - 1;
      ButIndex(d, best, m);
      hide But;
      var n := MultisetHas(others, tail, m);
    }
  }

  /** The descending sort the source takes the two largest masses from gives these diagnostics. */
  lemma DiagnoseIsSortedPair(d: Distribution, sorted: seq<U32>)
    requires multiset(sorted) == multiset(d) && Descending(sorted)
    ensures |sorted| == |d|
    ensures Diagnose(d) == Diagnostics(sorted[0], sorted[0] - sorted[1], sorted[0] == sorted[1])
  {
    assert |sorted| == |multiset(sorted)| == |d|;
    var best := ArgMax(d);
    var i := MultisetHas(sorted, d, 0);
    var j := MultisetHas(d, sorted, best);
    DropAt(d, best);
    DropAt(sorted, 0);
    assert But(sorted, 0) == sorted[1..];
    SecondOfSorted(d, sorted, best);
  }

  /** `sum(i * mass[i])` from index `from` on. */
  function Level(d: seq<U32>, from: nat): nat
    requires from <= |d|
    decreases |d| - from
  {
    if from == |d| then 0 else from * d[from] + Level(d, from + 1)
  }

  lemma ShareOf(j: nat, k: nat, a: nat, b: nat)
    requires j <= k
    ensures j * a + k * b <= k * (a + b)
  {
  }

  lemma {:induction false} LevelBound(d: seq<U32>, from: nat)
    requires from <= |d| && 1 <= |d|
    ensures Level(d, from) <= (|d| - 1) * Sum(d[from..])
    decreases |d| - from
  {
    if from < |d| {
      LevelBound(d, from + 1);
      assert d[from..][1..] == d[from + 1..];
      SumNonNegative(d[from + 1..]);
      ShareOf(from, |d| - 1, d[from], Sum(d[from + 1..]));
    }
  }

  function ExpectedLevel(d: Distribution): (r: U64)
    ensures r <= (|d| - 1) * PPM
  {
    LevelBound(d, 0);
    assert d[0..] == d;
    Level(d, 0)
  }

  function MeanPpm(d: Distribution): (r: U32)
    ensures r <= PPM
  {
    var n, k := ExpectedLevel(d), |d| - 1;
    assert (n + k / 2) / k <= PPM by {
      assert n + k / 2 < k * (PPM + 1);
    }
    (n + k / 2) / k
  }

  function Tail(d: Distribution, from: nat): Fallible<nat> {
    if from >= |d| then Err(Invalid("tail bin")) else Ok(SumWithinTail(d, from))
  }

  function SumWithinTail(d: Distribution, from: nat): (r: nat)
    requires from < |d|
    ensures r == Sum(d[from..])
  {
    SumNonNegative(d[from..]);
    Sum(d[from..])
  }

  function Ids(os: seq<OptionDef>): (r: seq<Blob>)
    ensures |r| == |os|
  {
    seq(|os|, i requires 0 <= i < |os| => os[i].id)
  }

  function Value(s: Schema, d: Distribution): Fallible<DecisionValue> {
    if !s.primitive.CountValid(|d|) || |s.options| != |d| then Err(BindingMismatch) else
    match s.primitive
    case Choice => Ok(ChoiceValue(Ids(s.options), d, Ids(s.options)[ArgMax(d)]))
    case Noul => Ok(NoulValue(d[0], d[1]))
    case Score => Ok(ScoreValue(Ids(s.options), d, ExpectedLevel(d), MeanPpm(d)))
  }

  /** Recomputes every redundant field of a decoded value. */
  function ValidateValue(s: Schema, v: DecisionValue): (r: Fallible<Distribution>)
    ensures r.Ok? ==> |s.options| == |r.value|
  {
    var d :- NewDistribution(v.Masses());
    var again :- Value(s, d);
    if again != v then Err(BindingMismatch) else Ok(d)
  }

  /** Validation accepts exactly the values the encoder writes, and recovers the distribution. */
  lemma ValidateValueExact(s: Schema, v: DecisionValue, d: Distribution)
    ensures ValidateValue(s, v) == Ok(d) <==> Value(s, d) == Ok(v)
  {
    if Value(s, d) == Ok(v) {
      assert v.Masses() == d;
    }
  }

  // ----- largest-remainder apportionment, over exact reals ---------------------------------

  function Scaled(p: seq<real>): (r: seq<real>)
    ensures |r| == |p|
  {
    seq(|p|, i requires 0 <= i < |p| => p[i] * PPM as real)
  }

  function Floors(x: seq<real>): (r: seq<int>)
    ensures |r| == |x| && forall i | 0 <= i < |x| :: r[i] as real <= x[i] < r[i] as real + 1.0
  {
    seq(|x|, i requires 0 <= i < |x| => x[i].Floor)
  }

  function Remainder(x: seq<real>, i: nat): (r: real)
    requires i < |x|
    ensures 0.0 <= r < 1.0
  {
    x[i] - x[i].Floor as real
  }

  /** `a` is ranked no later than `b`: larger remainder first, then smaller index. */
  predicate Ranked(x: seq<real>, a: nat, b: nat)
    requires a < |x| && b < |x|
  {
    Remainder(x, a) > Remainder(x, b) || (Remainder(x, a) == Remainder(x, b) && a <= b)
  }

  ghost predicate IsRanking(x: seq<real>, order: seq<nat>) {
    && (forall k | 0 <= k < |order| :: order[k] < |x|)
    && (forall i, j | 0 <= i < j < |order| :: order[i] != order[j] && Ranked(x, order[i], order[j]))
  }

  /** The guard of `apportion`: the only inputs it turns away. */
  predicate Admissible(p: seq<real>) {
    && 2 <= |p| <= 7
    && (forall i | 0 <= i < |p| :: 0.0 <= p[i] <= 1.0)
    && -0.00000001 <= SumReal(p) - 1.0 <= 0.00000001
  }

  function SquaredError(w: seq<int>, x: seq<real>): real
    requires |w| == |x|
  {
    if w == [] then 0.0 else
    Times(w[0] as real - x[0], w[0] as real - x[0]) + SquaredError(w[1..], x[1..])
  }

  lemma {:induction false} ScaledSum(p: seq<real>)
    ensures SumReal(Scaled(p)) == SumReal(p) * PPM as real
  {
    if p != [] {
      assert Scaled(p)[1..] == Scaled(p[1..]);
      ScaledSum(p[1..]);
    }
  }

  lemma {:induction false} FloorSum(x: seq<real>)
    ensures Sum(Floors(x)) as real <= SumReal(x) <= Sum(Floors(x)) as real + |x| as real
  {
    if x != [] {
      assert Floors(x)[1..] == Floors(x[1..]);
      FloorSum(x[1..]);
    }
  }

  /** Past the guard the floors leave between zero and `|p|` units to hand out. */
  lemma LeftoverBound(p: seq<real>)
    requires Admissible(p)
    ensures 0 <= PPM - Sum(Floors(Scaled(p))) <= |p|
  {
    ScaledSum(p);
    FloorSum(Scaled(p));
    var used, t := Sum(Floors(Scaled(p))), SumReal(p) * PPM as real;
    assert PPM as real - 0.01 <= t <= PPM as real + 0.01;
  }

  lemma InsertRanked(x: seq<real>, order: seq<nat>, at: nat, a: nat)
    requires IsRanking(x, order) && at <= |order| && a < |x| && a !in order
    requires at > 0 ==> Ranked(x, order[at - 1], a)
    requires forall k | at <= k < |order| :: Ranked(x, a, order[k])
    ensures IsRanking(x, order[..at] + [a] + order[at..])
  {
    forall k | 0 <= k < at ensures Ranked(x, order[k], a) {
      assert k < at - 1 ==> Ranked(x, order[k], order[at - 1]);
    }
  }

  method Rank(x: seq<real>) returns (order: seq<nat>)
    ensures |order| == |x| && IsRanking(x, order)
  {
    order := [];
    for a := 0 to |x|
      invariant |order| == a && IsRanking(x, order)
      invariant forall k | 0 <= k < a :: order[k] < a
    {
      var at := |order|;
      while at > 0 && !Ranked(x, order[at - 1], a)
        invariant 0 <= at <= |order|
        invariant forall k | at <= k < |order| :: Ranked(x, a, order[k])
      {
        at := at - 1;
      }
      InsertRanked(x, order, at, a);
      order := order[..at] + [a] + order[at..];
    }
  }

  /** What the increments made so far have done. */
  ghost predicate Incremented(base: seq<int>, mass: seq<int>, chosen: seq<nat>) {
    && |mass| == |base|
    && forall i | 0 <= i < |base| :: mass[i] == if i in chosen then base[i] + 1 else base[i]
  }

  /** Per-entry optimality: moving one unit between any two entries cannot help. */
  ghost predicate Balanced(m: seq<int>, x: seq<real>)
    requires |m| == |x|
  {
    forall i, j | 0 <= i < |m| && 0 <= j < |m| :: (m[i] as real - x[i]) - (m[j] as real - x[j]) <= 1.0
  }

  lemma RankingBalances(x: seq<real>, order: seq<nat>, left: nat, m: seq<int>)
    requires IsRanking(x, order) && |order| == |x| && left <= |x|
    requires Incremented(Floors(x), m, order[..left])
    ensures Balanced(m, x)
  {
    forall i, j | 0 <= i < |m| && 0 <= j < |m|
      ensures (m[i] as real - x[i]) - (m[j] as real - x[j]) <= 1.0
    {
      if i in order[..left] && j !in order[..left] {
        ChosenRankFirst(x, order, left, i, j);
      }
    }
  }

  lemma ChosenRankFirst(x: seq<real>, order: seq<nat>, left: nat, i: nat, j: nat)
    requires IsRanking(x, order) && |order| == |x| && left <= |x|
    requires i < |x| && j < |x| && i in order[..left] && j !in order[..left]
    ensures Ranked(x, i, j)
  {
    RankingCovers(x, order, j);
    var a :| 0 <= a < left && order[a] == i;
    var b :| 0 <= b < |order| && order[b] == j;
    assert b >= left by {
      if b < left {
        assert false;
      }
    }
  }

  /** A duplicate-free list of `|x|` indices below `|x|` contains every one of them. */
  lemma RankingCovers(x: seq<real>, order: seq<nat>, j: nat)
    requires IsRanking(x, order) && |order| == |x| && j < |x|
    ensures j in order
  {
    if j !in order {
      assert Members(order) <= Below(|x|) - {j};
      SubsetSize(Members(order), Below(|x|) - {j});
    }
  }

  ghost function Below(n: nat): (r: set<nat>)
    ensures |r| == n && forall i: nat :: i in r <==> i < n
  {
    if n == 0 then {} else Below(n - 1) + {n - 1}
  }

  ghost function Members(s: seq<nat>): (r: set<nat>)
    ensures forall v: nat :: v in r <==> v in s
    ensures (forall i, j | 0 <= i < j < |s| :: s[i] != s[j]) ==> |r| == |s|
  {
    if s == [] then {} else
    var front, last := s[..|s| - 1], s[|s| - 1];
    assert s == front + [last];
    Members(front) + {last}
  }

  lemma {:induction false} SubsetSize(a: set<nat>, b: set<nat>)
    requires a <= b
    ensures |a| <= |b|
  {
    if a != {} {
      var v :| v in a;
      SubsetSize(a - {v}, b - {v});
    }
  }

  lemma SquareStep(q: real, d: real, slope: real)
    requires slope == q + 2.0 * d
    ensures Times(q + d, q + d) - Times(d, d) == Times(q, slope)
  {
  }

  lemma SlopeBeatsPrice(q: real, slope: real, price: real)
    requires (q >= 1.0 && slope >= price) || (q <= -1.0 && slope <= price) || q == 0.0
    ensures Times(q, slope) >= Times(q, price)
  {
    if q <= -1.0 {
      assert (-q) * slope <= (-q) * price;
      assert (-q) * slope == -(q * slope) && (-q) * price == -(q * price);
    }
  }

  /** Every integer step away from `m` costs at least its share of a common price. */
  lemma PricedStep(k: int, d: real, price: real)
    requires 2.0 * d - 1.0 <= price <= 2.0 * d + 1.0
    ensures Times(k as real + d, k as real + d) - Times(d, d) >= Times(k as real, price)
  {
    hide Times;
    var q := k as real;
    SquareStep(q, d, q + 2.0 * d);
    SlopeBeatsPrice(q, q + 2.0 * d, price);
  }

  lemma Distribute(price: real, a: int, b: int)
    ensures Times((a + b) as real, price) == Times(a as real, price) + Times(b as real, price)
  {
    assert (a + b) as real == a as real + b as real;
  }

  lemma {:induction false} PricedError(w: seq<int>, m: seq<int>, x: seq<real>, price: real)
    requires |w| == |m| == |x|
    requires forall i | 0 <= i < |m| :: 2.0 * (m[i] as real - x[i]) - 1.0 <= price <= 2.0 * (m[i] as real - x[i]) + 1.0
    ensures SquaredError(w, x) - SquaredError(m, x) >= Times((Sum(w) - Sum(m)) as real, price)
  {
    if w != [] {
      hide Times;
      PricedError(w[1..], m[1..], x[1..], price);
      var k, rest := w[0] - m[0], Sum(w[1..]) - Sum(m[1..]);
      PricedStep(k, m[0] as real - x[0], price);
      assert k as real + (m[0] as real - x[0]) == w[0] as real - x[0];
      Distribute(price, k, rest);
      assert k + rest == Sum(w) - Sum(m);
    } else {
      assert m == [] && x == [];
    }
  }

  lemma {:induction false} LargestExcess(m: seq<int>, x: seq<real>) returns (i: nat)
    requires |m| == |x| > 0
    ensures i < |m| && forall j | 0 <= j < |m| :: m[j] as real - x[j] <= m[i] as real - x[i]
  {
    i := 0;
    for n := 1 to |m|
      invariant i < n && forall j | 0 <= j < n :: m[j] as real - x[j] <= m[i] as real - x[i]
    {
      if m[n] as real - x[n] > m[i] as real - x[i] {
        i := n;
      }
    }
  }

  /** A balanced vector is a least-squares rounding among ALL integer vectors of its sum. */
  lemma BalancedIsOptimal(w: seq<int>, m: seq<int>, x: seq<real>)
    requires |w| == |m| == |x| > 0 && Sum(w) == Sum(m) && Balanced(m, x)
    ensures SquaredError(m, x) <= SquaredError(w, x)
  {
    var top := LargestExcess(m, x);
    PricedError(w, m, x, 2.0 * (m[top] as real - x[top]) - 1.0);
  }

  /** Largest-remainder rounding, as stated for the caller. */
  ghost predicate Apportioned(p: seq<real>, mass: seq<int>) {
    var x := Scaled(p);
    && |mass| == |p| && Sum(mass) == PPM
    && (forall i | 0 <= i < |p| :: mass[i] == x[i].Floor || mass[i] == x[i].Floor + 1)
    && (forall i, j | 0 <= i < |p| && 0 <= j < |p| && p[i] > p[j] :: mass[i] >= mass[j])
    && (forall w: seq<int> | |w| == |p| && Sum(w) == PPM :: SquaredError(mass, x) <= SquaredError(w, x))
  }

  lemma OrderKept(p: seq<real>, order: seq<nat>, left: nat, m: seq<int>, i: nat, j: nat)
    requires IsRanking(Scaled(p), order) && |order| == |p| && left <= |p|
    requires Incremented(Floors(Scaled(p)), m, order[..left])
    requires i < |p| && j < |p| && p[i] > p[j]
    ensures m[i] >= m[j]
  {
    var x := Scaled(p);
    assert x[i] > x[j];
    if j in order[..left] && i !in order[..left] {
      ChosenRankFirst(x, order, left, j, i);
    }
  }

  lemma FinishApportion(p: seq<real>, order: seq<nat>, left: nat, m: seq<int>)
    requires Admissible(p) && IsRanking(Scaled(p), order) && |order| == |p| && left <= |p|
    requires Incremented(Floors(Scaled(p)), m, order[..left]) && Sum(m) == PPM
    ensures Apportioned(p, m)
    ensures forall i | 0 <= i < |m| :: 0 <= m[i] <= PPM
  {
    MassRange(p, order, left, m);
    var x := Scaled(p);
    RankingBalances(x, order, left, m);
    hide Balanced, SquaredError, IsRanking, Sum;
    forall w: seq<int> | |w| == |p| && Sum(w) == PPM ensures SquaredError(m, x) <= SquaredError(w, x) {
      BalancedIsOptimal(w, m, x);
    }
    forall i, j | 0 <= i < |p| && 0 <= j < |p| && p[i] > p[j] ensures m[i] >= m[j] {
      OrderKept(p, order, left, m, i, j);
    }
  }

  lemma MassRange(p: seq<real>, order: seq<nat>, left: nat, m: seq<int>)
    requires Admissible(p) && |order| == |p| && left <= |p|
    requires Incremented(Floors(Scaled(p)), m, order[..left]) && Sum(m) == PPM
    ensures forall i | 0 <= i < |m| :: 0 <= m[i] <= PPM
  {
    forall i | 0 <= i < |m| ensures m[i] >= 0 {
      assert Scaled(p)[i] >= 0.0;
    }
    forall i | 0 <= i < |m| ensures m[i] <= PPM {
      SumWithin(m, i);
    }
  }

  /** One unit each to the first `left` indices of the order. */
  method HandOut(floors: seq<int>, order: seq<nat>, left: nat) returns (mass: seq<int>)
    requires left <= |order|
    requires forall k | 0 <= k < |order| :: order[k] < |floors|
    requires forall j, k | 0 <= j < k < |order| :: order[j] != order[k]
    ensures Incremented(floors, mass, order[..left]) && Sum(mass) == Sum(floors) + left
  {
    mass := floors;
    for k := 0 to left
      invariant Incremented(floors, mass, order[..k])
      invariant Sum(mass) == Sum(floors) + k
    {
      var i := order[k];
      SumUpdate(mass, i, mass[i] + 1);
      assert order[..k + 1] == order[..k] + [i];
      assert i !in order[..k];
      mass := mass[i := mass[i] + 1];
    }
  }

  method Apportion(p: seq<real>) returns (r: Fallible<Distribution>)
    ensures Admissible(p) ==> r.Ok? && Apportioned(p, r.value)
    ensures !Admissible(p) ==> r == Err(Numeric)
  {
    if !(2 <= |p| <= 7) || exists i | 0 <= i < |p| :: p[i] < 0.0 || p[i] > 1.0 {
      return Err(Numeric);
    }
    var sum := SumReal(p);
    if sum - 1.0 > 0.00000001 || 1.0 - sum > 0.00000001 {
      return Err(Numeric);
    }
    var x := Scaled(p);
    var mass := Floors(x);
    var used := Sum(mass);
    LeftoverBound(p);
    if used > PPM {
      return Err(Numeric);
    }
    var left := PPM - used;
    if left > |mass| {
      return Err(Numeric);
    }
    var order := Rank(x);
    mass := HandOut(mass, order, left);
    FinishApportion(p, order, left, mass);
    var units: seq<U32> := seq(|mass|, i requires 0 <= i < |mass| => mass[i]);
    assert units == mass;
    r := NewDistribution(units);
  }
}
