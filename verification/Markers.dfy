/**
 The last decision layer computes only the rows the scorer reads (crates/laya-candle/src/lib.rs and
 quantized.rs). Row operators are arbitrary and may fail, as quantizing a non-finite row does;
 a failure is `None`.
 */
module Markers {
  import opened Wrappers
  import opened Int8

  // ----- rows -------------------------------------------------------------------------------------

  /** A row operator over all rows; one failing row fails the whole. */
  function MapRows<R, U>(f: R -> Option<U>, rows: seq<R>): (m: Option<seq<U>>)
    ensures m.Some? <==> forall i | 0 <= i < |rows| :: f(rows[i]).Some?
    ensures m.Some? ==> |m.value| == |rows| && forall i | 0 <= i < |rows| :: f(rows[i]) == Some(m.value[i])
  {
    if forall i | 0 <= i < |rows| :: f(rows[i]).Some? then
      Some(seq(|rows|, i requires 0 <= i < |rows| => f(rows[i]).value))
    else None
  }

  function AddRows<R>(add: (R, R) -> Option<R>, x: seq<R>, y: seq<R>): (m: Option<seq<R>>)
    ensures m.Some? <==> |x| == |y| && forall i | 0 <= i < |x| :: add(x[i], y[i]).Some?
    ensures m.Some? ==> |m.value| == |x| && forall i | 0 <= i < |x| :: add(x[i], y[i]) == Some(m.value[i])
  {
    if |x| == |y| && forall i | 0 <= i < |x| :: add(x[i], y[i]).Some? then
      Some(seq(|x|, i requires 0 <= i < |x| && |x| == |y| => add(x[i], y[i]).value))
    else None
  }

  predicate InRange(markers: seq<nat>, n: nat) {
    forall r | 0 <= r < |markers| :: markers[r] < n
  }

  /** `index_select` */
  function Select<R>(rows: seq<R>, markers: seq<nat>): (s: seq<R>)
    requires InRange(markers, |rows|)
    ensures |s| == |markers| && forall r | 0 <= r < |markers| :: s[r] == rows[markers[r]]
  {
    seq(|markers|, r requires 0 <= r < |markers| => rows[markers[r]])
  }

  /** Row operators commute with selecting rows, wherever the full computation succeeds. */
  lemma MapSelect<R, U>(f: R -> Option<U>, rows: seq<R>, markers: seq<nat>)
    requires InRange(markers, |rows|) && MapRows(f, rows).Some?
    ensures MapRows(f, Select(rows, markers)) == Some(Select(MapRows(f, rows).value, markers))
  {
    var selected := Select(rows, markers);
    assert forall r | 0 <= r < |selected| :: f(selected[r]).Some?;
    assert MapRows(f, selected).value == Select(MapRows(f, rows).value, markers);
  }

  lemma AddSelect<R>(add: (R, R) -> Option<R>, x: seq<R>, y: seq<R>, markers: seq<nat>)
    requires InRange(markers, |x|) && AddRows(add, x, y).Some?
    ensures AddRows(add, Select(x, markers), Select(y, markers)) == Some(Select(AddRows(add, x, y).value, markers))
  {
    assert AddRows(add, Select(x, markers), Select(y, markers)).value == Select(AddRows(add, x, y).value, markers);
  }

  // ----- attention --------------------------------------------------------------------------------

  /**
   Attention over arbitrary operators. `context` is what a head derives from the whole sequence (its keys and
   values); `attend` is one query row against it; `merge` joins the heads of a row.
   */
  datatype Attention<!R, !Y, !C, !U> = Attention(
    heads: nat, qkv: R -> Option<Y>, context: (nat, seq<Y>) -> Option<C>, attend: (nat, C, Y, nat) -> Option<U>,
    merge: seq<U> -> Option<R>, out: R -> Option<R>)
  {
    /** The contexts of all heads. */
    function Contexts(y: seq<Y>): Option<seq<C>> {
      MapRows<nat, C>((h: nat) => context(h, y), Positions(heads))
    }

    /** One output row before the projection: every head's answer for position `pos`, merged. */
    function Row(y: seq<Y>, contexts: seq<C>, pos: nat): Option<R>
      requires pos < |y| && |contexts| == heads
    {
      match MapRows<nat, U>((h: nat) => if h < heads then attend(h, contexts[h], y[pos], pos) else None, Positions(heads))
      case None => None
      case Some(parts) => merge(parts)
    }

    /** Attention for the query positions `ids` over the keys and values of all of `x`. */
    function At(x: seq<R>, ids: seq<nat>): Option<seq<R>>
      requires InRange(ids, |x|)
    {
      match MapRows(qkv, x)
      case None => None
      case Some(y) =>
        match Contexts(y)
        case None => None
        case Some(contexts) =>
          match MapRows<nat, R>((pos: nat) => if pos < |y| && |contexts| == heads then Row(y, contexts, pos) else None, ids)
          case None => None
          case Some(merged) => MapRows(out, merged)
    }

    function All(x: seq<R>): Option<seq<R>> {
      Everyone(|x|);
      At(x, Positions(|x|))
    }
  }

  function Positions(n: nat): (p: seq<nat>)
    ensures |p| == n && forall i | 0 <= i < n :: p[i] == i
  {
    seq(n, i requires 0 <= i < n => i)
  }

  lemma Everyone(n: nat)
    ensures InRange(Positions(n), n)
  {
  }

  lemma SelectPositions(n: nat, markers: seq<nat>)
    requires InRange(markers, n)
    ensures Select(Positions(n), markers) == markers
  {
  }

  /** Querying marker positions only gives the marker rows of querying every position. */
  lemma AttentionSelect<R, Y, C, U>(a: Attention<R, Y, C, U>, x: seq<R>, markers: seq<nat>)
    requires InRange(markers, |x|) && a.All(x).Some?
    ensures |a.All(x).value| == |x|
    ensures a.At(x, markers) == Some(Select(a.All(x).value, markers))
  {
    var y := MapRows(a.qkv, x).value;
    var contexts := a.Contexts(y).value;
    var row := (pos: nat) => if pos < |y| && |contexts| == a.heads then a.Row(y, contexts, pos) else None;
    SelectPositions(|x|, markers);
    MapSelect(row, Positions(|x|), markers);
    MapSelect(a.out, MapRows(row, Positions(|x|)).value, markers);
  }

  // ----- the decision layer -------------------------------------------------------------------------

  datatype Layer<!R, !Y, !C, !U> = Layer(
    attention: Attention<R, Y, C, U>, norm1: R -> Option<R>, norm2: R -> Option<R>, ff: R -> Option<R>,
    add: (R, R) -> Option<R>, normFirst: bool)
  {
    /** The layer on rows `x`, with attention for the positions `ids`; `selected` are their rows. */
    function On(x: seq<R>, selected: seq<R>, ids: seq<nat>): Option<seq<R>>
      requires InRange(ids, |x|)
    {
      if normFirst then
        match MapRows(norm1, x)
        case None => None
        case Some(normed) => Residual(selected, attention.At(normed, ids))
      else
        match attention.At(x, ids)
        case None => None
        case Some(attended) => PostNorm(selected, attended)
    }

    function Residual(selected: seq<R>, attended: Option<seq<R>>): Option<seq<R>> {
      match attended
      case None => None
      case Some(a) =>
        match AddRows(add, selected, a)
        case None => None
        case Some(h) => FeedForward(h, MapRows(norm2, h))
    }

    /** The feed-forward part with its residual. */
    function FeedForward(h: seq<R>, input: Option<seq<R>>): Option<seq<R>> {
      match input
      case None => None
      case Some(n) =>
        match MapRows(ff, n)
        case None => None
        case Some(o) => AddRows(add, h, o)
    }

    function PostNorm(selected: seq<R>, attended: seq<R>): Option<seq<R>> {
      match AddRows(add, selected, attended)
      case None => None
      case Some(sum) =>
        match MapRows(norm1, sum)
        case None => None
        case Some(h) =>
          match FeedForward(h, Some(h))
          case None => None
          case Some(o) => MapRows(norm2, o)
    }

    /** `forward` */
    function Forward(x: seq<R>): Option<seq<R>> {
      Everyone(|x|);
      On(x, x, Positions(|x|))
    }

    /** `forward_markers` */
    function ForwardMarkers(x: seq<R>, markers: seq<nat>): Option<seq<R>>
      requires InRange(markers, |x|)
    {
      On(x, Select(x, markers), markers)
    }
  }

  lemma FeedForwardSelect<R, Y, C, U>(l: Layer<R, Y, C, U>, h: seq<R>, n: seq<R>, markers: seq<nat>)
    requires |h| == |n| && InRange(markers, |h|) && l.FeedForward(h, Some(n)).Some?
    ensures |l.FeedForward(h, Some(n)).value| == |h|
    ensures l.FeedForward(Select(h, markers), Some(Select(n, markers))) == Some(Select(l.FeedForward(h, Some(n)).value, markers))
  {
    MapSelect(l.ff, n, markers);
    AddSelect(l.add, h, MapRows(l.ff, n).value, markers);
  }

  /** Wherever the full layer succeeds, the marker-only layer gives its marker rows: pre-norm and post-norm alike. */
  lemma MarkerRows<R, Y, C, U>(l: Layer<R, Y, C, U>, x: seq<R>, markers: seq<nat>)
    requires InRange(markers, |x|) && l.Forward(x).Some?
    ensures |l.Forward(x).value| == |x|
    ensures l.ForwardMarkers(x, markers) == Some(Select(l.Forward(x).value, markers))
  {
    if l.normFirst {
      PreNormRows(l, x, markers);
    } else {
      PostNormRows(l, x, markers);
    }
  }

  lemma PreNormRows<R, Y, C, U>(l: Layer<R, Y, C, U>, x: seq<R>, markers: seq<nat>)
    requires InRange(markers, |x|) && l.Forward(x).Some? && l.normFirst
    ensures |l.Forward(x).value| == |x|
    ensures l.ForwardMarkers(x, markers) == Some(Select(l.Forward(x).value, markers))
  {
    var normed := MapRows(l.norm1, x).value;
    AttentionSelect(l.attention, normed, markers);
    var attended := l.attention.All(normed).value;
    AddSelect(l.add, x, attended, markers);
    var h := AddRows(l.add, x, attended).value;
    MapSelect(l.norm2, h, markers);
    FeedForwardSelect(l, h, MapRows(l.norm2, h).value, markers);
  }

  lemma PostNormRows<R, Y, C, U>(l: Layer<R, Y, C, U>, x: seq<R>, markers: seq<nat>)
    requires InRange(markers, |x|) && l.Forward(x).Some? && !l.normFirst
    ensures |l.Forward(x).value| == |x|
    ensures l.ForwardMarkers(x, markers) == Some(Select(l.Forward(x).value, markers))
  {
    AttentionSelect(l.attention, x, markers);
    var attended := l.attention.All(x).value;
    AddSelect(l.add, x, attended, markers);
    var sum := AddRows(l.add, x, attended).value;
    MapSelect(l.norm1, sum, markers);
    var h := MapRows(l.norm1, sum).value;
    FeedForwardSelect(l, h, h, markers);
    MapSelect(l.norm2, l.FeedForward(h, Some(h)).value, markers);
  }

  // ----- the two engines' attention -----------------------------------------------------------------

  /** The float operators of one F32 head: slices of a projected row, a score, softmax over a row of scores, and the weighted sum. */
  datatype F32Head<!Y, !S, !U> = F32Head(
    query: Y -> U, key: Y -> U, value: Y -> U, score: (U, U) -> S, mask: S -> S, softmax: seq<S> -> seq<S>, mix: (seq<S>, seq<U>) -> U)

  /** Score row of one query against every key, masked past `distance`. */
  function F32Scores<Y, S, U>(head: F32Head<Y, S, U>, q: U, keys: seq<U>, pos: nat, distance: Option<nat>): seq<S> {
    seq(|keys|, j requires 0 <= j < |keys| =>
      var s := head.score(q, keys[j]);
      if distance.Some? && (if pos > j then pos - j else j - pos) > distance.value then head.mask(s) else s)
  }

  /** `Attention::forward` and `forward_markers` of the F32 engine: keys and values always cover the whole sequence. */
  function F32Attention<R, Y, S, U>(heads: nat, qkv: R -> Option<Y>, head: nat -> F32Head<Y, S, U>, distance: Option<nat>,
                                    merge: seq<U> -> Option<R>, out: R -> Option<R>): Attention<R, Y, (seq<U>, seq<U>), U>
  {
    Attention(heads, qkv,
              (h: nat, y: seq<Y>) => Some((seq(|y|, j requires 0 <= j < |y| => head(h).key(y[j])), seq(|y|, j requires 0 <= j < |y| => head(h).value(y[j])))),
              (h: nat, c: (seq<U>, seq<U>), row: Y, pos: nat) =>
                Some(head(h).mix(head(h).softmax(F32Scores(head(h), head(h).query(row), c.0, pos, distance)), c.1)),
              merge, out)
  }

  /** Quantized bytes with their scale. */
  type Coded<F> = (seq<I8>, F)

  /** The float operators around the int8 dots of one head. */
  datatype Q8Head<!Y, !F> = Q8Head(
    slice: (nat, Y) -> Coded<F>, dequantize: (nat, nat, Coded<F>) -> seq<F>, quantize: seq<F> -> Option<Coded<F>>,
    columns: seq<I8> -> seq<seq<I8>>, softmax: seq<Option<(int, F, F)>> -> seq<F>, rescale: (int, F, F) -> F)

  datatype Q8Context<F> = Q8Context(q: seq<Coded<F>>, k: seq<Coded<F>>, v: Coded<F>)

  function Concat<F>(rows: seq<seq<F>>): seq<F> {
    if rows == [] then [] else rows[0] + Concat(rows[1..])
  }

  /** Queries and keys are quantized per token, values once per head over the whole sequence. */
  function Q8Prepare<Y, F>(head: Q8Head<Y, F>, y: seq<Y>): Option<Q8Context<F>> {
    var tokens := Positions(|y|);
    var q := MapRows<nat, Coded<F>>((i: nat) => if i < |y| then head.quantize(head.dequantize(0, i, head.slice(0, y[i]))) else None, tokens);
    var k := MapRows<nat, Coded<F>>((i: nat) => if i < |y| then head.quantize(head.dequantize(1, i, head.slice(1, y[i]))) else None, tokens);
    var v := head.quantize(Concat(seq(|y|, i requires 0 <= i < |y| => head.dequantize(2, i, head.slice(2, y[i])))));
    if q.Some? && k.Some? && v.Some? then Some(Q8Context(q.value, k.value, v.value)) else None
  }

  /** One query row: exact integer scores with the scales of query and key (`None` past the distance), softmax, quantized probabilities, exact integer sums over the value columns. */
  function Q8Attend<Y, F>(head: Q8Head<Y, F>, c: Q8Context<F>, pos: nat, distance: Option<nat>): Option<seq<F>> {
    if pos >= |c.q| then None
    else
      var scores := seq(|c.k|, j requires 0 <= j < |c.k| =>
        if distance.Some? && (if pos > j then pos - j else j - pos) > distance.value then None
        else Some((Dot(c.q[pos].0, c.k[j].0, |c.q[pos].0|), c.q[pos].1, c.k[j].1)));
      match head.quantize(head.softmax(scores))
      case None => None
      case Some(p) =>
        var columns := head.columns(c.v.0);
        Some(seq(|columns|, i requires 0 <= i < |columns| => head.rescale(Dot(p.0, columns[i], |p.0|), p.1, c.v.1)))
  }

  /** `Attention::q8`, with or without markers. */
  function Q8Attention<R, Y, F>(heads: nat, qkv: R -> Option<Y>, head: nat -> Q8Head<Y, F>, distance: Option<nat>,
                                merge: seq<seq<F>> -> Option<R>, out: R -> Option<R>): Attention<R, Y, Q8Context<F>, seq<F>>
  {
    Attention(heads, qkv, (h: nat, y: seq<Y>) => Q8Prepare(head(h), y),
              (h: nat, c: Q8Context<F>, _: Y, pos: nat) => Q8Attend(head(h), c, pos, distance), merge, out)
  }

  /** The F32 engine's last layer. */
  lemma F32MarkerRows<R, Y, S, U>(
    heads: nat, qkv: R -> Option<Y>, head: nat -> F32Head<Y, S, U>, merge: seq<U> -> Option<R>, out: R -> Option<R>,
    norm1: R -> Option<R>, norm2: R -> Option<R>, ff: R -> Option<R>, add: (R, R) -> Option<R>, normFirst: bool, x: seq<R>, markers: seq<nat>)
    requires InRange(markers, |x|)
    ensures var l := Layer(F32Attention(heads, qkv, head, None, merge, out), norm1, norm2, ff, add, normFirst);
      l.Forward(x).Some? ==> |l.Forward(x).value| == |x| && l.ForwardMarkers(x, markers) == Some(Select(l.Forward(x).value, markers))
  {
    var l := Layer(F32Attention(heads, qkv, head, None, merge, out), norm1, norm2, ff, add, normFirst);
    if l.Forward(x).Some? {
      MarkerRows(l, x, markers);
    }
  }

  /** The int8 engine's last layer: its exact integer dots included. */
  lemma Q8MarkerRows<R, Y, F>(
    heads: nat, qkv: R -> Option<Y>, head: nat -> Q8Head<Y, F>, merge: seq<seq<F>> -> Option<R>, out: R -> Option<R>,
    norm1: R -> Option<R>, norm2: R -> Option<R>, ff: R -> Option<R>, add: (R, R) -> Option<R>, normFirst: bool, x: seq<R>, markers: seq<nat>)
    requires InRange(markers, |x|)
    ensures var l := Layer(Q8Attention(heads, qkv, head, None, merge, out), norm1, norm2, ff, add, normFirst);
      l.Forward(x).Some? ==> |l.Forward(x).value| == |x| && l.ForwardMarkers(x, markers) == Some(Select(l.Forward(x).value, markers))
  {
    var l := Layer(Q8Attention(heads, qkv, head, None, merge, out), norm1, norm2, ff, add, normFirst);
    if l.Forward(x).Some? {
      MarkerRows(l, x, markers);
    }
  }
}
