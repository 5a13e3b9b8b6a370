/**
 The calls of client-held inference (tools/client_held_query.py, tools/query_transport.py): the widths a client
 asks for, what a transport may do to a call, and what the canister answers.
 */
module QueryCalls {
  import opened Arithmetic
  import opened Wrappers
  import opened Numbers
  import opened Grid
  import opened Types
  import opened Bytes
  import opened Inference
  import opened Continuation
  import opened Transport
  import opened Queries

  // ----- widths -----------------------------------------------------------------------------------

  /** The starting width of a token count. */
  function Tier(tokens: nat, int8: bool): (w: nat)
    ensures 3 <= w <= 16
  {
    if tokens <= 16 then 16
    else if tokens <= 43 then if int8 then 8 else 9
    else if tokens <= 65 then 6
    else if tokens <= 72 then if int8 then 5 else 6
    else if tokens <= (if int8 then 90 else 96) then 4
    else 3
  }

  /** `auto_width`; the head phases are merged into one query where the cap allows it. */
  function AutoWidth(tokens: nat, int8: bool, completed: nat, cap: nat): (w: nat)
    requires completed < 32 && cap >= 1
    ensures 1 <= w <= cap && w <= 16 && completed + w <= 32
    ensures w >= Min(Min(Tier(tokens, int8), cap), 32 - completed)
  {
    var width := Min(Tier(tokens, int8), cap);
    var left := if completed <= 28 then 28 - completed else 0;
    if left == 0 || left == 1 || left + 2 <= width then Min(Min(16, cap), 32 - completed)
    else Min(width, 32 - completed)
  }

  /** The one model whose phases the automatic widths were measured on. */
  const AUTO_BUNDLE: Bytes32 :=
    [187, 112, 179, 240, 242, 128, 107, 239, 93, 75, 103, 15, 68, 187, 96, 104, 146, 6, 127, 192, 235, 217, 40, 189, 104, 43, 152, 235, 219, 45, 192, 146]

  /** `encode_input` takes these inputs only. */
  predicate InputOk(x: TokenInput) {
    1 <= |x.inputIds| <= 128 && 2 <= |x.markers| <= 7 && x.qtypeId < 3
  }

  // ----- calls ------------------------------------------------------------------------------------

  datatype Request =
    | InferDirect(input: TokenInput)
    | BeginOne(input: TokenInput)
    | BeginMany(input: TokenInput, steps: nat)
    | ContinueFrom(state: seq<U8>, steps: nat)

  /** What a call came back with: a decoded reply, a reply that is an error or unreadable, or an exception. */
  datatype Reply = Answer(progress: QueryProgress) | Refused | Raised(instructionLimit: bool, transient: bool)

  /** The transport: any reply to any request at any time. */
  type Network = (nat, Request) -> Reply

  datatype Progress = Progress(done: bool, state: seq<U8>, completed: nat, total: nat, logits: seq<U32>, bundle: Bytes32, int8: bool)

  predicate LogitsOk(logits: seq<U32>) {
    logits != [] && AllFinite(logits)
  }

  /** `decode_progress` */
  function Decode(z: Zlib, q: QueryProgress): Option<Progress> {
    match q
    case Done(logits, completed, total) =>
      if LogitsOk(logits) then Some(Progress(true, [], completed, total, logits, NoBundle(), false)) else None
    case Continue(state, completed, total) =>
      match Inspected(z, state)
      case None => None
      case Some((header, _)) =>
        HeaderLength(z, state);
        var int8 := header[..4] == LAYI;
        if Read(header, 4) != 1 || Read(header, 8) != (if int8 then QUANTIZED_REVISION else INFERENCE_REVISION) then None
        else if Read(header, 44) != completed then None
        else Some(Progress(false, state, completed, total, [], header[12..44], int8))
  }

  function NoBundle(): Bytes32 {
    seq(32, _ => 0)
  }

  lemma HeaderLength(z: Zlib, wire: seq<U8>)
    ensures Inspected(z, wire).Some? ==> |Inspected(z, wire).value.0| == HEADER
  {
    hide Unpack;
  }

  /** The direct reply carries logits only; the client supplies the phase counts. */
  function DecodeDirect(q: QueryProgress): Option<Progress> {
    if q.Done? && LogitsOk(q.logits) then Some(Progress(true, [], 32, 32, q.logits, NoBundle(), false)) else None
  }

  /** The width a request asks for, where it has one. */
  function WidthOf(r: Request): nat {
    match r
    case InferDirect(_) => 1
    case BeginOne(_) => 1
    case BeginMany(_, k) => k
    case ContinueFrom(_, k) => k
  }

  /** The `i`-th call was stopped by the instruction limit at a width that can still be halved. */
  predicate Rejected(net: Network, i: nat, r: Request) {
    net(i, r).Raised? && net(i, r).instructionLimit && WidthOf(r) > 1
  }

  /** How many calls on record were. */
  function Rejections(net: Network, log: seq<Request>): nat {
    if log == [] then 0
    else Rejections(net, log[..|log| - 1]) + if Rejected(net, |log| - 1, log[|log| - 1]) then 1 else 0
  }

  lemma OneMoreCall(net: Network, log: seq<Request>, r: Request)
    ensures Rejections(net, log + [r]) == Rejections(net, log) + if Rejected(net, |log|, r) then 1 else 0
  {
    assert (log + [r])[..|log|] == log;
  }

  /** A call that failed for any other reason. */
  predicate Stumbles(net: Network, i: nat, r: Request) {
    net(i, r).Raised? && !Rejected(net, i, r)
  }

  /** Nothing came back since `from`. */
  ghost predicate Unanswered(net: Network, log: seq<Request>, from: nat) {
    forall i | from <= i < |log| :: net(i, log[i]).Raised?
  }

  function Stumbled(net: Network, log: seq<Request>, from: nat): nat {
    if |log| <= from then 0
    else Stumbled(net, log[..|log| - 1], from) + if Stumbles(net, |log| - 1, log[|log| - 1]) then 1 else 0
  }

  /** Failures are transient, and between two answers there are at most `retries` of them, whatever is asked. */
  ghost predicate Patient(net: Network, retries: nat) {
    && (forall i: nat, r: Request :: Stumbles(net, i, r) ==> net(i, r).transient)
    && (forall log: seq<Request>, from: nat | from <= |log| && Unanswered(net, log, from) :: Stumbled(net, log, from) <= retries)
  }

  lemma OneMoreFailure(net: Network, log: seq<Request>, r: Request, from: nat)
    requires from <= |log| && Unanswered(net, log, from) && net(|log|, r).Raised?
    ensures Unanswered(net, log + [r], from)
    ensures Stumbled(net, log + [r], from) == Stumbled(net, log, from) + if Stumbles(net, |log|, r) then 1 else 0
  {
    hide Stumbles;
    assert (log + [r])[..|log|] == log;
  }

  /** On a patient network a failed call is one to halve, or one of the transient failures left. */
  lemma Failing(net: Network, log: seq<Request>, r: Request, from: nat, retries: nat)
    requires from <= |log| && Unanswered(net, log, from) && net(|log|, r).Raised?
    ensures Unanswered(net, log + [r], from)
    ensures Stumbled(net, log + [r], from) == Stumbled(net, log, from) + if Rejected(net, |log|, r) then 0 else 1
    ensures Patient(net, retries) && !Rejected(net, |log|, r) ==> net(|log|, r).transient && Stumbled(net, log, from) < retries
  {
    hide Stumbled, Unanswered, Rejected;
    OneMoreFailure(net, log, r, from);
    if Patient(net, retries) {
      assert Stumbled(net, log + [r], from) <= retries;
    }
  }

  /** What `h` halvings leave of sixteen. */
  predicate Room(h: nat, limit: nat) {
    h <= 4 && 1 <= limit <= if h == 0 then 16 else if h == 1 then 8 else if h == 2 then 4 else if h == 3 then 2 else 1
  }

  lemma HalvingFits(h: nat, limit: nat, steps: nat)
    requires Room(h, limit) && 1 < steps <= limit
    ensures Room(h + 1, steps / 2)
  {
  }

  /** Half the width, `h` times over. */
  function Halved(width: nat, h: nat): nat {
    if h == 0 then width else Halved(width, h - 1) / 2
  }

  /** The request a session in this position makes at this width. */
  function Ask(input: TokenInput, direct: bool, fused: bool, progress: Option<Progress>, steps: nat): Request {
    if direct then InferDirect(input)
    else if progress.None? then if fused then BeginMany(input, steps) else BeginOne(input)
    else ContinueFrom(progress.value.state, steps)
  }

  /** Which calls of a session are halved. */
  lemma AskRejected(net: Network, i: nat, input: TokenInput, direct: bool, fused: bool, progress: Option<Progress>, w: nat)
    ensures var r := Ask(input, direct, fused, progress, w);
      Rejected(net, i, r) <==>
      net(i, r).Raised? && net(i, r).instructionLimit && !direct && (progress.Some? || fused) && w > 1
  {
  }

  lemma AtMostFour(h: nat, limit: nat)
    requires Room(h, limit)
    ensures h <= 4
  {
  }

  /** The widths one `advance` may ask for: a retry repeats the very same request, a halving changes its width only. */
  ghost predicate SameAsk(r: Request, input: TokenInput, direct: bool, fused: bool, progress: Option<Progress>, limit: nat) {
    exists w: nat :: 1 <= w <= limit && r == Ask(input, direct, fused, progress, w)
  }

  lemma AsksSame(input: TokenInput, direct: bool, fused: bool, progress: Option<Progress>, w: nat, limit: nat)
    requires 1 <= w <= limit
    ensures SameAsk(Ask(input, direct, fused, progress, w), input, direct, fused, progress, limit)
  {
    hide Ask;
  }

  /** The calls on record since `from` repeat one request, up to a smaller width. */
  ghost predicate SameAsks(log: seq<Request>, from: nat, input: TokenInput, direct: bool, fused: bool, progress: Option<Progress>, limit: nat) {
    from <= |log| && forall i | from <= i < |log| :: SameAsk(log[i], input, direct, fused, progress, limit)
  }

  lemma NoneYet(net: Network, log: seq<Request>, input: TokenInput, direct: bool, fused: bool, progress: Option<Progress>, limit: nat)
    ensures Unanswered(net, log, |log|) && Stumbled(net, log, |log|) == 0
    ensures SameAsks(log, |log|, input, direct, fused, progress, limit)
  {
  }

  lemma OneMoreAsk(log: seq<Request>, from: nat, input: TokenInput, direct: bool, fused: bool, progress: Option<Progress>, limit: nat, w: nat)
    requires SameAsks(log, from, input, direct, fused, progress, limit) && 1 <= w <= limit
    ensures SameAsks(log + [Ask(input, direct, fused, progress, w)], from, input, direct, fused, progress, limit)
  {
    hide Ask, SameAsk;
    AsksSame(input, direct, fused, progress, w, limit);
  }

  // ----- a faithful canister ------------------------------------------------------------------------

  /** What the canister's endpoints answer. */
  function Serve<H>(z: Zlib, f: Format<H>, compressed: bool, r: Request): Fallible<QueryProgress> {
    match r
    case InferDirect(x) =>
      var logits :- Infer(f.engine, x);
      Ok(Done(logits, f.engine.steps, f.engine.steps))
    case BeginOne(x) => if compressed then Transported(z, f, Some(x), [], 0) else QueryBegin(f, x)
    case BeginMany(x, k) =>
      if !(1 <= k <= 16) then Err(Invalid("query max_steps must be 1..=16"))
      else if compressed then Transported(z, f, Some(x), [], k) else QueryBeginBatch(f, x, k)
    case ContinueFrom(b, k) => if compressed then Transported(z, f, None, b, k) else QueryContinue(f, b, k)
  }

  /** Replies may be lost or refused, but an answer is the canister's answer to that request. */
  ghost predicate Faithful<H>(net: Network, z: Zlib, f: Format<H>, compressed: bool) {
    forall i: nat, r: Request :: net(i, r).Answer? ==> Serve(z, f, compressed, r) == Ok(net(i, r).progress)
  }

  /** What the canister answers is never refused or lost as unreadable. */
  ghost predicate Willing<H>(net: Network, z: Zlib, f: Format<H>, compressed: bool) {
    forall i: nat, r: Request :: net(i, r).Refused? ==> Serve(z, f, compressed, r).Err?
  }

  /** If the bytes can be unpacked and read at all, they are the computation of `x` stopped after `n` phases. */
  ghost predicate HeldWire<H>(z: Zlib, f: Format<H>, compressed: bool, x: TokenInput, b: seq<U8>, n: nat) {
    if compressed then Unpack(z, b).Ok? ==> HeldAt(f, x, Unpack(z, b).value, n) else HeldAt(f, x, b, n)
  }

  /** What the client holds is true of `x`. */
  ghost predicate TrueProgress<H>(z: Zlib, f: Format<H>, compressed: bool, x: TokenInput, p: Progress) {
    if p.done then Infer(f.engine, x) == Ok(p.logits) else HeldWire(z, f, compressed, x, p.state, p.completed)
  }

  ghost predicate TrueAnswer<H>(z: Zlib, f: Format<H>, compressed: bool, x: TokenInput, q: QueryProgress) {
    && (q.Done? ==> Infer(f.engine, x) == Ok(q.logits))
    && (q.Continue? ==> HeldWire(z, f, compressed, x, q.state, q.completed))
  }

  lemma PackedTrue<H>(z: Zlib, f: Format<H>, x: TokenInput, p: QueryProgress)
    requires Lossless(z) && TrueReply(f, x, p) && Packed(z, p).Ok?
    ensures TrueAnswer(z, f, true, x, Packed(z, p).value)
  {
    PackedSame(z, p);
    hide Packed, Unpack, Lossless, Infer, HeldAt;
  }

  lemma PlainTrue<H>(z: Zlib, f: Format<H>, x: TokenInput, p: QueryProgress)
    requires TrueReply(f, x, p)
    ensures TrueAnswer(z, f, false, x, p)
  {
    hide Infer, HeldAt;
  }

  /** Every answer of the canister to a request about `x` is true of `x`. */
  lemma ServeTrue<H(!new)>(z: Zlib, f: Format<H>, compressed: bool, x: TokenInput, progress: Option<Progress>, direct: bool, fused: bool, w: nat)
    requires Sound(f) && Lossless(z)
    requires progress.Some? ==> !progress.value.done && TrueProgress(z, f, compressed, x, progress.value)
    requires Serve(z, f, compressed, Ask(x, direct, fused, progress, w)).Ok?
    ensures TrueAnswer(z, f, compressed, x, Serve(z, f, compressed, Ask(x, direct, fused, progress, w)).value)
  {
    hide Sound, Lossless, Infer, QueryContinue, QueryBegin, QueryBeginBatch, Unpack, HeldAt, Packed, TrueReply;
    if direct {
      hide Serve;
      DirectTrue(z, f, compressed, x);
    } else if progress.None? {
      if fused {
        FirstBatchTrue(z, f, compressed, x, w);
      } else {
        FirstTrue(z, f, compressed, x);
      }
    } else {
      LaterTrue(z, f, compressed, x, progress.value.state, progress.value.completed, w);
    }
  }

  lemma DirectTrue<H>(z: Zlib, f: Format<H>, compressed: bool, x: TokenInput)
    requires Serve(z, f, compressed, InferDirect(x)).Ok?
    ensures TrueAnswer(z, f, compressed, x, Serve(z, f, compressed, InferDirect(x)).value)
  {
    hide Infer;
  }

  lemma FirstTrue<H(!new)>(z: Zlib, f: Format<H>, compressed: bool, x: TokenInput)
    requires Sound(f) && Lossless(z) && Serve(z, f, compressed, BeginOne(x)).Ok?
    ensures TrueAnswer(z, f, compressed, x, Serve(z, f, compressed, BeginOne(x)).value)
  {
    hide Sound, Lossless, QueryBegin, Packed, TrueReply, TrueAnswer;
    BeginTrue(f, x);
    if compressed {
      PackedTrue(z, f, x, QueryBegin(f, x).value);
    } else {
      PlainTrue(z, f, x, QueryBegin(f, x).value);
    }
  }

  lemma FirstBatchTrue<H(!new)>(z: Zlib, f: Format<H>, compressed: bool, x: TokenInput, k: nat)
    requires Sound(f) && Lossless(z) && Serve(z, f, compressed, BeginMany(x, k)).Ok?
    ensures TrueAnswer(z, f, compressed, x, Serve(z, f, compressed, BeginMany(x, k)).value)
  {
    hide Sound, Lossless, QueryBeginBatch, Packed, TrueReply, TrueAnswer;
    BeginBatchTrue(f, x, k);
    if compressed {
      PackedTrue(z, f, x, QueryBeginBatch(f, x, k).value);
    } else {
      PlainTrue(z, f, x, QueryBeginBatch(f, x, k).value);
    }
  }

  lemma LaterTrue<H(!new)>(z: Zlib, f: Format<H>, compressed: bool, x: TokenInput, b: seq<U8>, n: nat, k: nat)
    requires Sound(f) && Lossless(z) && HeldWire(z, f, compressed, x, b, n) && Serve(z, f, compressed, ContinueFrom(b, k)).Ok?
    ensures TrueAnswer(z, f, compressed, x, Serve(z, f, compressed, ContinueFrom(b, k)).value)
  {
    hide Sound, Lossless, QueryContinue, Packed, TrueReply, TrueAnswer, Unpack, HeldAt;
    if compressed {
      ContinueTrue(f, x, Unpack(z, b).value, n, k);
      PackedTrue(z, f, x, QueryContinue(f, Unpack(z, b).value, k).value);
    } else {
      ContinueTrue(f, x, b, n, k);
      PlainTrue(z, f, x, QueryContinue(f, b, k).value);
    }
  }

  lemma Learned<H(!new)>(net: Network, z: Zlib, f: Format<H>, compressed: bool, x: TokenInput, progress: Option<Progress>,
                         direct: bool, fused: bool, w: nat, i: nat, q: QueryProgress, next: Progress)
    requires net(i, Ask(x, direct, fused, progress, w)) == Answer(q) && (progress.Some? ==> !progress.value.done)
    requires Some(next) == if direct then DecodeDirect(q) else Decode(z, q)
    ensures Sound(f) && Lossless(z) && Faithful(net, z, f, compressed)
            && (progress.Some? ==> TrueProgress(z, f, compressed, x, progress.value))
            ==> TrueProgress(z, f, compressed, x, next)
  {
    if Sound(f) && Lossless(z) && Faithful(net, z, f, compressed) && (progress.Some? ==> TrueProgress(z, f, compressed, x, progress.value)) {
      Answered(net, z, f, compressed, i, Ask(x, direct, fused, progress, w));
      ServeTrue(z, f, compressed, x, progress, direct, fused, w);
      hide Sound, Lossless, Serve, Ask, Faithful, HeldWire, Infer;
      DecodedTrue(z, f, compressed, x, q, next);
    }
  }

  lemma Answered<H>(net: Network, z: Zlib, f: Format<H>, compressed: bool, i: nat, r: Request)
    requires Faithful(net, z, f, compressed) && net(i, r).Answer?
    ensures Serve(z, f, compressed, r) == Ok(net(i, r).progress)
  {
  }

  /** Decoding keeps what an answer says, directly or through its header. */
  lemma DecodedTrue<H>(z: Zlib, f: Format<H>, compressed: bool, x: TokenInput, q: QueryProgress, next: Progress)
    requires TrueAnswer(z, f, compressed, x, q) && (Some(next) == DecodeDirect(q) || Some(next) == Decode(z, q))
    ensures TrueProgress(z, f, compressed, x, next)
  {
    hide HeldWire, Infer, Inspected, Read;
  }
}
