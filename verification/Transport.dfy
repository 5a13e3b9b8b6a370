/**
 The lossless wire envelope LAYZ (canisters/decision-engine/src/query_transport.rs) and its Python
 counterpart (tools/query_transport.py). The compressor is any lossless codec.
 */
module Transport {
  import opened Arithmetic
  import opened Wrappers
  import opened Numbers
  import opened Grid
  import opened Types
  import opened Bytes
  import opened Continuation

  const ENVELOPE: nat := 16
  const MAX: nat := MAX_CONTINUATION_BYTES
  const LAYZ: seq<U8> := [76, 65, 89, 90]

  function Malformed(): Error {
    Invalid("query transport envelope")
  }

  // ----- byte planes ------------------------------------------------------------------------------

  /** Every fourth byte from `lane`. */
  function Lane(b: seq<U8>, lane: nat): (p: seq<U8>)
    requires |b| % 4 == 0 && lane < 4
    ensures |p| == |b| / 4
  {
    seq<U8>(|b| / 4, i requires 0 <= i < |b| / 4 => b[4 * i + lane])
  }

  /** The four bytes of each float moved into four planes. */
  function Planes(b: seq<U8>): (p: seq<U8>)
    requires |b| % 4 == 0
    ensures |p| == |b|
  {
    Lane(b, 0) + Lane(b, 1) + Lane(b, 2) + Lane(b, 3)
  }

  /** And back. */
  function Interleave(p: seq<U8>): (b: seq<U8>)
    requires |p| % 4 == 0
    ensures |b| == |p|
  {
    var n := |p| / 4;
    seq<U8>(|p|, k requires 0 <= k < |p| =>
      if k % 4 == 0 then p[k / 4] else if k % 4 == 1 then p[n + k / 4] else if k % 4 == 2 then p[2 * n + k / 4] else p[3 * n + k / 4])
  }

  /** Mutual inverses, for every length that is a multiple of four. */
  lemma PlanesInvert(b: seq<U8>)
    requires |b| % 4 == 0
    ensures Interleave(Planes(b)) == b && Planes(Interleave(b)) == b
  {
    InterleavePlanes(b);
    PlanesInterleave(b);
  }

  lemma PlaneAt(b: seq<U8>, lane: nat, i: nat)
    requires |b| % 4 == 0 && lane < 4 && i < |b| / 4
    ensures Planes(b)[At(lane, i, |b| / 4)] == b[4 * i + lane]
    ensures Interleave(b)[4 * i + lane] == b[At(lane, i, |b| / 4)]
  {
    var n := |b| / 4;
    assert At(lane, i, n) == if lane == 0 then i else if lane == 1 then n + i else if lane == 2 then 2 * n + i else 3 * n + i;
    hide At;
    var k := 4 * i + lane;
    assert k / 4 == i && k % 4 == lane;
  }

  lemma InterleavePlanes(b: seq<U8>)
    requires |b| % 4 == 0
    ensures Interleave(Planes(b)) == b
  {
    forall k | 0 <= k < |b| ensures Interleave(Planes(b))[k] == b[k] {
      PlaneAt(b, k % 4, k / 4);
      PlaneAt(Planes(b), k % 4, k / 4);
      hide Planes, Interleave, At;
    }
  }

  lemma PlanesInterleave(b: seq<U8>)
    requires |b| % 4 == 0
    ensures Planes(Interleave(b)) == b
  {
    forall k | 0 <= k < |b| ensures Planes(Interleave(b))[k] == b[k] {
      PlaneIndex(k, |b| / 4);
      var lane, i := if k < |b| / 4 then 0 else if k < 2 * (|b| / 4) then 1 else if k < 3 * (|b| / 4) then 2 else 3,
      if k < |b| / 4 then k else if k < 2 * (|b| / 4) then k - |b| / 4 else if k < 3 * (|b| / 4) then k - 2 * (|b| / 4) else k - 3 * (|b| / 4);
      PlaneAt(b, lane, i);
      PlaneAt(Interleave(b), lane, i);
      hide Planes, Interleave, At;
    }
  }

  lemma PlaneIndex(k: nat, n: nat)
    requires k < 4 * n
    ensures k < n ==> At(0, k, n) == k
    ensures n <= k < 2 * n ==> At(1, k - n, n) == k
    ensures 2 * n <= k < 3 * n ==> At(2, k - 2 * n, n) == k
    ensures 3 * n <= k ==> At(3, k - 3 * n, n) == k
  {
  }

  // ----- shuffling a state ------------------------------------------------------------------------

  /** Token and marker counts in range, and the floats behind them whole. */
  predicate FloatsAt(raw: seq<U8>, offset: nat) {
    && |raw| >= HEADER
    && 1 <= Read(raw, 52) <= 128 && 2 <= Read(raw, 56) <= 7
    && offset == HEADER + 4 * (Read(raw, 52) + Read(raw, 56)) <= |raw| && (|raw| - offset) % 4 == 0
  }

  /** `float_offset` */
  function FloatOffset(raw: seq<U8>): (r: Fallible<nat>)
    ensures r.Ok? ==> HEADER <= r.value <= |raw| && (|raw| - r.value) % 4 == 0 && raw[..4] == LAYQ
  {
    if |raw| < HEADER || raw[..4] != LAYQ then Err(Malformed())
    else
      var offset := HEADER + 4 * (Read(raw, 52) + Read(raw, 56));
      if FloatsAt(raw, offset) then Ok(offset) else Err(Malformed())
  }

  function Shuffle(raw: seq<U8>, inverse: bool): Fallible<seq<U8>> {
    var offset :- FloatOffset(raw);
    Ok(raw[..offset] + if inverse then Interleave(raw[offset..]) else Planes(raw[offset..]))
  }

  /** The offset is read from bytes a shuffle leaves alone. */
  lemma ShuffleKeepsOffset(raw: seq<U8>, inverse: bool)
    requires FloatOffset(raw).Ok?
    ensures var s := Shuffle(raw, inverse).value;
      |s| == |raw| && s[..HEADER] == raw[..HEADER] && FloatOffset(s) == FloatOffset(raw)
  {
    hide Planes, Interleave, Read, FloatOffset;
    var s := Shuffle(raw, inverse).value;
    assert s[..HEADER] == raw[..HEADER];
    SameOffset(s, raw);
  }

  lemma SameOffset(x: seq<U8>, y: seq<U8>)
    requires |x| == |y| >= HEADER && x[..HEADER] == y[..HEADER]
    ensures FloatOffset(x) == FloatOffset(y)
  {
    hide Read;
    SameHeader(x, y);
  }

  lemma SameHeader(x: seq<U8>, y: seq<U8>)
    requires |x| >= HEADER && |y| >= HEADER && x[..HEADER] == y[..HEADER]
    ensures x[..4] == y[..4] && Read(x, 52) == Read(y, 52) && Read(x, 56) == Read(y, 56)
  {
    hide FromLe;
    assert x[..4] == x[..HEADER][..4] && y[..4] == y[..HEADER][..4];
    assert x[52..56] == x[..HEADER][52..56] && y[52..56] == y[..HEADER][52..56];
    assert x[56..60] == x[..HEADER][56..60] && y[56..60] == y[..HEADER][56..60];
  }

  lemma Unshuffle(raw: seq<U8>)
    requires FloatOffset(raw).Ok?
    ensures Shuffle(Shuffle(raw, false).value, true) == Ok(raw)
  {
    hide FloatOffset, Planes, Interleave;
    ShuffleKeepsOffset(raw, false);
    var offset, s := FloatOffset(raw).value, Shuffle(raw, false).value;
    assert s[..offset] == raw[..offset] && s[offset..] == Planes(raw[offset..]);
    PlanesInvert(raw[offset..]);
    assert raw == raw[..offset] + raw[offset..];
  }

  /** One lane of the `shuffle` loop, in either direction. */
  method ShuffleLane(raw: seq<U8>, offset: nat, n: nat, lane: nat, inverse: bool, result: array<U8>)
    requires offset <= |raw| == result.Length && |raw| - offset == 4 * n && lane < 4
    modifies result
    ensures forall i | 0 <= i < n :: Moved(raw, offset, n, lane, i, inverse, result[..])
    ensures forall k | 0 <= k < offset :: result[k] == old(result[k])
    ensures forall l: nat, i: nat | 0 <= l < 4 && l != lane && i < n && old(Moved(raw, offset, n, l, i, inverse, result[..])) ::
              Moved(raw, offset, n, l, i, inverse, result[..])
  {
    hide At;
    ghost var before := result[..];
    for i := 0 to n
      invariant forall k | 0 <= k < i :: Moved(raw, offset, n, lane, k, inverse, result[..])
      invariant forall k | 0 <= k < offset :: result[k] == before[k]
      invariant forall l: nat, k: nat | 0 <= l < 4 && l != lane && k < n && Moved(raw, offset, n, l, k, inverse, before) ::
                  Moved(raw, offset, n, l, k, inverse, result[..])
    {
      Target(n, lane, i);
      var to, from := Place(lane, i, n, inverse), Place(lane, i, n, !inverse);
      ghost var now := result[..];
      result[offset + to] := raw[offset + from];
      Untouched(raw, offset, n, lane, i, inverse, now, result[..]);
    }
  }

  /** Where a byte of a float goes: into its plane, or back into its float. */
  function Place(lane: nat, i: nat, n: nat, inverse: bool): nat {
    if inverse then 4 * i + lane else At(lane, i, n)
  }

  ghost predicate Moved(raw: seq<U8>, offset: nat, n: nat, lane: nat, i: nat, inverse: bool, result: seq<U8>) {
    var to, from := offset + Place(lane, i, n, inverse), offset + Place(lane, i, n, !inverse);
    to < |result| && from < |raw| && result[to] == raw[from]
  }

  lemma Target(n: nat, lane: nat, i: nat)
    requires lane < 4 && i < n
    ensures At(lane, i, n) < 4 * n && 4 * i + lane < 4 * n
  {
    Monotone(lane + 1, 4, n);
  }

  lemma Distinct(n: nat, lane: nat, i: nat, l: nat, k: nat, inverse: bool)
    requires lane < 4 && l < 4 && i < n && k < n && (lane != l || i != k)
    ensures Place(lane, i, n, inverse) != Place(l, k, n, inverse)
  {
    if !inverse {
      Apart(lane, i, l, k, 1, n);
    }
  }

  lemma Untouched(raw: seq<U8>, offset: nat, n: nat, lane: nat, i: nat, inverse: bool, now: seq<U8>, next: seq<U8>)
    requires lane < 4 && i < n && offset + Place(lane, i, n, inverse) < |now| == |next|
    requires next == now[offset + Place(lane, i, n, inverse) := next[offset + Place(lane, i, n, inverse)]]
    ensures forall l: nat, k: nat | 0 <= l < 4 && k < n && (l != lane || k != i) && Moved(raw, offset, n, l, k, inverse, now) ::
              Moved(raw, offset, n, l, k, inverse, next)
  {
    forall l: nat, k: nat | 0 <= l < 4 && k < n && (l != lane || k != i) && Moved(raw, offset, n, l, k, inverse, now)
      ensures Moved(raw, offset, n, l, k, inverse, next)
    {
      Distinct(n, lane, i, l, k, inverse);
      hide Place;
    }
  }

  /** All four lanes moved is the whole shuffle. */
  lemma AllMoved(raw: seq<U8>, offset: nat, n: nat, inverse: bool, result: seq<U8>)
    requires offset <= |raw| == |result| && |raw| - offset == 4 * n && result[..offset] == raw[..offset]
    requires forall l: nat, i: nat | l < 4 && i < n :: Moved(raw, offset, n, l, i, inverse, result)
    ensures result == raw[..offset] + if inverse then Interleave(raw[offset..]) else Planes(raw[offset..])
  {
    var body, moved := raw[offset..], result[offset..];
    forall k | 0 <= k < 4 * n ensures moved[k] == if inverse then Interleave(body)[k] else Planes(body)[k] {
      if inverse {
        assert Moved(raw, offset, n, k % 4, k / 4, inverse, result);
        MovedIs(raw, offset, n, k % 4, k / 4, inverse, result);
      } else {
        var lane := if k < n then 0 else if k < 2 * n then 1 else if k < 3 * n then 2 else 3;
        var i := if k < n then k else if k < 2 * n then k - n else if k < 3 * n then k - 2 * n else k - 3 * n;
        PlaneIndex(k, n);
        assert Moved(raw, offset, n, lane, i, inverse, result);
        MovedIs(raw, offset, n, lane, i, inverse, result);
      }
      hide At, Planes, Interleave, Moved;
    }
    assert moved == if inverse then Interleave(body) else Planes(body);
    assert result == result[..offset] + moved;
  }

  lemma MovedIs(raw: seq<U8>, offset: nat, n: nat, lane: nat, i: nat, inverse: bool, result: seq<U8>)
    requires offset <= |raw| == |result| && |raw| - offset == 4 * n && lane < 4 && i < n
    requires Moved(raw, offset, n, lane, i, inverse, result)
    ensures Place(lane, i, n, inverse) < 4 * n
    ensures result[offset..][Place(lane, i, n, inverse)]
         == (if inverse then Interleave(raw[offset..]) else Planes(raw[offset..]))[Place(lane, i, n, inverse)]
  {
    hide At, Planes, Interleave;
    Target(n, lane, i);
    PlaneAt(raw[offset..], lane, i);
  }

  /** `shuffle` */
  method ShuffleBytes(raw: seq<U8>, inverse: bool) returns (r: Fallible<seq<U8>>)
    ensures r == Shuffle(raw, inverse)
  {
    hide FloatOffset, Moved, Planes, Interleave;
    var found := FloatOffset(raw);
    if found.Err? {
      return Err(found.error);
    }
    var offset := found.value;
    var n := (|raw| - offset) / 4;
    var result := new U8[|raw|](k requires 0 <= k < |raw| => if k < offset then raw[k] else 0);
    for lane := 0 to 4
      invariant forall k | 0 <= k < offset :: result[k] == raw[k]
      invariant forall l: nat, i: nat | l < lane && i < n :: Moved(raw, offset, n, l, i, inverse, result[..])
    {
      ShuffleLane(raw, offset, n, lane, inverse, result);
    }
    AllMoved(raw, offset, n, inverse, result[..]);
    r := Ok(result[..]);
  }

  // ----- the envelope -----------------------------------------------------------------------------

  /** A compressor: `inflate` gives the output of the stream a string starts with, and how much of it that stream took. */
  datatype Zlib = Zlib(deflate: seq<U8> -> seq<U8>, inflate: seq<U8> -> Option<(seq<U8>, nat)>)

  ghost predicate Lossless(z: Zlib) {
    forall raw: seq<U8> :: z.inflate(z.deflate(raw)) == Some((raw, |z.deflate(raw)|))
  }

  /** Format tag of a state, by its magic. */
  function CodecOf(raw: seq<U8>): Option<U32>
    requires |raw| >= 4
  {
    if raw[..4] == LAYQ then Some(2) else if raw[..4] == LAYI then Some(1) else None
  }

  function Envelope(codec: U32, size: U32, payload: seq<U8>): seq<U8> {
    LAYZ + Le32(1) + Le32(codec) + Le32(size) + payload
  }

  /** `pack` */
  function Pack(z: Zlib, raw: seq<U8>): Fallible<seq<U8>> {
    if |raw| > MAX || |raw| < HEADER then Err(Malformed())
    else if CodecOf(raw).None? then Err(Malformed())
    else
      var prepared :- if CodecOf(raw) == Some(2) then Shuffle(raw, false) else Ok(raw);
      var compressed := z.deflate(prepared);
      if |compressed| + ENVELOPE >= |raw| then Ok(raw)
      else Ok(Envelope(CodecOf(raw).value, |raw|, compressed))
  }

  /** `unpack` */
  function Unpack(z: Zlib, wire: seq<U8>): Fallible<seq<U8>> {
    if |wire| > MAX then Err(TooLong)
    else if !(LAYZ <= wire) then Ok(wire)
    else if |wire| < ENVELOPE then Err(Malformed())
    else
      var codec, size := Read(wire, 8), Read(wire, 12);
      if Read(wire, 4) != 1 || !(codec == 1 || codec == 2) || !(HEADER <= size <= MAX) then Err(Malformed())
      else
        var payload := wire[ENVELOPE..];
        match z.inflate(payload)
        case None => Err(Malformed())
        case Some((raw, used)) =>
          if |raw| != size || used != |payload| then Err(Malformed())
          else if codec == 2 then Shuffle(raw, true)
          else if !(LAYI <= raw) then Err(Malformed())
          else Ok(raw)
  }

  lemma EnvelopeReads(codec: U32, size: U32, payload: seq<U8>)
    ensures var w := Envelope(codec, size, payload);
      && |w| == ENVELOPE + |payload| && LAYZ <= w && Read(w, 4) == 1 && Read(w, 8) == codec && Read(w, 12) == size
      && w[ENVELOPE..] == payload
  {
    hide Le32, Read;
    var w := Envelope(codec, size, payload);
    assert w[4..8] == Le32(1) && w[8..12] == Le32(codec) && w[12..16] == Le32(size);
    ReadLe(w, 4, 1);
    ReadLe(w, 8, codec);
    ReadLe(w, 12, size);
  }

  /** An unpacked state is never mistaken for an envelope. */
  lemma NotEnvelope(raw: seq<U8>)
    requires |raw| >= 4 && CodecOf(raw).Some?
    ensures !(LAYZ <= raw)
  {
    assert raw[3] == raw[..4][3] && LAYQ[3] == 81 && LAYI[3] == 73;
    assert raw[3] != LAYZ[3];
  }

  /** Whatever is packed is unpacked bit for bit, and the wire is never longer than the state. */
  lemma UnpackPack(z: Zlib, raw: seq<U8>)
    requires Lossless(z) && Pack(z, raw).Ok?
    ensures Unpack(z, Pack(z, raw).value) == Ok(raw) && |Pack(z, raw).value| <= |raw| <= MAX
  {
    hide Shuffle, Envelope, Read, FloatOffset;
    var codec := CodecOf(raw).value;
    var prepared := if codec == 2 then Shuffle(raw, false).value else raw;
    NotEnvelope(raw);
    if codec == 2 {
      ShuffledOk(raw);
      Unshuffle(raw);
      ShuffleKeepsOffset(raw, false);
    }
    if |z.deflate(prepared)| + ENVELOPE < |raw| {
      EnvelopeReads(codec, |raw|, z.deflate(prepared));
    }
  }

  /** A state travels compressed exactly when that is shorter. */
  lemma PackIsShorter(z: Zlib, raw: seq<U8>)
    requires Pack(z, raw).Ok?
    ensures var prepared := if LAYQ <= raw then Shuffle(raw, false) else Ok(raw);
      && prepared.Ok? && |Pack(z, raw).value| == Min(|raw|, ENVELOPE + |z.deflate(prepared.value)|)
      && (LAYZ <= Pack(z, raw).value <==> ENVELOPE + |z.deflate(prepared.value)| < |raw|)
  {
    hide Shuffle, FloatOffset;
    NotEnvelope(raw);
  }

  lemma ShuffledOk(raw: seq<U8>)
    requires Shuffle(raw, false).Ok?
    ensures FloatOffset(raw).Ok?
  {
  }

  method PackBytes(z: Zlib, raw: seq<U8>) returns (r: Fallible<seq<U8>>)
    ensures r == Pack(z, raw)
  {
    hide Shuffle;
    if |raw| > MAX || |raw| < HEADER {
      return Err(Malformed());
    }
    var codec: U32;
    if raw[..4] == LAYQ {
      codec := 2;
    } else if raw[..4] == LAYI {
      codec := 1;
    } else {
      return Err(Malformed());
    }
    var prepared := raw;
    if codec == 2 {
      var shuffled := ShuffleBytes(raw, false);
      if shuffled.Err? {
        return Err(shuffled.error);
      }
      prepared := shuffled.value;
    }
    var compressed := z.deflate(prepared);
    if |compressed| + ENVELOPE >= |raw| {
      return Ok(raw);
    }
    var result := LAYZ;
    result := result + Le32(1) + Le32(codec) + Le32(|raw|);
    r := Ok(result + compressed);
  }

  // ----- the Python client ------------------------------------------------------------------------

  /** `restored[lane::4] = planes[lane * n:(lane + 1) * n]` for the four lanes. */
  method Restore(planes: seq<U8>) returns (restored: seq<U8>)
    requires |planes| % 4 == 0
    ensures restored == Interleave(planes)
  {
    hide At;
    var n := |planes| / 4;
    var result := new U8[|planes|](_ => 0);
    for lane := 0 to 4
      invariant forall l: nat, i: nat | l < lane && i < n :: Moved(planes, 0, n, l, i, true, result[..])
    {
      ghost var before := result[..];
      AtFits(lane, 4, 0, n, n);
      AtShift(lane, 0, 0, n);
      var plane := planes[At(lane, 0, n)..At(lane, 0, n) + n];
      for i := 0 to n
        invariant forall l: nat, k: nat | l < lane && k < n :: Moved(planes, 0, n, l, k, true, result[..])
        invariant forall k: nat | k < i :: Moved(planes, 0, n, lane, k, true, result[..])
      {
        Target(n, lane, i);
        AtShift(lane, 0, i, n);
        ghost var now := result[..];
        result[4 * i + lane] := plane[i];
        Untouched(planes, 0, n, lane, i, true, now, result[..]);
      }
    }
    AllMoved(planes, 0, n, true, result[..]);
    restored := result[..];
    assert planes[..0] + Interleave(planes[0..]) == Interleave(planes);
  }

  function ToOption<T>(r: Fallible<T>): Option<T> {
    if r.Ok? then Some(r.value) else None
  }

  /** Python's `unpack_state` accepts what the canister's `unpack` accepts, with the same result. */
  method UnpackState(z: Zlib, wire: seq<U8>) returns (r: Option<seq<U8>>)
    ensures r == ToOption(Unpack(z, wire))
  {
    hide Read, Interleave;
    if |wire| > MAX {
      return None;
    }
    if !(LAYZ <= wire) {
      return Some(wire);
    }
    if |wire| < ENVELOPE {
      return None;
    }
    var version, codec, size := Read(wire, 4), Read(wire, 8), Read(wire, 12);
    if version != 1 || (codec != 1 && codec != 2) || !(HEADER <= size <= MAX) {
      return None;
    }
    var stream := z.inflate(wire[ENVELOPE..]);
    if stream.None? || |stream.value.0| != size || stream.value.1 != |wire[ENVELOPE..]| {
      return None;
    }
    var raw := stream.value.0;
    if codec == 1 {
      return if LAYI <= raw then Some(raw) else None;
    }
    if |raw| < HEADER || raw[..4] != LAYQ {
      return None;
    }
    var tokens: nat, markers: nat := Read(raw, 52), Read(raw, 56);
    var offset := HEADER + 4 * (tokens + markers);
    if !(1 <= tokens <= 128) || !(2 <= markers <= 7) || offset > |raw| || (|raw| - offset) % 4 != 0 {
      return None;
    }
    var restored := Restore(raw[offset..]);
    r := Some(raw[..offset] + restored);
  }

  // ----- inspecting without unpacking ---------------------------------------------------------------

  /** One `decompress` call: output and input positions afterwards, and whether the stream ended; or a zlib error. */
  datatype Pull = Fault | Pulled(emitted: nat, consumed: nat, eof: bool)

  /** A chunked decoder of one payload; `output` is everything it could ever emit. */
  datatype Decoder = Decoder(output: seq<U8>, pull: (nat, nat, nat) -> Pull)

  /** The decoder works through the payload: bounded chunks, always some progress, and the end exactly where the stream ends. */
  ghost predicate Decodes(z: Zlib, payload: seq<U8>, d: Decoder) {
    && (z.inflate(payload).Some? ==> d.output == z.inflate(payload).value.0 && 0 < z.inflate(payload).value.1 <= |payload|)
    && forall emitted: nat, consumed: nat, limit: nat | emitted <= |d.output| && consumed < |payload| && limit > 0 ::
         match d.pull(emitted, consumed, limit)
         case Fault => z.inflate(payload).None?
         case Pulled(e, c, eof) =>
           && emitted <= e <= emitted + limit && e <= |d.output| && consumed <= c <= |payload|
           && (eof || e > emitted || c > consumed)
           && (eof ==> z.inflate(payload) == Some((d.output, c)) && e == |d.output|)
           && (!eof && z.inflate(payload).Some? ==> c < z.inflate(payload).value.1)
  }

  /** The header fields any state must show. */
  predicate GoodHeader(header: seq<U8>, size: nat) {
    && |header| == HEADER && (header[..4] == LAYQ || header[..4] == LAYI)
    && 1 <= Read(header, 52) <= 128 && 2 <= Read(header, 56) <= 7
    && HEADER + 4 * (Read(header, 52) + Read(header, 56)) <= size
    && (header[..4] == LAYQ ==> (size - (HEADER + 4 * (Read(header, 52) + Read(header, 56)))) % 4 == 0)
  }

  /** The chunk loop: at most 65536 bytes at a time, never more than one past the declared size, keeping 60 bytes. */
  method ReadStream(z: Zlib, payload: seq<U8>, size: nat, d: Decoder) returns (r: Option<seq<U8>>)
    requires Decodes(z, payload, d) && size >= HEADER
    ensures r.Some? <==> z.inflate(payload).Some? && |z.inflate(payload).value.0| == size && z.inflate(payload).value.1 == |payload|
    ensures r.Some? ==> r.value == z.inflate(payload).value.0[..HEADER]
  {
    var prefix: seq<U8>, count: nat, consumed: nat, eof := [], 0, 0, false;
    while consumed < |payload| && !eof
      invariant count <= size && count <= |d.output| && consumed <= |payload|
      invariant prefix == d.output[..if count < HEADER then count else HEADER]
      invariant eof ==> z.inflate(payload) == Some((d.output, consumed)) && count == |d.output|
      invariant !eof && z.inflate(payload).Some? ==> consumed < z.inflate(payload).value.1
      decreases !eof, |payload| - consumed, |d.output| - count
    {
      var limit := if size + 1 - count < 65536 then size + 1 - count else 65536;
      var step := d.pull(count, consumed, limit);
      if step.Fault? {
        return None;
      }
      var room := HEADER - |prefix|;
      var chunk := d.output[count..step.emitted];
      prefix := prefix + chunk[..if |chunk| < room then |chunk| else room];
      count, consumed, eof := step.emitted, step.consumed, step.eof;
      if count > size {
        return None;
      }
    }
    if count != size || !eof || consumed < |payload| {
      return None;
    }
    r := Some(prefix);
  }

  /** The header and length of the state a wire unpacks to, if its header is a good one. */
  function Inspected(z: Zlib, wire: seq<U8>): Option<(seq<U8>, nat)> {
    match Unpack(z, wire)
    case Err(_) => None
    case Ok(raw) =>
      if |raw| >= HEADER && GoodHeader(raw[..HEADER], |raw|) then Some((raw[..HEADER], |raw|)) else None
  }

  /** `inspect_state` looks at the wire chunk by chunk, yet answers as if it had unpacked all of it. */
  method InspectState(z: Zlib, wire: seq<U8>, d: Decoder) returns (r: Option<(seq<U8>, nat)>)
    requires |wire| >= ENVELOPE ==> Decodes(z, wire[ENVELOPE..], d)
    ensures r == Inspected(z, wire)
  {
    hide Read, Decodes, Shuffle;
    if |wire| > MAX {
      return None;
    }
    var header, size, codec := wire, |wire|, 0;
    if LAYZ <= wire {
      if |wire| < ENVELOPE {
        return None;
      }
      codec, size := Read(wire, 8), Read(wire, 12);
      if Read(wire, 4) != 1 || (codec != 1 && codec != 2) || !(HEADER <= size <= MAX) {
        return None;
      }
      var prefix := ReadStream(z, wire[ENVELOPE..], size, d);
      if prefix.None? {
        return None;
      }
      header := prefix.value;
      StreamHeader(z, wire, header);
    } else {
      header := if |wire| < HEADER then wire else wire[..HEADER];
    }
    if |header| < HEADER || (header[..4] != LAYQ && header[..4] != LAYI) {
      return None;
    }
    if codec != 0 && header[..4] != if codec == 1 then LAYI else LAYQ {
      return None;
    }
    var tokens: nat, markers: nat := Read(header, 52), Read(header, 56);
    var offset := HEADER + 4 * (tokens + markers);
    if !(1 <= tokens <= 128) || !(2 <= markers <= 7) || offset > size || (header[..4] == LAYQ && (size - offset) % 4 != 0) {
      return None;
    }
    r := Some((header, size));
  }

  /** Inside an envelope the first 60 bytes are stored unshuffled. */
  lemma StreamHeader(z: Zlib, wire: seq<U8>, header: seq<U8>)
    requires ENVELOPE <= |wire| <= MAX && LAYZ <= wire && z.inflate(wire[ENVELOPE..]).Some?
    requires Read(wire, 4) == 1 && (Read(wire, 8) == 1 || Read(wire, 8) == 2) && HEADER <= Read(wire, 12) <= MAX
    requires var s := z.inflate(wire[ENVELOPE..]).value;
      |s.0| == Read(wire, 12) && s.1 == |wire| - ENVELOPE && header == s.0[..HEADER]
    ensures var raw := z.inflate(wire[ENVELOPE..]).value.0;
      && (Read(wire, 8) == 2 ==> (Unpack(z, wire).Ok? <==> header[..4] == LAYQ && GoodHeader(header, |raw|)))
      && (Read(wire, 8) == 1 ==> (Unpack(z, wire).Ok? <==> header[..4] == LAYI))
      && (Unpack(z, wire).Ok? ==> |Unpack(z, wire).value| == |raw| && Unpack(z, wire).value[..HEADER] == header)
  {
    hide Shuffle, Read, Planes, Interleave;
    var raw := z.inflate(wire[ENVELOPE..]).value.0;
    assert header[..4] == raw[..4];
    assert LAYI <= raw <==> raw[..4] == LAYI by { PrefixOf(raw); }
    if Read(wire, 8) == 2 {
      HeaderDecides(raw);
      ShuffleOkIff(raw, true);
      if FloatOffset(raw).Ok? {
        ShuffleKeepsOffset(raw, true);
      }
      hide FloatOffset, GoodHeader;
    }
  }

  lemma PrefixOf(raw: seq<U8>)
    requires |raw| >= 4
    ensures LAYI <= raw <==> raw[..4] == LAYI
  {
  }

  lemma ShuffleOkIff(raw: seq<U8>, inverse: bool)
    ensures Shuffle(raw, inverse).Ok? <==> FloatOffset(raw).Ok?
  {
  }

  lemma HeaderDecides(raw: seq<U8>)
    requires |raw| >= HEADER
    ensures FloatOffset(raw).Ok? <==> raw[..HEADER][..4] == LAYQ && GoodHeader(raw[..HEADER], |raw|)
  {
    hide Read;
    var padded := raw[..HEADER] + raw[HEADER..];
    assert padded == raw;
    assert raw[..HEADER][..HEADER] == raw[..HEADER];
    SameHeader(raw, raw[..HEADER]);
  }
}
