/**
 Length-framed, domain-separated preimages (crates/ic-laya-core/src/types.rs).

 SHA-256 is not modelled. A computed digest IS its preimage, a digest supplied from
 outside is 32 raw bytes, and the 32 bytes a digest occupies inside another preimage
 are one symbolic cell. What is proved here is therefore exactly what the source adds
 to the hash function: that no two different field lists share a preimage.
 */
module Canonical {
  import opened Numbers

  datatype Digest = Raw(bytes: Bytes32) | Hash(preimage: seq<Cell>)
  datatype Cell = Byte(value: U8) | Ref(digest: Digest)

  /** `[0; 32]`, refused wherever an identifier is registered. */
  function ZeroDigest(): Digest {
    Raw(seq(32, _ => 0))
  }

  /** One call on the builder: `u64`, `u128`, `bytes`/`text`, or `bytes(&digest)`. */
  datatype Item = Num64(n: U64) | Num128(m: U128) | Text(blob: Blob) | Id(digest: Digest)

  function BigEndian(n: nat, width: nat): (r: seq<Cell>)
    ensures |r| == width
  {
    if width == 0 then [] else BigEndian(n / 256, width - 1) + [Byte(n % 256)]
  }

  function Octets(b: seq<U8>): (r: seq<Cell>)
    ensures |r| == |b|
  {
    seq(|b|, i requires 0 <= i < |b| => Byte(b[i]))
  }

  function Cells(x: Item): (r: seq<Cell>)
    ensures |r| > 0
  {
    match x
    case Num64(n) => BigEndian(n, 8)
    case Num128(m) => BigEndian(m, 16)
    case Text(b) => BigEndian(|b|, 8) + Octets(b)
    case Id(d) => BigEndian(32, 8) + [Ref(d)]
  }

  function Encode(xs: seq<Item>): seq<Cell> {
    if xs == [] then [] else Cells(xs[0]) + Encode(xs[1..])
  }

  /** The domain tag is the first frame of every preimage. */
  function Seal(domain: string, fields: seq<Item>): Digest
    requires |domain| < TWO_64 && forall i | 0 <= i < |domain| :: domain[i] as int < 256
  {
    Hash(Encode([Text(Ascii(domain))] + fields))
  }

  function Ascii(s: string): (r: Blob)
    requires |s| < TWO_64 && forall i | 0 <= i < |s| :: s[i] as int < 256
    ensures |r| == |s| && forall i | 0 <= i < |s| :: r[i] == s[i] as int
  {
    seq(|s|, i requires 0 <= i < |s| => s[i] as int)
  }

  predicate SameKind(x: Item, y: Item) {
    (x.Num64? && y.Num64?) || (x.Num128? && y.Num128?) || (x.Text? && y.Text?) || (x.Id? && y.Id?)
  }

  /** After equal histories the two writers make the same kind of call. */
  ghost predicate SameScript(xs: seq<Item>, ys: seq<Item>) {
    forall k :: 0 <= k < |xs| && k < |ys| && xs[..k] == ys[..k] ==> SameKind(xs[k], ys[k])
  }

  function Pow256(width: nat): nat {
    if width == 0 then 1 else 256 * Pow256(width - 1)
  }

  lemma {:induction false} BigEndianInjective(a: nat, b: nat, width: nat)
    requires a < Pow256(width) && b < Pow256(width)
    requires BigEndian(a, width) == BigEndian(b, width)
    ensures a == b
  {
    if width > 0 {
      var x, y := BigEndian(a, width), BigEndian(b, width);
      assert x[width - 1] == y[width - 1];
      assert x[..width - 1] == BigEndian(a / 256, width - 1);
      assert y[..width - 1] == BigEndian(b / 256, width - 1);
      BigEndianInjective(a / 256, b / 256, width - 1);
    }
  }

  lemma WordBounds()
    ensures Pow256(8) == TWO_64 && Pow256(16) == TWO_128
  {
    assert Pow256(4) == 0x1_0000_0000;
    assert Pow256(8) == TWO_64;
    assert Pow256(12) == 0x1_0000_0000_0000_0000_0000_0000;
  }

  lemma SplitEqual<T>(a: seq<T>, b: seq<T>, s: seq<T>, t: seq<T>)
    requires a + s == b + t && |a| == |b|
    ensures a == b && s == t
  {
    assert a == (a + s)[..|a|] == (b + t)[..|b|] == b;
    assert s == (a + s)[|a|..] == (b + t)[|b|..] == t;
  }

  lemma WordPrefix(a: nat, b: nat, width: nat, s: seq<Cell>, t: seq<Cell>)
    requires a < Pow256(width) && b < Pow256(width)
    requires BigEndian(a, width) + s == BigEndian(b, width) + t
    ensures a == b && s == t
  {
    SplitEqual(BigEndian(a, width), BigEndian(b, width), s, t);
    BigEndianInjective(a, b, width);
  }

  lemma OctetsPrefix(b: seq<U8>, c: seq<U8>, s: seq<Cell>, t: seq<Cell>)
    requires |b| == |c| && Octets(b) + s == Octets(c) + t
    ensures b == c && s == t
  {
    SplitEqual(Octets(b), Octets(c), s, t);
    forall i | 0 <= i < |b| ensures b[i] == c[i] {
      assert Octets(b)[i] == Byte(b[i]) && Octets(c)[i] == Byte(c[i]);
    }
  }

  lemma FramePrefix(a: nat, b: nat, x: seq<Cell>, y: seq<Cell>, s: seq<Cell>, t: seq<Cell>)
    requires a < TWO_64 && b < TWO_64
    requires (BigEndian(a, 8) + x) + s == (BigEndian(b, 8) + y) + t
    ensures a == b && x + s == y + t
  {
    WordBounds();
    assert BigEndian(a, 8) + (x + s) == (BigEndian(a, 8) + x) + s;
    assert BigEndian(b, 8) + (y + t) == (BigEndian(b, 8) + y) + t;
    WordPrefix(a, b, 8, x + s, y + t);
  }

  /** A frame of known kind can be read off the front of a preimage in one way only. */
  lemma {:induction false} ItemPrefix(x: Item, y: Item, s: seq<Cell>, t: seq<Cell>)
    requires SameKind(x, y) && Cells(x) + s == Cells(y) + t
    ensures x == y && s == t
  {
    match x
    case Num64(n) =>
      WordBounds();
      WordPrefix(n, y.n, 8, s, t);
    case Num128(m) =>
      WordBounds();
      WordPrefix(m, y.m, 16, s, t);
    case Id(d) =>
      FramePrefix(32, 32, [Ref(d)], [Ref(y.digest)], s, t);
      SplitEqual([Ref(d)], [Ref(y.digest)], s, t);
      assert [Ref(d)][0] == [Ref(y.digest)][0];
    case Text(b) =>
      FramePrefix(|b|, |y.blob|, Octets(b), Octets(y.blob), s, t);
      OctetsPrefix(b, y.blob, s, t);
  }

  lemma TailScript(xs: seq<Item>, ys: seq<Item>)
    requires xs != [] && ys != [] && xs[0] == ys[0] && SameScript(xs, ys)
    ensures SameScript(xs[1..], ys[1..])
  {
    forall k | 0 <= k < |xs| - 1 && k < |ys| - 1 && xs[1..][..k] == ys[1..][..k]
      ensures SameKind(xs[1..][k], ys[1..][k])
    {
      assert xs[..k + 1] == [xs[0]] + xs[1..][..k];
      assert ys[..k + 1] == [ys[0]] + ys[1..][..k];
    }
  }

  /** Unique decodability: two scripts that agree on kinds have equal preimages only when equal. */
  lemma {:induction false} EncodeInjective(xs: seq<Item>, ys: seq<Item>)
    requires SameScript(xs, ys) && Encode(xs) == Encode(ys)
    ensures xs == ys
    decreases |xs|
  {
    if xs != [] && ys != [] {
      assert xs[..0] == ys[..0];
      ItemPrefix(xs[0], ys[0], Encode(xs[1..]), Encode(ys[1..]));
      hide Cells, BigEndian, SameScript, SameKind;
      TailScript(xs, ys);
      EncodeInjective(xs[1..], ys[1..]);
      assert xs == [xs[0]] + xs[1..] && ys == [ys[0]] + ys[1..];
    }
  }

  lemma SealInjective(domain: string, xs: seq<Item>, ys: seq<Item>)
    requires |domain| < TWO_64 && forall i | 0 <= i < |domain| :: domain[i] as int < 256
    requires SameScript(xs, ys) && Seal(domain, xs) == Seal(domain, ys)
    ensures xs == ys
  {
    var h := [Text(Ascii(domain))];
    forall k | 0 <= k < |h + xs| && k < |h + ys| && (h + xs)[..k] == (h + ys)[..k]
      ensures SameKind((h + xs)[k], (h + ys)[k])
    {
      if k > 0 {
        assert xs[..k - 1] == (h + xs)[..k][1..] == (h + ys)[..k][1..] == ys[..k - 1];
      }
    }
    EncodeInjective(h + xs, h + ys);
    assert xs == (h + xs)[1..] && ys == (h + ys)[1..];
  }

  /** Digests of different families never collide, whatever their fields. */
  lemma DomainsSeparate(d: string, e: string, xs: seq<Item>, ys: seq<Item>)
    requires |d| < TWO_64 && forall i | 0 <= i < |d| :: d[i] as int < 256
    requires |e| < TWO_64 && forall i | 0 <= i < |e| :: e[i] as int < 256
    requires Seal(d, xs) == Seal(e, ys)
    ensures d == e
  {
    var x, y := [Text(Ascii(d))] + xs, [Text(Ascii(e))] + ys;
    ItemPrefix(x[0], y[0], Encode(x[1..]), Encode(y[1..]));
    assert Ascii(d) == Ascii(e);
    forall i | 0 <= i < |d| ensures d[i] == e[i] {
      assert Ascii(d)[i] == d[i] as int && Ascii(e)[i] == e[i] as int;
    }
  }

  lemma {:induction false} EncodeAppend(xs: seq<Item>, ys: seq<Item>)
    ensures Encode(xs + ys) == Encode(xs) + Encode(ys)
  {
    if xs == [] {
      assert xs + ys == ys;
    } else {
      assert (xs + ys)[1..] == xs[1..] + ys;
      EncodeAppend(xs[1..], ys);
    }
  }

  /** The builder: a growing buffer, consumed by `Finish`. */
  class Builder {
    var buffer: seq<Cell>
    ghost var items: seq<Item>

    ghost predicate Valid()
      reads this
    {
      buffer == Encode(items)
    }

    constructor (domain: string)
      requires |domain| < TWO_64 && forall i | 0 <= i < |domain| :: domain[i] as int < 256
      ensures Valid() && items == [Text(Ascii(domain))]
    {
      buffer := BigEndian(|domain|, 8) + Octets(Ascii(domain));
      items := [Text(Ascii(domain))];
    }

    method Put(x: Item)
      requires Valid()
      modifies this
      ensures Valid() && items == old(items) + [x]
    {
      EncodeAppend(items, [x]);
      buffer := buffer + Cells(x);
      items := items + [x];
    }

    method Finish() returns (d: Digest)
      requires Valid()
      ensures d == Hash(Encode(items))
    {
      d := Hash(buffer);
    }
  }
}
