/** Little-endian words in byte strings. */
module Bytes {
  import opened Numbers

  /** The low `k` bytes, lowest first. */
  function LeBytes(v: nat, k: nat): (b: seq<U8>)
    ensures |b| == k
  {
    if k == 0 then [] else [v % 256] + LeBytes(v / 256, k - 1)
  }

  function FromLe(b: seq<U8>): nat {
    if b == [] then 0 else b[0] + 256 * FromLe(b[1..])
  }

  /** `to_le_bytes` */
  function Le32(v: U32): (b: seq<U8>)
    ensures |b| == 4
  {
    LeBytes(v, 4)
  }

  /** `from_le_bytes` of the four bytes at `at`. */
  function Read(b: seq<U8>, at: nat): U32
    requires at + 4 <= |b|
  {
    WordFits(b[at..at + 4]);
    FromLe(b[at..at + 4])
  }

  function Range(k: nat): nat {
    if k == 0 then 1 else 256 * Range(k - 1)
  }

  lemma FromLeFits(b: seq<U8>)
    ensures FromLe(b) < Range(|b|)
  {
    if b != [] {
      FromLeFits(b[1..]);
    }
  }

  lemma WordFits(b: seq<U8>)
    requires |b| == 4
    ensures FromLe(b) < TWO_32
  {
    FromLeFits(b);
    assert Range(2) == 0x1_0000;
    assert Range(4) == TWO_32;
  }

  lemma {:induction false} BytesOfValue(v: nat, k: nat)
    requires v < Range(k)
    ensures FromLe(LeBytes(v, k)) == v
  {
    if k > 0 {
      BytesOfValue(v / 256, k - 1);
      assert LeBytes(v, k)[1..] == LeBytes(v / 256, k - 1);
    }
  }

  lemma {:induction false} ValueOfBytes(b: seq<U8>)
    ensures LeBytes(FromLe(b), |b|) == b
  {
    if b != [] {
      ValueOfBytes(b[1..]);
      assert FromLe(b) % 256 == b[0] && FromLe(b) / 256 == FromLe(b[1..]);
    }
  }

  lemma ReadLe(b: seq<U8>, at: nat, v: U32)
    requires at + 4 <= |b| && b[at..at + 4] == Le32(v)
    ensures Read(b, at) == v
  {
    assert Range(2) == 0x1_0000;
    assert Range(4) == TWO_32;
    BytesOfValue(v, 4);
    hide FromLe, LeBytes;
  }

  lemma LeRead(b: seq<U8>, at: nat)
    requires at + 4 <= |b|
    ensures Le32(Read(b, at)) == b[at..at + 4]
  {
    ValueOfBytes(b[at..at + 4]);
    hide FromLe, LeBytes;
  }

  /** Consecutive words. */
  function Words(v: seq<U32>): (b: seq<U8>)
    ensures |b| == 4 * |v|
  {
    if v == [] then [] else Words(v[..|v| - 1]) + Le32(v[|v| - 1])
  }

  function ReadWords(b: seq<U8>, at: nat, n: nat): (v: seq<U32>)
    requires at + 4 * n <= |b|
    ensures |v| == n
  {
    seq<U32>(n, i requires 0 <= i < n => Read(b, at + 4 * i))
  }

  lemma {:induction false} WordAt(v: seq<U32>, i: nat)
    requires i < |v|
    ensures Words(v)[4 * i..4 * i + 4] == Le32(v[i])
  {
    hide Le32;
    var front := v[..|v| - 1];
    if i < |v| - 1 {
      WordAt(front, i);
      assert Words(v)[4 * i..4 * i + 4] == Words(front)[4 * i..4 * i + 4];
    }
  }

  lemma Within(b: seq<U8>, at: nat, n: nat, from: nat, k: nat)
    requires at + n <= |b| && from + k <= n
    ensures b[at..at + n][from..from + k] == b[at + from..at + from + k]
  {
    var left, right := b[at..at + n][from..from + k], b[at + from..at + from + k];
    assert |left| == |right| && forall i | 0 <= i < k :: left[i] == right[i];
  }

  lemma ReadBack(b: seq<U8>, at: nat, v: seq<U32>)
    requires at + 4 * |v| <= |b| && b[at..at + 4 * |v|] == Words(v)
    ensures ReadWords(b, at, |v|) == v
  {
    hide Words, Read;
    forall i | 0 <= i < |v| ensures Read(b, at + 4 * i) == v[i] {
      ReadBackAt(b, at, v, i);
    }
  }

  lemma ReadBackAt(b: seq<U8>, at: nat, v: seq<U32>, i: nat)
    requires i < |v| && at + 4 * |v| <= |b| && b[at..at + 4 * |v|] == Words(v)
    ensures Read(b, at + 4 * i) == v[i]
  {
    hide Words, Le32, Read;
    WordAt(v, i);
    Within(b, at, 4 * |v|, 4 * i, 4);
    ReadLe(b, at + 4 * i, v[i]);
  }

  lemma {:induction false} WriteBack(b: seq<U8>, at: nat, n: nat)
    requires at + 4 * n <= |b|
    ensures Words(ReadWords(b, at, n)) == b[at..at + 4 * n]
  {
    hide Le32, Read;
    if n > 0 {
      WriteBack(b, at, n - 1);
      LeRead(b, at + 4 * (n - 1));
      assert ReadWords(b, at, n)[..n - 1] == ReadWords(b, at, n - 1);
      assert b[at..at + 4 * n] == b[at..at + 4 * (n - 1)] + b[at + 4 * (n - 1)..at + 4 * n];
    }
  }

  /** The writing loop: one word after another onto the buffer. */
  method AppendWords(buffer: seq<U8>, v: seq<U32>) returns (b: seq<U8>)
    ensures b == buffer + Words(v)
  {
    hide Le32;
    b := buffer;
    for i := 0 to |v|
      invariant b == buffer + Words(v[..i])
    {
      assert v[..i + 1][..i] == v[..i];
      b := b + Le32(v[i]);
    }
    assert v[..|v|] == v;
  }
}
