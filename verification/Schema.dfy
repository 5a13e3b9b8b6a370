/** Schema compilation and request rendering (crates/ic-laya-core/src/schema.rs). */
module SchemaCompiler {
  import opened Wrappers
  import opened Numbers
  import opened Canonical
  import opened Types

  /** The host's tokenizer: any function of the bytes, with its fingerprint and special tokens. */
  datatype Tokenizer = Tokenizer(encode: Blob -> Fallible<seq<U32>>, fingerprint: Digest, special: SpecialTokens)

  predicate IdentifierByte(c: U8) {
    48 <= c <= 57 || 65 <= c <= 90 || 97 <= c <= 122 || c == 95 || c == 45 || c == 46 || c == 58
  }

  predicate Identifier(s: Blob) {
    1 <= |s| <= 64 && forall i | 0 <= i < |s| :: IdentifierByte(s[i])
  }

  predicate Blank(s: Blob) {
    forall i | 0 <= i < |s| :: 9 <= s[i] <= 13 || s[i] == 32
  }

  predicate OccursAt(x: Blob, s: Blob, i: int) {
    0 <= i <= |s| - |x| && s[i..i + |x|] == x
  }

  predicate Occurs(x: Blob, s: Blob) {
    exists i | 0 <= i <= |s| - |x| :: OccursAt(x, s, i)
  }

  predicate ContainsReserved(s: Blob, t: SpecialTokens) {
    exists k | 0 <= k < |t.literals| :: t.literals[k] != [] && Occurs(t.literals[k], s)
  }

  predicate IsControl(x: U32, s: SpecialTokens) {
    x == s.cls || x == s.sep || x == s.mask || x == s.pad
  }

  predicate HasControl(ids: seq<U32>, s: SpecialTokens) {
    exists i | 0 <= i < |ids| :: IsControl(ids[i], s)
  }

  predicate OptionsOk(os: seq<OptionDef>) {
    && (forall i | 0 <= i < |os| :: Identifier(os[i].id) && !Blank(os[i].text) && |os[i].text| <= 1024)
    && (forall i, j | 0 <= i < j < |os| :: os[i].id != os[j].id)
  }

  function ValidateSchema(s: Schema): Fallible<()> {
    if !Identifier(s.id) || s.version == 0 || Blank(s.instructions) || |s.instructions| > 2048
      || !s.primitive.CountValid(|s.options|) then Err(Invalid("schema header"))
    else if !OptionsOk(s.options) then Err(Invalid("option id/text"))
    else if s.primitive == Noul && (s.options[0].id != Ascii("false") || s.options[1].id != Ascii("true")) then
      Err(Invalid("Noul order must be false,true"))
    else Ok(())
  }

  function PrimitiveText(p: Primitive): Blob {
    match p case Choice => Ascii("choice") case Noul => Ascii("noul") case Score => Ascii("score")
  }

  function Question(s: Schema): Blob
    requires |s.instructions| <= 2048
  {
    PrimitiveText(s.primitive) + Ascii(" question: ") + s.instructions
  }

  function Spaced(text: Blob): Blob
    requires |text| <= 1024
  {
    [32] + text
  }

  /** The option loop: a mask and the option's tokens are appended, the mask's index recorded. */
  function AddOptions(os: seq<OptionDef>, t: Tokenizer, prefix: seq<U32>, markers: seq<U32>): Fallible<(seq<U32>, seq<U32>)>
    requires forall i | 0 <= i < |os| :: |os[i].text| <= 1024
  {
    if os == [] then Ok((prefix, markers)) else
    var ids :- t.encode(Spaced(os[0].text));
    if ids == [] || |ids| > 48 then Err(TooLong)
    else if HasControl(ids, t.special) then Err(Invalid("option control token"))
    else AddOptions(os[1..], t, prefix + [t.special.mask] + ids, markers + [|prefix| % TWO_32])
  }

  predicate SpecialsDistinct(s: SpecialTokens) {
    s.cls != s.sep && s.cls != s.mask && s.cls != s.pad && s.sep != s.mask && s.sep != s.pad && s.mask != s.pad
  }

  function CompileSpec(s: Schema, t: Tokenizer, qtypeId: U32): Fallible<CompiledSchema> {
    var _ :- ValidateSchema(s);
    if qtypeId >= 3 then Err(Invalid("qtype mapping")) else
    var special := t.special;
    if !SpecialsDistinct(special) || special.literals == [] then Err(Invalid("special token config")) else
    if ContainsReserved(s.instructions, special)
      || exists i | 0 <= i < |s.options| :: ContainsReserved(s.options[i].text, special) then
      Err(Invalid("reserved token literal")) else
    var instruction :- t.encode(Question(s));
    if instruction == [] || HasControl(instruction, special) then Err(Invalid("instruction tokens")) else
    var laid :- AddOptions(s.options, t, [special.cls] + instruction + [special.sep], []);
    var prefix := laid.0 + [special.sep];
    if |prefix| > MAX_PREFIX then Err(TooLong) else
    Ok(CompiledSchema(s, SchemaDigest(s, t.fingerprint), t.fingerprint, prefix, laid.1, special, qtypeId))
  }

  method Compile(s: Schema, t: Tokenizer, qtypeId: U32) returns (r: Fallible<CompiledSchema>)
    ensures r == CompileSpec(s, t, qtypeId)
  {
    hide SchemaDigest, Ascii, ContainsReserved;
    var checked := ValidateSchema(s);
    if checked.Err? { return Err(checked.error); }
    if qtypeId >= 3 { return Err(Invalid("qtype mapping")); }
    var special := t.special;
    if !SpecialsDistinct(special) || special.literals == [] { return Err(Invalid("special token config")); }
    if ContainsReserved(s.instructions, special) || exists i | 0 <= i < |s.options| :: ContainsReserved(s.options[i].text, special) {
      return Err(Invalid("reserved token literal"));
    }
    var instruction := t.encode(Question(s));
    if instruction.Err? { return Err(instruction.error); }
    if instruction.value == [] || HasControl(instruction.value, special) { return Err(Invalid("instruction tokens")); }
    var prefix: seq<U32> := [special.cls] + instruction.value + [special.sep];
    var markers: seq<U32> := [];
    ghost var goal := AddOptions(s.options, t, prefix, markers);
    assert s.options[0..] == s.options;
    for i := 0 to |s.options|
      invariant AddOptions(s.options[i..], t, prefix, markers) == goal
    {
      assert s.options[i..][1..] == s.options[i + 1..];
      var ids := t.encode(Spaced(s.options[i].text));
      if ids.Err? { return Err(ids.error); }
      if ids.value == [] || |ids.value| > 48 { return Err(TooLong); }
      if HasControl(ids.value, special) { return Err(Invalid("option control token")); }
      markers := markers + [|prefix| % TWO_32];
      prefix := prefix + [special.mask] + ids.value;
    }
    prefix := prefix + [special.sep];
    if |prefix| > MAX_PREFIX { return Err(TooLong); }
    var d := DigestSchema(s, t.fingerprint);
    return Ok(CompiledSchema(s, d, t.fingerprint, prefix, markers, special, qtypeId));
  }

  function Count(s: seq<U32>, x: U32): (n: nat)
    ensures n <= |s|
  {
    if s == [] then 0 else (if s[0] == x then 1 else 0) + Count(s[1..], x)
  }

  /** Every marker indexes a mask, and the markers strictly increase. */
  predicate MarkersOk(markers: seq<U32>, prefix: seq<U32>, mask: U32) {
    && (forall i | 0 <= i < |markers| :: markers[i] < |prefix| && prefix[markers[i]] == mask)
    && (forall i | 0 < i < |markers| :: markers[i - 1] < markers[i])
  }

  function ValidateCompiled(c: CompiledSchema): Fallible<()> {
    var _ :- ValidateSchema(c.schema);
    if c.schemaHash != SchemaDigest(c.schema, c.tokenizerHash) || |c.prefix| > MAX_PREFIX || |c.prefix| < 5
      || c.prefix[0] != c.special.cls || c.prefix[|c.prefix| - 1] != c.special.sep
      || |c.markers| != |c.schema.options| || c.qtypeId >= 3 then Err(BindingMismatch)
    else if !MarkersOk(c.markers, c.prefix, c.special.mask) then Err(BindingMismatch)
    else if Count(c.prefix, c.special.mask) != |c.markers| then Err(BindingMismatch)
    else Ok(())
  }

  /** The marker loop of `validate_compiled`, with its running previous marker, is the quantified condition. */
  method CheckCompiled(c: CompiledSchema) returns (r: Fallible<()>)
    ensures r == ValidateCompiled(c)
  {
    hide SchemaDigest, Count;
    var valid := ValidateSchema(c.schema);
    if valid.Err? {
      return valid;
    }
    if c.schemaHash != SchemaDigest(c.schema, c.tokenizerHash) || |c.prefix| > MAX_PREFIX || |c.prefix| < 5
      || c.prefix[0] != c.special.cls || c.prefix[|c.prefix| - 1] != c.special.sep
      || |c.markers| != |c.schema.options| || c.qtypeId >= 3 {
      return Err(BindingMismatch);
    }
    var prev: Option<U32> := None;
    for i := 0 to |c.markers|
      invariant prev == if i == 0 then None else Some(c.markers[i - 1])
      invariant forall k | 0 <= k < i :: c.markers[k] < |c.prefix| && c.prefix[c.markers[k]] == c.special.mask
      invariant forall k | 0 < k < i :: c.markers[k - 1] < c.markers[k]
    {
      var p := c.markers[i];
      if p >= |c.prefix| || c.prefix[p] != c.special.mask || (prev.Some? && p <= prev.value) {
        return Err(BindingMismatch);
      }
      prev := Some(p);
    }
    r := if Count(c.prefix, c.special.mask) != |c.markers| then Err(BindingMismatch) else Ok(());
  }

  function Render(c: CompiledSchema, t: Tokenizer, state: Blob): Fallible<TokenInput> {
    var _ :- ValidateCompiled(c);
    if t.fingerprint != c.tokenizerHash || t.special != c.special then Err(BindingMismatch)
    else if state == [] || |state| > MAX_STATE_BYTES then Err(TooLong)
    else if ContainsReserved(state, c.special) then Err(Invalid("reserved token literal")) else
    var ids :- t.encode(state);
    if ids == [] || HasControl(ids, c.special) then Err(Invalid("state tokens"))
    else if |c.prefix| + |ids| + 1 > MAX_TOKENS then Err(TooLong)
    else Ok(TokenInput(c.prefix + ids + [c.special.sep], c.markers, c.qtypeId))
  }

  /** The model's own check of its input (crates/laya-candle/src/lib.rs, `validate_input`). */
  predicate ModelAccepts(x: TokenInput, mask: U32, vocab: nat, qtypes: nat) {
    && 1 <= |x.inputIds| <= MAX_TOKENS && 2 <= |x.markers| <= 7 && x.qtypeId < qtypes
    && (forall i | 0 <= i < |x.inputIds| :: x.inputIds[i] < vocab)
    && MarkersOk(x.markers, x.inputIds, mask)
  }

  // ----- what a compiled schema looks like --------------------------------------------------

  function OptionLayout(pieces: seq<seq<U32>>, mask: U32): seq<U32> {
    if pieces == [] then [] else [mask] + pieces[0] + OptionLayout(pieces[1..], mask)
  }

  function OptionMarks(pieces: seq<seq<U32>>, at: nat): seq<nat> {
    if pieces == [] then [] else [at] + OptionMarks(pieces[1..], at + 1 + |pieces[0]|)
  }

  ghost predicate Clean(pieces: seq<seq<U32>>, s: SpecialTokens) {
    forall i | 0 <= i < |pieces| :: pieces[i] != [] && !HasControl(pieces[i], s)
  }

  /** `[CLS] instruction [SEP] ([MASK] option)* [SEP]` */
  function PrefixLayout(instruction: seq<U32>, pieces: seq<seq<U32>>, s: SpecialTokens): seq<U32> {
    [s.cls] + instruction + [s.sep] + OptionLayout(pieces, s.mask) + [s.sep]
  }

  lemma {:induction false} AddOptionsLayout(os: seq<OptionDef>, t: Tokenizer, prefix: seq<U32>, markers: seq<U32>)
    returns (pieces: seq<seq<U32>>)
    requires forall i | 0 <= i < |os| :: |os[i].text| <= 1024
    requires AddOptions(os, t, prefix, markers).Ok?
    ensures var out := AddOptions(os, t, prefix, markers).value;
      && out.0 == prefix + OptionLayout(pieces, t.special.mask)
      && (|out.0| < TWO_32 ==> out.1 == markers + OptionMarks(pieces, |prefix|))
    ensures |pieces| == |os| && Clean(pieces, t.special)
    ensures forall i | 0 <= i < |os| :: t.encode(Spaced(os[i].text)) == Ok(pieces[i])
  {
    if os == [] {
      pieces := [];
    } else {
      var ids := t.encode(Spaced(os[0].text)).value;
      var rest := AddOptionsLayout(os[1..], t, prefix + [t.special.mask] + ids, markers + [|prefix| % TWO_32]);
      pieces := [ids] + rest;
      var out := AddOptions(os, t, prefix, markers).value;
      assert prefix + [t.special.mask] + ids + OptionLayout(rest, t.special.mask)
          == prefix + OptionLayout(pieces, t.special.mask);
      if |out.0| < TWO_32 {
        assert |prefix + [t.special.mask] + ids| == |prefix| + 1 + |ids|;
        assert markers + [|prefix|] + OptionMarks(rest, |prefix| + 1 + |ids|) == markers + OptionMarks(pieces, |prefix|);
      }
    }
  }

  lemma {:induction false} CountAppend(a: seq<U32>, b: seq<U32>, x: U32)
    ensures Count(a + b, x) == Count(a, x) + Count(b, x)
  {
    if a == [] {
      assert a + b == b;
    } else {
      assert (a + b)[1..] == a[1..] + b;
      CountAppend(a[1..], b, x);
    }
  }

  lemma {:induction false} CountAbsent(a: seq<U32>, x: U32)
    requires x !in a
    ensures Count(a, x) == 0
  {
    if a != [] {
      CountAbsent(a[1..], x);
    }
  }

  lemma {:induction false} OptionCount(pieces: seq<seq<U32>>, s: SpecialTokens)
    requires Clean(pieces, s)
    ensures Count(OptionLayout(pieces, s.mask), s.mask) == |pieces|
    ensures |OptionLayout(pieces, s.mask)| >= 2 * |pieces|
  {
    if pieces != [] {
      var rest := OptionLayout(pieces[1..], s.mask);
      OptionCount(pieces[1..], s);
      CountAbsent(pieces[0], s.mask);
      CountAppend(pieces[0], rest, s.mask);
      CountAppend([s.mask], pieces[0] + rest, s.mask);
      assert OptionLayout(pieces, s.mask) == [s.mask] + (pieces[0] + rest);
      assert [s.mask][1..] == [];
    }
  }

  lemma {:induction false} OptionMarksOk(pieces: seq<seq<U32>>, s: SpecialTokens, before: seq<U32>, after: seq<U32>)
    requires Clean(pieces, s)
    ensures var m, whole := OptionMarks(pieces, |before|), before + OptionLayout(pieces, s.mask) + after;
      && |m| == |pieces|
      && (forall i | 0 <= i < |m| :: |before| <= m[i] < |whole| && whole[m[i]] == s.mask)
      && (forall i | 0 < i < |m| :: m[i - 1] < m[i])
  {
    if pieces != [] {
      var rest := OptionLayout(pieces[1..], s.mask);
      var head := before + [s.mask] + pieces[0];
      OptionMarksOk(pieces[1..], s, head, after);
      assert before + OptionLayout(pieces, s.mask) + after == head + rest + after;
      var m, n := OptionMarks(pieces, |before|), OptionMarks(pieces[1..], |head|);
      assert m == [|before|] + n;
      assert (head + rest + after)[|before|] == s.mask;
      forall i | 0 < i < |m| ensures m[i - 1] < m[i] {
        assert m[i] == n[i - 1];
        if i > 1 {
          assert m[i - 1] == n[i - 2];
        }
      }
    }
  }

  lemma PrefixCount(instruction: seq<U32>, pieces: seq<seq<U32>>, s: SpecialTokens)
    requires SpecialsDistinct(s) && Clean(pieces, s) && !HasControl(instruction, s)
    ensures Count(PrefixLayout(instruction, pieces, s), s.mask) == |pieces|
  {
    var head := [s.cls] + instruction + [s.sep];
    var body := OptionLayout(pieces, s.mask);
    CountAppend(head + body, [s.sep], s.mask);
    CountAppend(head, body, s.mask);
    assert s.mask !in head && s.mask !in [s.sep];
    CountAbsent(head, s.mask);
    CountAbsent([s.sep], s.mask);
    OptionCount(pieces, s);
  }

  /** The exact shape of every compiled prefix, and where its markers point. */
  lemma CompileLayout(s: Schema, t: Tokenizer, q: U32) returns (instruction: seq<U32>, pieces: seq<seq<U32>>)
    requires CompileSpec(s, t, q).Ok?
    ensures var c := CompileSpec(s, t, q).value;
      && c.special == t.special && SpecialsDistinct(t.special) && c.schema == s && c.tokenizerHash == t.fingerprint
      && t.encode(Question(s)) == Ok(instruction)
      && instruction != [] && !HasControl(instruction, t.special)
      && |pieces| == |s.options| && Clean(pieces, t.special) && OptionsOk(s.options)
      && (forall i | 0 <= i < |pieces| :: t.encode(Spaced(s.options[i].text)) == Ok(pieces[i]))
      && c.prefix == PrefixLayout(instruction, pieces, t.special)
      && c.markers == OptionMarks(pieces, 2 + |instruction|)
  {
    hide SchemaDigest, Ascii, ContainsReserved;
    instruction := t.encode(Question(s)).value;
    var head := [t.special.cls] + instruction + [t.special.sep];
    pieces := AddOptionsLayout(s.options, t, head, []);
    var marks := OptionMarks(pieces, |head|);
    assert [] + marks == marks;
  }

  /** Whatever `compile` accepts passes `validate_compiled`. */
  lemma CompiledIsValid(s: Schema, t: Tokenizer, q: U32)
    requires CompileSpec(s, t, q).Ok?
    ensures ValidateCompiled(CompileSpec(s, t, q).value) == Ok(())
  {
    var instruction, pieces := CompileLayout(s, t, q);
    PrefixCount(instruction, pieces, t.special);
    OptionCount(pieces, t.special);
    OptionMarksOk(pieces, t.special, [t.special.cls] + instruction + [t.special.sep], [t.special.sep]);
    hide SchemaDigest, ContainsReserved, Ascii, OptionMarks, OptionLayout, Count;
  }

  // ----- when a schema compiles and a state renders ---------------------------------------------

  /** The text has tokens, and none of them is a control token. */
  predicate Worded(t: Tokenizer, text: Blob) {
    t.encode(text).Ok? && t.encode(text).value != [] && !HasControl(t.encode(text).value, t.special)
  }

  function Length(t: Tokenizer, text: Blob): nat {
    if t.encode(text).Ok? then |t.encode(text).value| else 0
  }

  function OptionsLength(os: seq<OptionDef>, t: Tokenizer): nat
    requires forall i | 0 <= i < |os| :: |os[i].text| <= 1024
  {
    if os == [] then 0 else 1 + Length(t, Spaced(os[0].text)) + OptionsLength(os[1..], t)
  }

  lemma {:induction false} AddOptionsExact(os: seq<OptionDef>, t: Tokenizer, prefix: seq<U32>, markers: seq<U32>)
    requires forall i | 0 <= i < |os| :: |os[i].text| <= 1024
    ensures var out := AddOptions(os, t, prefix, markers);
      && (out.Ok? <==> forall i | 0 <= i < |os| :: Worded(t, Spaced(os[i].text)) && Length(t, Spaced(os[i].text)) <= 48)
      && (out.Ok? ==> |out.value.0| == |prefix| + OptionsLength(os, t))
  {
    hide HasControl;
    if os != [] {
      var good := Worded(t, Spaced(os[0].text)) && Length(t, Spaced(os[0].text)) <= 48;
      if good {
        AddOptionsExact(os[1..], t, prefix + [t.special.mask] + t.encode(Spaced(os[0].text)).value, markers + [|prefix| % TWO_32]);
      }
      assert forall i | 1 <= i < |os| :: os[i] == os[1..][i - 1];
    }
  }

  /** When a schema compiles: a question and options the tokenizer can word without control tokens, short enough in all. */
  lemma CompileExact(s: Schema, t: Tokenizer, q: U32)
    ensures CompileSpec(s, t, q).Ok? <==>
      && ValidateSchema(s).Ok? && q < 3 && SpecialsDistinct(t.special) && t.special.literals != []
      && !ContainsReserved(s.instructions, t.special)
      && (forall i | 0 <= i < |s.options| :: !ContainsReserved(s.options[i].text, t.special))
      && Worded(t, Question(s))
      && (forall i | 0 <= i < |s.options| :: Worded(t, Spaced(s.options[i].text)) && Length(t, Spaced(s.options[i].text)) <= 48)
      && 3 + Length(t, Question(s)) + OptionsLength(s.options, t) <= MAX_PREFIX
  {
    hide ContainsReserved, Ascii, HasControl, SchemaDigest;
    if ValidateSchema(s).Ok? && Worded(t, Question(s)) {
      AddOptionsExact(s.options, t, [t.special.cls] + t.encode(Question(s)).value + [t.special.sep], []);
    }
  }

  /** A compiled schema renders every state with tokens of its own that fits behind it. */
  lemma CompiledRenders(s: Schema, t: Tokenizer, q: U32, state: Blob)
    requires CompileSpec(s, t, q).Ok?
    ensures Render(CompileSpec(s, t, q).value, t, state).Ok? <==>
      && 1 <= |state| <= MAX_STATE_BYTES && !ContainsReserved(state, t.special) && Worded(t, state)
      && 4 + Length(t, Question(s)) + OptionsLength(s.options, t) + Length(t, state) <= MAX_TOKENS
  {
    CompiledIsValid(s, t, q);
    AddOptionsExact(s.options, t, [t.special.cls] + t.encode(Question(s)).value + [t.special.sep], []);
    hide ContainsReserved, Ascii, HasControl, SchemaDigest, ValidateCompiled, AddOptions, OptionsLength;
  }

  // ----- rendering ------------------------------------------------------------------------

  /** Increasing marked positions exhaust the masks when there are as many of them as masks. */
  lemma {:induction false} MarkersExhaust(markers: seq<U32>, s: seq<U32>, mask: U32, from: nat, next: nat)
    requires MarkersOk(markers, s, mask) && from <= |s| && next <= |markers|
    requires next < |markers| ==> from <= markers[next]
    ensures Count(s[from..], mask) >= |markers| - next
    ensures Count(s[from..], mask) == |markers| - next ==>
      forall i | from <= i < |s| && s[i] == mask :: i in markers[next..]
    decreases |s| - from
  {
    if from < |s| {
      assert s[from..][1..] == s[from + 1..];
      if next < |markers| && markers[next] == from {
        MarkersExhaust(markers, s, mask, from + 1, next + 1);
        assert markers[next..] == [markers[next]] + markers[next + 1..];
      } else {
        MarkersExhaust(markers, s, mask, from + 1, next);
      }
    }
  }

  /** A rendered input fits, has masks exactly at its markers, and is accepted by the model. */
  lemma RenderAccepted(c: CompiledSchema, t: Tokenizer, state: Blob, vocab: nat)
    requires Render(c, t, state).Ok?
    requires forall i | 0 <= i < |Render(c, t, state).value.inputIds| :: Render(c, t, state).value.inputIds[i] < vocab
    ensures var x := Render(c, t, state).value;
      && ModelAccepts(x, c.special.mask, vocab, 3)
      && (SpecialsDistinct(c.special) ==>
            forall i | 0 <= i < |x.inputIds| :: x.inputIds[i] == c.special.mask <==> i in x.markers)
  {
    hide SchemaDigest, ContainsReserved, Ascii;
    var x, mask, ids := Render(c, t, state).value, c.special.mask, t.encode(state).value;
    assert c.prefix[0..] == c.prefix && c.markers[0..] == c.markers;
    MarkersExhaust(c.markers, c.prefix, mask, 0, 0);
    if SpecialsDistinct(c.special) {
      forall i | 0 <= i < |x.inputIds| ensures x.inputIds[i] == mask <==> i in x.markers {
        if i >= |c.prefix| {
          assert x.inputIds[i] == (ids + [c.special.sep])[i - |c.prefix|];
        }
      }
    }
  }

  // ----- the pieces can be read back ------------------------------------------------------

  /** Text up to the first delimiter, and what follows, are determined by the whole. */
  lemma Delimited(a: seq<U32>, b: seq<U32>, x: seq<U32>, y: seq<U32>)
    requires a + x == b + y && x != [] && y != []
    requires x[0] !in a && x[0] !in b && y[0] !in a && y[0] !in b
    ensures a == b && x == y
  {
    var w := a + x;
    assert w[|a|] == x[0] && w[|b|] == y[0];
    assert forall i | 0 <= i < |a| :: w[i] == a[i];
    assert forall i | 0 <= i < |b| :: w[i] == b[i];
    assert |a| == |b|;
    SplitEqual(a, b, x, y);
  }

  /** The option block, ended by `[SEP]`, splits into its options in one way. */
  lemma {:induction false} OptionsReadBack(p: seq<seq<U32>>, q: seq<seq<U32>>, sp: SpecialTokens, s: seq<U32>, t: seq<U32>)
    requires SpecialsDistinct(sp) && Clean(p, sp) && Clean(q, sp)
    requires OptionLayout(p, sp.mask) + ([sp.sep] + s) == OptionLayout(q, sp.mask) + ([sp.sep] + t)
    ensures p == q && s == t
    decreases |p|
  {
    var w := OptionLayout(p, sp.mask) + ([sp.sep] + s);
    assert p == [] ==> w[0] == sp.sep;
    assert q == [] ==> w[0] == sp.sep;
    assert p != [] ==> w[0] == sp.mask;
    assert q != [] ==> w[0] == sp.mask;
    if p == [] {
      assert s == w[1..] == t;
    } else {
      var x, y := OptionLayout(p[1..], sp.mask) + ([sp.sep] + s), OptionLayout(q[1..], sp.mask) + ([sp.sep] + t);
      assert w[1..] == p[0] + x && w[1..] == q[0] + y;
      OptionHead(p[1..], sp, s);
      OptionHead(q[1..], sp, t);
      Delimited(p[0], q[0], x, y);
      OptionsReadBack(p[1..], q[1..], sp, s, t);
      assert p == [p[0]] + p[1..] && q == [q[0]] + q[1..];
    }
  }

  lemma OptionHead(p: seq<seq<U32>>, sp: SpecialTokens, s: seq<U32>)
    ensures var x := OptionLayout(p, sp.mask) + ([sp.sep] + s); x != [] && IsControl(x[0], sp)
  {
  }

  /** The full rendered sequence. */
  function RenderLayout(instruction: seq<U32>, pieces: seq<seq<U32>>, state: seq<U32>, s: SpecialTokens): seq<U32> {
    PrefixLayout(instruction, pieces, s) + state + [s.sep]
  }

  lemma RenderRegroup(i: seq<U32>, p: seq<seq<U32>>, state: seq<U32>, sp: SpecialTokens)
    ensures RenderLayout(i, p, state, sp)
         == [sp.cls] + (i + ([sp.sep] + (OptionLayout(p, sp.mask) + ([sp.sep] + (state + [sp.sep])))))
  {
    hide OptionLayout;
  }

  /** Equal rendered sequences come from equal instruction, option and state tokens. */
  lemma RenderReadBack(
    i1: seq<U32>, p1: seq<seq<U32>>, s1: seq<U32>, i2: seq<U32>, p2: seq<seq<U32>>, s2: seq<U32>, sp: SpecialTokens)
    requires SpecialsDistinct(sp) && Clean(p1, sp) && Clean(p2, sp)
    requires !HasControl(i1, sp) && !HasControl(i2, sp) && !HasControl(s1, sp) && !HasControl(s2, sp)
    requires RenderLayout(i1, p1, s1, sp) == RenderLayout(i2, p2, s2, sp)
    ensures i1 == i2 && p1 == p2 && s1 == s2
  {
    RenderRegroup(i1, p1, s1, sp);
    RenderRegroup(i2, p2, s2, sp);
    var a := OptionLayout(p1, sp.mask) + ([sp.sep] + (s1 + [sp.sep]));
    var b := OptionLayout(p2, sp.mask) + ([sp.sep] + (s2 + [sp.sep]));
    hide RenderLayout, OptionLayout;
    SplitEqual([sp.cls], [sp.cls], i1 + ([sp.sep] + a), i2 + ([sp.sep] + b));
    Delimited(i1, i2, [sp.sep] + a, [sp.sep] + b);
    SplitEqual([sp.sep], [sp.sep], a, b);
    OptionsReadBack(p1, p2, sp, s1 + [sp.sep], s2 + [sp.sep]);
    Delimited(s1, s2, [sp.sep], [sp.sep]);
  }

  /** End to end: two rendered requests that the model cannot tell apart ask the same thing. */
  lemma RenderedInputDecides(s: Schema, s': Schema, t: Tokenizer, q: U32, q': U32, state: Blob, state': Blob)
    requires CompileSpec(s, t, q).Ok? && CompileSpec(s', t, q').Ok?
    requires var c, c' := CompileSpec(s, t, q).value, CompileSpec(s', t, q').value;
      Render(c, t, state).Ok? && Render(c, t, state) == Render(c', t, state')
    ensures q == q' && t.encode(Question(s)) == t.encode(Question(s')) && t.encode(state) == t.encode(state')
    ensures OptionsOk(s.options) && OptionsOk(s'.options) && |s.options| == |s'.options|
    ensures forall i | 0 <= i < |s.options| :: t.encode(Spaced(s.options[i].text)) == t.encode(Spaced(s'.options[i].text))
  {
    var i, p := CompileLayout(s, t, q);
    var i', p' := CompileLayout(s', t, q');
    hide CompileSpec, SchemaDigest, Ascii, ContainsReserved, ValidateCompiled, OptionMarks;
    RenderReadBack(i, p, t.encode(state).value, i', p', t.encode(state').value, t.special);
  }
}
