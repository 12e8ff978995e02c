/** The printer, and how printing and parsing undo each other. */
module CborRoundTrip {
  import opened Outcomes
  import opened ByteStrings
  import opened CborGrammar
  import opened ParsedArrays
  import opened CborRefinement

  /** `encode_item_start`. The buffers for values above 65535 are one (or four) bytes short,
      so writing the number into them panics. */
  function EncodeItemStart(major: nat, val: nat): (r: Parsed<Bytes>)
    requires major < 8
  {
    if val <= 23 then Ok([major * 32 + val])
    else if val <= 0xff then Ok([major * 32 + 24, val])
    else if val <= 0xffff then Ok([major * 32 + 25] + ToBigEndian16(val))
    else Panic(ShortBuffer)
  }

  function Serialize(a: ParsedArray): Parsed<Bytes> {
    var tag := if a.tag.None? then Ok([]) else EncodeItemStart(6, a.tag.value);
    match (tag, EncodeItemStart(4, |a.contents|))
    case (Ok(t), Ok(len)) => Ok(t + len + Flatten(a.contents))
    case _ => Panic(ShortBuffer)
  }

  /** `serialize_to_writer`: the header, then one write per item. */
  method SerializeToWriter(a: ParsedArray) returns (r: Parsed<Bytes>)
    ensures r == Serialize(a)
  {
    var header: Bytes := [];
    if a.tag.Some? {
      var tag := EncodeItemStart(6, a.tag.value);
      if !tag.Ok? {
        return tag;
      }
      header := tag.value;
    }
    var len := EncodeItemStart(4, |a.contents|);
    if !len.Ok? {
      return len;
    }
    header := header + len.value;
    var writer := header;
    for i := 0 to |a.contents|
      invariant writer + Flatten(a.contents[i..]) == header + Flatten(a.contents)
    {
      assert a.contents[i..][1..] == a.contents[i + 1..];
      writer := writer + a.contents[i];
    }
    assert a.contents[|a.contents|..] == [];
    assert writer + [] == writer;
    r := Ok(writer);
  }

  /** Exactly the arrays whose tag and length fit sixteen bits can be printed. */
  lemma {:induction false} SerializeSucceedsIff(a: ParsedArray)
    ensures Serialize(a).Ok? <==> (a.tag.Some? ==> a.tag.value <= 0xffff) && |a.contents| <= 0xffff
    ensures !Serialize(a).Ok? ==> Serialize(a) == Panic(ShortBuffer)
  {
  }

  // ------------------------------------------------- shortest arguments

  function ShortArg(val: nat): (arg: Arg)
    requires val <= 0xffff
  {
    if val <= 23 then Arg(val, [])
    else if val <= 0xff then Arg(24, [val])
    else Arg(25, ToBigEndian16(val))
  }

  lemma {:induction false} ShortArgSpells(major: nat, val: nat)
    requires major < 8 && val <= 0xffff
    ensures ShortArg(val).Valid() && ShortArg(val).Value() == val
    ensures EncodeItemStart(major, val) == Ok(Start(major, ShortArg(val)))
  {
    if val <= 23 {
      assert [major * 32 + val] + [] == [major * 32 + val];
    } else if val <= 0xff {
      FromBigEndian1(val);
      assert [major * 32 + 24] + [val] == [major * 32 + 24, val];
    } else {
      BigEndian16RoundTrip(val);
    }
  }

  /** An argument is what the printer writes exactly when it is the shortest one. */
  lemma {:induction false} ShortestIff(arg: Arg)
    requires arg.Valid()
    ensures arg.Shortest() <==> arg.Value() <= 0xffff && arg == ShortArg(arg.Value())
  {
    if arg.minor == 24 {
      assert arg.ext == [arg.ext[0]];
      FromBigEndian1(arg.ext[0]);
    } else if arg.minor == 25 {
      BigEndian16RoundTripBack(arg.ext);
    }
  }

  // ------------------------------------------------- print, then parse

  /** One well-formed data item. */
  ghost predicate IsItem(b: Bytes) {
    exists t: Item :: WellFormed(t) && Spell(t) == b
  }

  ghost predicate Encodable(a: ParsedArray) {
    && (a.tag.Some? ==> a.tag.value <= 0xffff)
    && |a.contents| <= 0xffff
    && forall i | 0 <= i < |a.contents| :: IsItem(a.contents[i])
  }

  lemma {:induction false} TreesOfContents(cs: seq<Bytes>) returns (ts: seq<Item>)
    requires forall i | 0 <= i < |cs| :: IsItem(cs[i])
    ensures AllWellFormed(ts) && SpellEach(ts) == cs && SpellAll(ts) == Flatten(cs)
  {
    if cs == [] {
      ts := [];
    } else {
      var others := TreesOfContents(cs[1..]);
      var t: Item :| WellFormed(t) && Spell(t) == cs[0];
      ts := [t] + others;
      assert ts[1..] == others;
      assert SpellEach(ts) == [Spell(t)] + SpellEach(others);
    }
  }

  lemma {:induction false} SerializeSpells(a: ParsedArray, ts: seq<Item>) returns (tag: seq<Arg>, len: Arg)
    requires (a.tag.Some? ==> a.tag.value <= 0xffff) && |a.contents| <= 0xffff
    requires AllWellFormed(ts) && SpellEach(ts) == a.contents && SpellAll(ts) == Flatten(a.contents)
    ensures tag == (if a.tag.None? then [] else [ShortArg(a.tag.value)]) && len == ShortArg(|ts|)
    ensures ArrayParts(None, tag, len, ts) && TagValue(tag) == a.tag
    ensures Serialize(a) == Ok(SpellArray(tag, len, ts))
  {
    len := ShortArg(|ts|);
    ShortArgSpells(4, |ts|);
    tag := if a.tag.None? then [] else [ShortArg(a.tag.value)];
    if a.tag.Some? {
      ShortArgSpells(6, a.tag.value);
    }
  }

  /** Parsing a printed array returns it and leaves whatever followed. */
  lemma {:induction false} SerializeThenParse(mode: Arithmetic, size: Size, a: ParsedArray, rest: Bytes)
    requires Encodable(a) && (size.Some? ==> size.value == |a.contents|)
    ensures Serialize(a).Ok?
    ensures Parse(mode, size, Serialize(a).value + rest) == Ok((a, rest))
  {
    hide Parse;
    var ts := TreesOfContents(a.contents);
    var tag, len := SerializeSpells(a, ts);
    ParseAcceptsGrammar(mode, size, tag, len, ts, rest);
  }

  // ------------------------------------------------- parse, then print

  lemma {:induction false} EachIsItem(ts: seq<Item>)
    requires AllWellFormed(ts)
    ensures forall i | 0 <= i < |ts| :: IsItem(SpellEach(ts)[i])
    ensures SpellAll(ts) == Flatten(SpellEach(ts))
  {
    hide WellFormed, Spell;
    forall i | 0 <= i < |ts| ensures IsItem(SpellEach(ts)[i]) {
      assert WellFormed(ts[i]) && Spell(ts[i]) == SpellEach(ts)[i];
    }
    if ts != [] {
      EachIsItem(ts[1..]);
      assert SpellEach(ts)[1..] == SpellEach(ts[1..]);
    }
  }

  /** Every slice the parser returns is one well-formed item. */
  lemma {:induction false} ParsedContentsAreItems(size: Size, s: Bytes)
    requires Parse(Checked, size, s).Ok?
    ensures forall i | 0 <= i < |Parse(Checked, size, s).value.0.contents| ::
              IsItem(Parse(Checked, size, s).value.0.contents[i])
    ensures size.Some? ==> |Parse(Checked, size, s).value.0.contents| == size.value
  {
    hide Parse;
    var tag, len, ts := ParseStaysInGrammar(size, s);
    EachIsItem(ts);
  }

  /** The initial byte at the start of `s` spells its argument as shortly as the printer does. */
  predicate ShortStart(s: Bytes) {
    s != [] &&
    var minor := s[0] % 32;
    || minor <= 23
    || (minor == 24 && |s| >= 2 && s[1] > 23)
    || (minor == 25 && |s| >= 3 && s[1] > 0)
  }

  /** The length of an initial byte with its argument. */
  function StartSize(b: byte): nat {
    var minor := b % 32;
    if minor <= 23 then 1 else if minor == 24 then 2 else if minor == 25 then 3 else if minor == 26 then 5 else 9
  }

  /** What a caller can check about the tag and the length of an array before parsing it. */
  predicate ShortHeads(s: Bytes) {
    && ShortStart(s)
    && (s[0] / 32 == 6 ==> StartSize(s[0]) <= |s| && ShortStart(s[StartSize(s[0])..]))
  }

  lemma {:induction false} ShortStartIff(major: nat, arg: Arg, r: Bytes)
    requires major < 8 && arg.Valid()
    ensures
      var s := Start(major, arg) + r;
      s[0] / 32 == major && StartSize(s[0]) == |Start(major, arg)| &&
      (ShortStart(s) <==> arg.Shortest())
  {
    var s := Start(major, arg) + r;
    if arg.minor == 24 {
      assert arg.ext == [arg.ext[0]];
      FromBigEndian1(arg.ext[0]);
      assert s[1] == arg.ext[0];
    } else if arg.minor == 25 {
      assert arg.ext == [arg.ext[0], arg.ext[1]];
      FromBigEndian2(arg.ext[0], arg.ext[1]);
      assert s[1] == arg.ext[0];
    }
  }

  lemma {:induction false} ShortHeadsIff(tag: seq<Arg>, len: Arg, ts: seq<Item>, rest: Bytes)
    requires ArrayParts(None, tag, len, ts)
    ensures ShortHeads(SpellArray(tag, len, ts) + rest) <==>
            len.Shortest() && (tag != [] ==> tag[0].Shortest())
  {
    hide WellFormed, SpellAll, ShortStart;
    var s := SpellArray(tag, len, ts) + rest;
    var tail := SpellAll(ts) + rest;
    ShortStartIff(4, len, tail);
    if tag == [] {
      assert s == Start(4, len) + tail;
    } else {
      var body := Start(4, len) + tail;
      assert s == Start(6, tag[0]) + body;
      ShortStartIff(6, tag[0], body);
      assert s[|Start(6, tag[0])|..] == body;
    }
  }

  lemma {:induction false} SpellArrayInjective(tag: seq<Arg>, len: Arg, tag': seq<Arg>, len': Arg, ts: seq<Item>)
    requires ArrayParts(None, tag, len, ts) && ArrayParts(None, tag', len', ts) && |tag| == |tag'|
    requires SpellArray(tag, len, ts) == SpellArray(tag', len', ts)
    ensures tag == tag' && len == len'
  {
    hide WellFormed, SpellAll, Start, Arg.Value;
    var tail := SpellAll(ts);
    var start, start' := Start(4, len), Start(4, len');
    if tag == [] {
      assert [] + start + tail == start + tail && [] + start' + tail == start' + tail;
    } else {
      var t, t' := Start(6, tag[0]), Start(6, tag'[0]);
      assert t + start + tail == t + (start + tail) && t' + start' + tail == t' + (start' + tail);
      StartInjective(6, tag[0], tag'[0], start + tail, start' + tail);
    }
    StartInjective(4, len, len', tail, tail);
  }

  lemma {:induction false} StartInjective(major: nat, a: Arg, b: Arg, r: Bytes, r': Bytes)
    requires major < 8 && a.Valid() && b.Valid()
    requires Start(major, a) + r == Start(major, b) + r'
    ensures a == b && r == r'
  {
    var s := Start(major, a) + r;
    var s' := Start(major, b) + r';
    assert s[0] == major * 32 + a.minor && s'[0] == major * 32 + b.minor;
    assert a.minor == b.minor && |a.ext| == |b.ext|;
    var k := 1 + |a.ext|;
    assert s[1..k] == a.ext && s'[1..k] == b.ext;
    assert s[k..] == r && s'[k..] == r';
  }

  /** Printing what was parsed gives the parsed bytes back exactly when the tag and the length
      were in shortest form. */
  lemma {:induction false} ParseThenSerialize(size: Size, s: Bytes)
    requires Parse(Checked, size, s).Ok?
    ensures
      var (a, rest) := Parse(Checked, size, s).value;
      Serialize(a) == Ok(s[..|s| - |rest|]) <==> ShortHeads(s)
  {
    hide Parse, SpellArray, ShortHeads;
    var (a, rest) := Parse(Checked, size, s).value;
    var tag, len, ts := ParseStaysInGrammar(size, s);
    EachIsItem(ts);
    ShortHeadsIff(tag, len, ts, rest);
    assert s[..|s| - |rest|] == SpellArray(tag, len, ts);
    PrintedIffShortest(a, tag, len, ts);
  }

  lemma {:induction false} PrintedIffShortest(a: ParsedArray, tag: seq<Arg>, len: Arg, ts: seq<Item>)
    requires ArrayParts(None, tag, len, ts) && a == ParsedArray(TagValue(tag), SpellEach(ts))
    requires SpellAll(ts) == Flatten(a.contents)
    ensures Serialize(a) == Ok(SpellArray(tag, len, ts)) <==> len.Shortest() && (tag != [] ==> tag[0].Shortest())
  {
    hide SpellArray, SpellAll, WellFormed;
    ShortestIff(len);
    if tag != [] {
      ShortestIff(tag[0]);
    }
    SerializeSucceedsIff(a);
    if Serialize(a).Ok? {
      var tag', len' := SerializeSpells(a, ts);
      assert tag == [] || tag == [tag[0]];
      if Serialize(a).value == SpellArray(tag, len, ts) {
        SpellArrayInjective(tag, len, tag', len', ts);
      }
    }
  }

  /** Whatever spelling was read, the printed form reads as the same array: it is a normal form. */
  lemma {:induction false} NormalForm(mode: Arithmetic, size: Size, s: Bytes, rest: Bytes)
    requires Parse(Checked, size, s).Ok? && Serialize(Parse(Checked, size, s).value.0).Ok?
    ensures
      var a := Parse(Checked, size, s).value.0;
      Parse(mode, size, Serialize(a).value + rest) == Ok((a, rest))
  {
    hide Parse, Serialize;
    var a := Parse(Checked, size, s).value.0;
    ParsedContentsAreItems(size, s);
    SerializeSucceedsIff(a);
    SerializeThenParse(mode, size, a, rest);
  }

  /** The bytes after an array do not influence how it is read. */
  lemma {:induction false} ParseIgnoresWhatFollows(size: Size, s: Bytes, rest': Bytes)
    requires Parse(Checked, size, s).Ok?
    ensures
      var (a, rest) := Parse(Checked, size, s).value;
      Parse(Checked, size, s[..|s| - |rest|] + rest') == Ok((a, rest'))
  {
    hide Parse, SpellArray;
    var (a, rest) := Parse(Checked, size, s).value;
    var tag, len, ts := ParseStaysInGrammar(size, s);
    assert s[..|s| - |rest|] == SpellArray(tag, len, ts);
    ParseAcceptsGrammar(Checked, size, tag, len, ts, rest');
  }
}
