/** The two builds of the parser. A release build doubles the number of pairs of a map without a
check; what that changes is stated on the bytes of the input. */
module HugeMaps {
  import opened Outcomes
  import opened ByteStrings
  import opened CborGrammar
  import opened ParsedArrays
  import opened CborRefinement

  // ------------------------------------------------- an input as a list of heads

  /** An initial byte, its argument, and the payload of a string. */
  datatype RawHead = RawHead(major: nat, arg: Arg, payload: Bytes) {

    predicate Valid() {
      && major < 7 && arg.Valid()
      && if major == 2 || major == 3 then |payload| == arg.Value() <= MAX_ALLOC else payload == []
    }

    function Spelling(): Bytes
      requires Valid()
    {
      Start(major, arg) + payload
    }

    /** A map whose doubled number of pairs does not fit sixty-four bits. */
    predicate Huge() {
      major == 5 && 2 * arg.Value() >= U64
    }

    /** The items it announces; None where the parser gives up. */
    function Announces(mode: Arithmetic): Option<nat> {
      if major == 4 then Some(arg.Value())
      else if major == 6 then Some(1)
      else if major != 5 then Some(0)
      else if !Huge() then Some(2 * arg.Value())
      else if mode.Checked? || 2 * arg.Value() % U64 == 0 then None
      else Some(2 * arg.Value() % U64)
    }
  }

  predicate AllValid(heads: seq<RawHead>) {
    forall i | 0 <= i < |heads| :: heads[i].Valid()
  }

  function SpellHeads(heads: seq<RawHead>): Bytes
    requires AllValid(heads)
  {
    if heads == [] then [] else heads[0].Spelling() + SpellHeads(heads[1..])
  }

  /** The items still pending after these heads, if `n` were pending before and never none in between. */
  function Pending(mode: Arithmetic, n: nat, heads: seq<RawHead>): Option<nat>
    decreases |heads|
  {
    if heads == [] then Some(n)
    else if n == 0 || heads[0].Announces(mode).None? then None
    else Pending(mode, n - 1 + heads[0].Announces(mode).value, heads[1..])
  }

  // ------------------------------------------------- reading heads

  lemma {:induction false} ReadValidHead(mode: Arithmetic, l: RawHead, r: Bytes)
    requires l.Valid()
    ensures
      var head := ReadHead(mode, l.Spelling() + r);
      match l.Announces(mode)
      case Some(n) => head == Ok(Head(|l.Spelling()|, n))
      case None => head == if mode.Checked? then Panic(Overflow) else Err(ZeroItemsLeft)
  {
    var s := l.Spelling() + r;
    assert s == Start(l.major, l.arg) + (l.payload + r);
    ReadStart(l.major, l.arg, l.payload + r);
    hide FromBigEndian;
  }

  /** What was read, or what stopped the checked parser, is a head. */
  lemma {:induction false} HeadAt(mode: Arithmetic, s: Bytes) returns (l: RawHead)
    requires ReadHead(mode, s).Ok? || ReadHead(mode, s) == Panic(Overflow)
    ensures l.Valid() && |l.Spelling()| <= |s| && s[..|l.Spelling()|] == l.Spelling()
    ensures match ReadHead(mode, s)
            case Ok(h) => |l.Spelling()| == h.size && l.Announces(mode) == Some(h.children)
            case _ => mode.Checked? && l.Huge()
  {
    LengthsDoNotOverflow(s);
    hide ReadLen, FromBigEndian;
    var major := s[0] / 32;
    var arg := ArgOfLen(s);
    var at := 1 + |arg.ext|;
    if major == 2 || major == 3 {
      var h := ReadHead(mode, s).value;
      l := RawHead(major, arg, s[at..h.size]);
      assert s[..at] + s[at..h.size] == s[..h.size];
    } else {
      l := RawHead(major, arg, []);
      assert s[..at] + [] == s[..at];
    }
  }

  // ------------------------------------------------- reading items

  lemma {:induction false} SkipHeads(mode: Arithmetic, heads: seq<RawHead>, r: Bytes, n: nat)
    requires AllValid(heads) && Pending(mode, n, heads).Some?
    ensures Skip(mode, SpellHeads(heads) + r, n) == Shift(|SpellHeads(heads)|, Skip(mode, r, Pending(mode, n, heads).value))
  {
    hide ReadHead, Skip, RawHead.Spelling, RawHead.Announces, RawHead.Valid;
    if heads == [] {
      assert SpellHeads(heads) + r == r;
      var k := Skip(mode, r, n);
      assert Shift(0, k) == k;
    } else {
      var l, r' := heads[0], SpellHeads(heads[1..]) + r;
      var s := SpellHeads(heads) + r;
      assert s == l.Spelling() + r';
      ReadValidHead(mode, l, r');
      assert s[|l.Spelling()|..] == r';
      SkipStep(mode, s, n, Head(|l.Spelling()|, l.Announces(mode).value));
      SkipHeads(mode, heads[1..], r, n - 1 + l.Announces(mode).value);
    }
  }

  /** The heads that were read, up to the end or to the huge map that stopped the checked parser. */
  lemma {:induction false} HeadsOfSkip(mode: Arithmetic, s: Bytes, n: nat) returns (heads: seq<RawHead>)
    requires Skip(mode, s, n).Ok? || Skip(mode, s, n) == Panic(Overflow)
    ensures AllValid(heads) && Pending(mode, n, heads).Some?
    ensures |SpellHeads(heads)| <= |s| && s[..|SpellHeads(heads)|] == SpellHeads(heads)
    ensures
      var left, at := Pending(mode, n, heads).value, |SpellHeads(heads)|;
      match Skip(mode, s, n)
      case Ok(m) => left == 0 && at == m
      case _ => left > 0 && ReadHead(mode, s[at..]) == Panic(Overflow)
    decreases |s|
  {
    hide ReadHead, RawHead.Spelling, RawHead.Announces, RawHead.Valid;
    if n == 0 {
      heads := [];
    } else if ReadHead(mode, s) == Panic(Overflow) {
      heads := [];
      assert s[0..] == s;
    } else {
      var h := ReadHead(mode, s).value;
      var l := HeadAt(mode, s);
      var s' := s[h.size..];
      var others := HeadsOfSkip(mode, s', n - 1 + h.children);
      heads := [l] + others;
      assert heads[1..] == others;
      var at := |SpellHeads(others)|;
      assert s[..h.size] + s'[..at] == s[..h.size + at];
      assert s'[at..] == s[h.size + at..];
    }
  }

  lemma {:induction false} SkipFails(mode: Arithmetic, s: Bytes, n: nat)
    requires n >= 1 && !ReadHead(mode, s).Ok?
    ensures Skip(mode, s, n) == ReadHead(mode, s).PropagateFailure()
  {
    hide ReadHead;
  }

  /** Skipping items one after the other is skipping them all. */
  lemma {:induction false} SkipSum(mode: Arithmetic, s: Bytes, a: nat, b: nat)
    ensures Skip(mode, s, a + b) ==
      match Skip(mode, s, a)
      case Ok(m) => Shift(m, Skip(mode, s[m..], b))
      case Err(e) => Err(e)
      case Panic(c) => Panic(c)
    decreases |s|
  {
    hide ReadHead, Skip;
    if a == 0 {
      SkipNothing(mode, s);
      assert s[0..] == s;
      var k := Skip(mode, s, b);
      assert Shift(0, k) == k;
    } else if !ReadHead(mode, s).Ok? {
      SkipFails(mode, s, a);
      SkipFails(mode, s, a + b);
    } else {
      var h := ReadHead(mode, s).value;
      SkipStep(mode, s, a, h);
      SkipStep(mode, s, a + b, h);
      SkipSum(mode, s[h.size..], a - 1 + h.children, b);
      if Skip(mode, s, a).Ok? {
        var m := Skip(mode, s[h.size..], a - 1 + h.children).value;
        assert s[h.size..][m..] == s[h.size + m..];
      }
    }
  }

  /** The items end where the heads end, and fail as the heads fail. */
  lemma {:induction false} ItemsEnd(mode: Arithmetic, s: Bytes, n: nat)
    ensures
      match Skip(mode, s, n)
      case Ok(m) => Items(mode, s, n).Ok? && Items(mode, s, n).value.1 == s[m..]
      case Err(e) => Items(mode, s, n) == Err(e)
      case Panic(c) => Items(mode, s, n) == Panic(c)
    decreases n
  {
    hide Skip;
    if n == 0 {
      SkipNothing(mode, s);
    } else {
      SkipSum(mode, s, 1, n - 1);
      if Skip(mode, s, 1).Ok? {
        var m := Skip(mode, s, 1).value;
        ItemsEnd(mode, s[m..], n - 1);
        if Skip(mode, s[m..], n - 1).Ok? {
          assert s[m..][Skip(mode, s[m..], n - 1).value..] == s[m + Skip(mode, s[m..], n - 1).value..];
        }
      }
    }
  }

  // ------------------------------------------------- whole arrays

  /** The bytes of an array up to its first item. */
  predicate Opens(size: Size, tag: seq<Arg>, len: Arg) {
    && |tag| <= 1 && (forall t | t in tag :: t.Valid()) && len.Valid()
    && (size.Some? ==> size.value == len.Value())
  }

  function Opening(tag: seq<Arg>, len: Arg): Bytes
    requires |tag| <= 1 && (forall t | t in tag :: t.Valid()) && len.Valid()
  {
    (if tag == [] then [] else Start(6, tag[0])) + Start(4, len)
  }

  lemma {:induction false} ParseStart(mode: Arithmetic, size: Size, tag: Option<nat>, len: Arg, body: Bytes)
    requires len.Valid() && (size.Some? ==> size.value == len.Value())
    ensures ParseUntagged(mode, size, tag, Start(4, len) + body) ==
      match Items(mode, body, len.Value())
      case Ok(items) => Ok((ParsedArray(tag, items.0), items.1))
      case Err(e) => Err(e)
      case Panic(c) => Panic(c)
  {
    hide Items, ReadLen, FromBigEndian, Arg.Value;
    ReadStart(4, len, body);
    assert (Start(4, len) + body)[1 + |len.ext|..] == body;
  }

  /** After the opening, everything depends on the items. */
  lemma {:induction false} ParseOpening(mode: Arithmetic, size: Size, tag: seq<Arg>, len: Arg, body: Bytes)
    requires Opens(size, tag, len)
    ensures Parse(mode, size, Opening(tag, len) + body) ==
      match Items(mode, body, len.Value())
      case Ok(items) => Ok((ParsedArray(TagValue(tag), items.0), items.1))
      case Err(e) => Err(e)
      case Panic(c) => Panic(c)
  {
    hide Items, ReadLen, FromBigEndian, Arg.Value, ParseUntagged;
    var plain := Start(4, len) + body;
    ParseStart(mode, size, TagValue(tag), len, body);
    var s := Opening(tag, len) + body;
    if tag == [] {
      assert s == plain;
      assert s[0] / 32 == 4;
    } else {
      assert s == Start(6, tag[0]) + plain;
      ReadStart(6, tag[0], plain);
      assert s[1 + |tag[0].ext|..] == plain;
    }
  }

  lemma {:induction false} UntaggedOpening(mode: Arithmetic, size: Size, tag: Option<nat>, s: Bytes) returns (len: Arg)
    requires s != [] && (ParseUntagged(mode, size, tag, s).Ok? || ParseUntagged(mode, size, tag, s) == Panic(Overflow))
    ensures Opens(size, [], len) && |Start(4, len)| <= |s| && s == Start(4, len) + s[|Start(4, len)|..]
  {
    LengthsDoNotOverflow(s);
    hide Items, ReadLen, FromBigEndian;
    len := ArgOfLen(s);
  }

  lemma {:induction false} TaggedOpening(mode: Arithmetic, size: Size, s: Bytes) returns (t: Arg)
    requires Parse(mode, size, s).Ok? || Parse(mode, size, s) == Panic(Overflow)
    requires s != [] && s[0] / 32 == 6
    ensures t.Valid() && |Start(6, t)| < |s| && s[..|Start(6, t)|] == Start(6, t)
    ensures Parse(mode, size, s) == ParseUntagged(mode, size, Some(t.Value()), s[|Start(6, t)|..])
  {
    LengthsDoNotOverflow(s);
    hide ParseUntagged, ReadLen, FromBigEndian, Arg.Value;
    t := ArgOfLen(s);
  }

  /** Whatever got as far as the items has an opening. */
  lemma {:induction false} OpeningOf(mode: Arithmetic, size: Size, s: Bytes) returns (tag: seq<Arg>, len: Arg, body: Bytes)
    requires Parse(mode, size, s).Ok? || Parse(mode, size, s) == Panic(Overflow)
    ensures Opens(size, tag, len) && s == Opening(tag, len) + body
  {
    hide ParseUntagged, ReadLen, FromBigEndian, Arg.Value;
    assert s != [];
    if s[0] / 32 == 6 {
      var t := TaggedOpening(mode, size, s);
      hide Parse, Start;
      var rest := s[|Start(6, t)|..];
      assert s == Start(6, t) + rest;
      len := UntaggedOpening(mode, size, Some(t.Value()), rest);
      tag, body := [t], rest[|Start(4, len)|..];
      assert Start(6, t) + (Start(4, len) + body) == Opening(tag, len) + body;
    } else {
      len := UntaggedOpening(mode, size, None, s);
      hide Parse, Start;
      tag, body := [], s[|Start(4, len)|..];
      assert [] + Start(4, len) == Start(4, len);
    }
  }

  lemma {:induction false} LengthsDoNotOverflow(s: Bytes)
    ensures s != [] ==> ReadLen(s[0] % 32, s[1..]) != Panic(Overflow)
  {
    hide FromBigEndian;
  }

  // ------------------------------------------------- the guard

  /** Reading head by head meets a huge map while items are still pending. */
  ghost predicate MeetsHugeMap(size: Size, s: Bytes) {
    exists tag: seq<Arg>, len: Arg, heads: seq<RawHead>, big: RawHead, rest: Bytes ::
      && Opens(size, tag, len) && AllValid(heads) && big.Valid() && big.Huge()
      && s == Opening(tag, len) + (SpellHeads(heads) + (big.Spelling() + rest))
      && Pending(Checked, len.Value(), heads).Some? && Pending(Checked, len.Value(), heads).value > 0
  }

  lemma {:induction false} HugeMapOverflows(size: Size, tag: seq<Arg>, len: Arg, heads: seq<RawHead>, big: RawHead, rest: Bytes)
    requires Opens(size, tag, len) && AllValid(heads) && big.Valid() && big.Huge()
    requires Pending(Checked, len.Value(), heads).Some? && Pending(Checked, len.Value(), heads).value > 0
    ensures Parse(Checked, size, Opening(tag, len) + (SpellHeads(heads) + (big.Spelling() + rest))) == Panic(Overflow)
  {
    hide Parse, Items, ReadHead, Opening, SpellHeads, RawHead.Spelling, RawHead.Valid, Pending;
    var at := big.Spelling() + rest;
    ReadValidHead(Checked, big, rest);
    assert Skip(Checked, at, Pending(Checked, len.Value(), heads).value) == Panic(Overflow);
    hide Skip;
    SkipHeads(Checked, heads, at, len.Value());
    ItemsEnd(Checked, SpellHeads(heads) + at, len.Value());
    ParseOpening(Checked, size, tag, len, SpellHeads(heads) + at);
  }

  /** The checked build stops for an overflow exactly on these inputs. */
  lemma {:induction false} OverflowIff(size: Size, s: Bytes)
    ensures Parse(Checked, size, s) == Panic(Overflow) <==> MeetsHugeMap(size, s)
  {
    hide Parse, Items, Skip, ReadHead, Opening, SpellHeads, RawHead.Spelling, RawHead.Valid, Pending;
    if Parse(Checked, size, s) == Panic(Overflow) {
      var tag, len, body := OpeningOf(Checked, size, s);
      ParseOpening(Checked, size, tag, len, body);
      ItemsEnd(Checked, body, len.Value());
      var heads := HeadsOfSkip(Checked, body, len.Value());
      var at := |SpellHeads(heads)|;
      var big := HeadAt(Checked, body[at..]);
      var rest := body[at..][|big.Spelling()|..];
      assert body[at..] == big.Spelling() + rest;
      assert body == SpellHeads(heads) + body[at..];
    }
    if tag: seq<Arg>, len: Arg, heads: seq<RawHead>, big: RawHead, rest: Bytes :|
         && Opens(size, tag, len) && AllValid(heads) && big.Valid() && big.Huge()
         && s == Opening(tag, len) + (SpellHeads(heads) + (big.Spelling() + rest))
         && Pending(Checked, len.Value(), heads).Some? && Pending(Checked, len.Value(), heads).value > 0
    {
      HugeMapOverflows(size, tag, len, heads, big, rest);
    }
  }

  // ------------------------------------------------- where the builds agree

  lemma {:induction false} HeadModes(s: Bytes)
    ensures ReadHead(Wrapping, s) != Panic(Overflow)
    ensures ReadHead(Checked, s) != Panic(Overflow) ==> ReadHead(Wrapping, s) == ReadHead(Checked, s)
  {
  }

  lemma {:induction false} SkipModes(s: Bytes, n: nat)
    ensures Skip(Wrapping, s, n) != Panic(Overflow)
    ensures Skip(Checked, s, n) != Panic(Overflow) ==> Skip(Wrapping, s, n) == Skip(Checked, s, n)
    decreases |s|
  {
    hide ReadHead;
    HeadModes(s);
    if n > 0 && ReadHead(Wrapping, s).Ok? {
      var h := ReadHead(Wrapping, s).value;
      SkipModes(s[h.size..], n - 1 + h.children);
    }
  }

  lemma {:induction false} ItemsModes(s: Bytes, n: nat)
    ensures Items(Wrapping, s, n) != Panic(Overflow)
    ensures Items(Checked, s, n) != Panic(Overflow) ==> Items(Wrapping, s, n) == Items(Checked, s, n)
    decreases n
  {
    hide Skip;
    if n > 0 {
      SkipModes(s, 1);
      if Skip(Wrapping, s, 1).Ok? {
        ItemsModes(s[Skip(Wrapping, s, 1).value..], n - 1);
      }
    }
  }

  lemma {:induction false} BodiesAgree(size: Size, tag: Option<nat>, s: Bytes)
    requires s != []
    ensures ParseUntagged(Wrapping, size, tag, s) != Panic(Overflow)
    ensures ParseUntagged(Checked, size, tag, s) != Panic(Overflow) ==>
              ParseUntagged(Wrapping, size, tag, s) == ParseUntagged(Checked, size, tag, s)
  {
    hide Items;
    if s[0] / 32 == 4 && ReadLen(s[0] % 32, s[1..]).Ok? {
      var len := ReadLen(s[0] % 32, s[1..]).value;
      ItemsModes(s[1 + len.size..], len.value);
    }
  }

  lemma {:induction false} NoOverflowAgrees(size: Size, s: Bytes)
    ensures Parse(Wrapping, size, s) != Panic(Overflow)
    ensures Parse(Checked, size, s) != Panic(Overflow) ==> Parse(Wrapping, size, s) == Parse(Checked, size, s)
  {
    hide ParseUntagged;
    if s != [] {
      if s[0] / 32 != 6 {
        BodiesAgree(size, None, s);
      } else if ReadLen(s[0] % 32, s[1..]).Ok? {
        var tag := ReadLen(s[0] % 32, s[1..]).value;
        if |s| > 1 + tag.size {
          BodiesAgree(size, Some(tag.value), s[1 + tag.size..]);
        }
      }
    }
  }

  /** The release build agrees with the checked one exactly on the inputs that do not meet a huge map. */
  lemma {:induction false} BuildsAgreeIff(size: Size, s: Bytes)
    ensures Parse(Wrapping, size, s) == Parse(Checked, size, s) <==> !MeetsHugeMap(size, s)
  {
    hide Parse, MeetsHugeMap;
    NoOverflowAgrees(size, s);
    OverflowIff(size, s);
  }

  // ------------------------------------------------- where the release build keeps to the grammar

  /** The input is read to the end under wrapping arithmetic, and there is a huge map in it. */
  ghost predicate ReadsPastHugeMap(size: Size, s: Bytes) {
    exists tag: seq<Arg>, len: Arg, heads: seq<RawHead>, rest: Bytes, i: nat ::
      && Opens(size, tag, len) && AllValid(heads) && s == Opening(tag, len) + (SpellHeads(heads) + rest)
      && Pending(Wrapping, len.Value(), heads) == Some(0)
      && i < |heads| && heads[i].Huge()
  }

  /** Without huge maps the two ways of counting are one. */
  lemma {:induction false} SamePending(n: nat, heads: seq<RawHead>)
    requires forall i | 0 <= i < |heads| :: !heads[i].Huge()
    ensures Pending(Checked, n, heads) == Pending(Wrapping, n, heads)
    decreases |heads|
  {
    if heads != [] && n > 0 {
      SamePending(n - 1 + heads[0].Announces(Checked).value, heads[1..]);
    }
  }

  /** Before the end of a reading there is always something pending. */
  lemma {:induction false} PendingBefore(mode: Arithmetic, n: nat, heads: seq<RawHead>, i: nat)
    requires i < |heads| && Pending(mode, n, heads).Some?
    ensures Pending(mode, n, heads[..i]).Some? && Pending(mode, n, heads[..i]).value > 0
    decreases i
  {
    if i == 0 {
      assert heads[..0] == [];
    } else {
      assert heads[..i][1..] == heads[1..][..i - 1];
      PendingBefore(mode, n - 1 + heads[0].Announces(mode).value, heads[1..], i - 1);
    }
  }

  lemma {:induction false} SpellHeadsAt(heads: seq<RawHead>, i: nat)
    requires i < |heads| && AllValid(heads)
    ensures SpellHeads(heads) == SpellHeads(heads[..i]) + (heads[i].Spelling() + SpellHeads(heads[i + 1..]))
    decreases i
  {
    hide RawHead.Spelling, RawHead.Valid;
    if i > 0 {
      assert heads[..i][1..] == heads[1..][..i - 1];
      SpellHeadsAt(heads[1..], i - 1);
      assert heads[1..][i..] == heads[i + 1..];
    } else {
      assert heads[..0] == [] && SpellHeads([]) == [];
    }
  }

  lemma {:induction false} FirstHuge(heads: seq<RawHead>, i: nat) returns (k: nat)
    requires i < |heads| && heads[i].Huge()
    ensures k < |heads| && heads[k].Huge() && forall j | 0 <= j < k :: !heads[j].Huge()
  {
    k := 0;
    while !heads[k].Huge()
      invariant k <= i && forall j | 0 <= j < k :: !heads[j].Huge()
      decreases i - k
    {
      k := k + 1;
    }
  }

  lemma {:induction false} PastIsMet(size: Size, s: Bytes, tag: seq<Arg>, len: Arg, heads: seq<RawHead>, rest: Bytes, i: nat)
    requires Opens(size, tag, len) && AllValid(heads) && s == Opening(tag, len) + (SpellHeads(heads) + rest)
    requires Pending(Wrapping, len.Value(), heads) == Some(0) && i < |heads| && heads[i].Huge()
    ensures MeetsHugeMap(size, s) && Parse(Wrapping, size, s).Ok?
  {
    hide Parse, Items, Skip, ReadHead, Opening, SpellHeads, RawHead.Spelling, RawHead.Valid, Pending;
    var k := FirstHuge(heads, i);
    PendingBefore(Wrapping, len.Value(), heads, k);
    SamePending(len.Value(), heads[..k]);
    SpellHeadsAt(heads, k);
    var after := SpellHeads(heads[k + 1..]) + rest;
    assert SpellHeads(heads) + rest == SpellHeads(heads[..k]) + (heads[k].Spelling() + after);
    SkipHeads(Wrapping, heads, rest, len.Value());
    SkipNothing(Wrapping, rest);
    ItemsEnd(Wrapping, SpellHeads(heads) + rest, len.Value());
    ParseOpening(Wrapping, size, tag, len, SpellHeads(heads) + rest);
  }

  /** What the release build accepts is in the grammar exactly if it does not read past a huge map:
      then, and only then, the array and the rest it returns are derived from the input. */
  lemma {:induction false} ReleaseKeepsToGrammarIff(size: Size, s: Bytes)
    ensures (forall a: ParsedArray, rest: Bytes :: Parse(Wrapping, size, s) == Ok((a, rest)) ==> Derives(size, s, a, rest))
            <==> !ReadsPastHugeMap(size, s)
  {
    hide Parse, Derives, ReadsPastHugeMap, MeetsHugeMap;
    if ReadsPastHugeMap(size, s) {
      PastIsAccepted(size, s);
      OverflowIff(size, s);
      var (a, rest) := Parse(Wrapping, size, s).value;
      ParserRefinesGrammar(size, s, a, rest);
    } else if Parse(Wrapping, size, s).Ok? {
      NotPastIsNotMet(size, s);
      BuildsAgreeIff(size, s);
      var (a, rest) := Parse(Wrapping, size, s).value;
      ParserRefinesGrammar(size, s, a, rest);
    }
  }

  lemma {:induction false} PastIsAccepted(size: Size, s: Bytes)
    requires ReadsPastHugeMap(size, s)
    ensures MeetsHugeMap(size, s) && Parse(Wrapping, size, s).Ok?
  {
    hide Parse, Opening, SpellHeads, Pending, MeetsHugeMap;
    var tag: seq<Arg>, len: Arg, heads: seq<RawHead>, rest: Bytes, i: nat :|
      && Opens(size, tag, len) && AllValid(heads) && s == Opening(tag, len) + (SpellHeads(heads) + rest)
      && Pending(Wrapping, len.Value(), heads) == Some(0)
      && i < |heads| && heads[i].Huge();
    PastIsMet(size, s, tag, len, heads, rest, i);
  }

  lemma {:induction false} NotPastIsNotMet(size: Size, s: Bytes)
    requires Parse(Wrapping, size, s).Ok? && !ReadsPastHugeMap(size, s)
    ensures !MeetsHugeMap(size, s)
  {
    hide Parse, Items, Skip, Opening, SpellHeads, Pending, MeetsHugeMap, RawHead.Valid;
    var tag, len, body := OpeningOf(Wrapping, size, s);
    ParseOpening(Wrapping, size, tag, len, body);
    ItemsEnd(Wrapping, body, len.Value());
    var heads := HeadsOfSkip(Wrapping, body, len.Value());
    var rest := body[|SpellHeads(heads)|..];
    assert body == SpellHeads(heads) + rest;
    forall i | 0 <= i < |heads| ensures !heads[i].Huge() {
    }
    SamePending(len.Value(), heads);
    SkipHeads(Checked, heads, rest, len.Value());
    SkipNothing(Checked, rest);
    ItemsEnd(Checked, body, len.Value());
    ParseOpening(Checked, size, tag, len, body);
    OverflowIff(size, s);
  }

  // ------------------------------------------------- an input

  /** A map of 2^63 + 1 pairs in an array of one. */
  const HUGE_MAP: Bytes := [0xbb, 0x80, 0, 0, 0, 0, 0, 0, 1]

  lemma HugeMapPairs()
    ensures ReadLen(27, HUGE_MAP[1..]) == Ok(Length(0x8000_0000_0000_0001, 8))
  {
    var e := HUGE_MAP[1..];
    assert e[..8] == e;
    assert e[..7] == [0x80, 0, 0, 0, 0, 0, 0];
    assert e[..7][..6] == [0x80, 0, 0, 0, 0, 0];
    assert e[..7][..6][..5] == [0x80, 0, 0, 0, 0];
    assert e[..7][..6][..5][..4] == [0x80, 0, 0, 0];
    assert e[..7][..6][..5][..4][..3] == [0x80, 0, 0];
    assert [0x80, 0, 0][..2] == [0x80, 0];
    FromBigEndian2(0x80, 0);
    assert FromBigEndian([0x80, 0, 0]) == 0x80_0000;
    assert FromBigEndian([0x80, 0, 0, 0]) == 0x8000_0000;
    assert FromBigEndian([0x80, 0, 0, 0, 0]) == 0x80_0000_0000;
    assert FromBigEndian([0x80, 0, 0, 0, 0, 0]) == 0x8000_0000_0000;
    assert FromBigEndian([0x80, 0, 0, 0, 0, 0, 0]) == 0x80_0000_0000_0000;
  }

  lemma {:induction false} HugeMapHeads()
    ensures ReadHead(Wrapping, HUGE_MAP + [0, 0]) == Ok(Head(9, 2))
    ensures ReadHead(Checked, HUGE_MAP + [0, 0]) == Panic(Overflow)
  {
    hide FromBigEndian;
    var s := HUGE_MAP + [0, 0];
    HugeMapPairs();
    assert s[1..][..8] == HUGE_MAP[1..][..8];
  }

  lemma {:induction false} TwoZeros(mode: Arithmetic)
    ensures Skip(mode, [0, 0], 2) == Ok(2)
  {
    assert [0, 0][1..] == [0] && [0][1..] == [];
    SkipStep(mode, [0, 0], 2, Head(1, 0));
    SkipStep(mode, [0], 1, Head(1, 0));
  }

  lemma {:induction false} OneItem(mode: Arithmetic, s: Bytes, h: Head)
    requires ReadHead(mode, s) == Ok(h) && Skip(mode, s[h.size..], h.children) == Ok(|s| - h.size)
    ensures Items(mode, s, 1) == Ok(([s], []))
  {
    hide ReadHead, Skip;
    SkipStep(mode, s, 1, h);
    assert s[..|s|] == s && s[|s|..] == [];
    NoItems(mode, []);
    assert [s] + [] == [s];
  }

  lemma {:induction false} FirstHeadPanics(mode: Arithmetic, s: Bytes, c: Cause)
    requires ReadHead(mode, s) == Panic(c)
    ensures Items(mode, s, 1) == Panic(c)
  {
    hide ReadHead;
    assert Skip(mode, s, 1) == Panic(c);
  }

  /** On such a map the release build reads only two items and accepts; the checked build panics,
      and the grammar spells nothing this way. */
  lemma {:induction false} WrappingAcceptsHugeMap(a: ParsedArray, rest: Bytes)
    ensures Parse(Wrapping, Some(1), [0x81] + (HUGE_MAP + [0, 0])) == Ok((ParsedArray(None, [HUGE_MAP + [0, 0]]), []))
    ensures !Derives(Some(1), [0x81] + (HUGE_MAP + [0, 0]), a, rest)
  {
    hide Items, Derives, Skip, ReadHead;
    var x := [0x81] + (HUGE_MAP + [0, 0]);
    assert x[1..] == HUGE_MAP + [0, 0] && x[0] / 32 == 4 && x[0] % 32 == 1;
    HugeMapHeads();
    TwoZeros(Wrapping);
    assert (HUGE_MAP + [0, 0])[9..] == [0, 0];
    OneItem(Wrapping, HUGE_MAP + [0, 0], Head(9, 2));
    FirstHeadPanics(Checked, HUGE_MAP + [0, 0], Overflow);
    assert ReadLen(1, x[1..]) == Ok(Length(1, 0));
    ParserRefinesGrammar(Some(1), x, a, rest);
  }
}
