/** The stack parser accepts exactly the grammar, and splits it at the item boundaries. */
module CborRefinement {
  import opened Outcomes
  import opened ByteStrings
  import opened CborGrammar
  import opened ParsedArrays

  /** A list of well-formed trees. */
  predicate AllWellFormed(ts: seq<Item>) {
    forall i | 0 <= i < |ts| :: WellFormed(ts[i])
  }

  /** The bytes of a tree before those of its children. */
  function Lead(t: Item): (r: Bytes)
    requires WellFormed(t)
    ensures |r| >= 1
  {
    Start(Major(t), t.arg) + if t.Str? then t.payload else []
  }

  function Children(t: Item): seq<Item> {
    match t
    case Int(_, _) => []
    case Str(_, _, _) => []
    case Arr(_, ts) => ts
    case Map(_, ts) => ts
    case Tag(_, inner) => [inner]
  }

  lemma {:induction false} SpellSplit(t: Item)
    requires WellFormed(t)
    ensures AllWellFormed(Children(t))
    ensures Spell(t) == Lead(t) + SpellAll(Children(t))
  {
    if t.Tag? {
      assert [t.item][1..] == [];
      assert SpellAll([t.item]) == Spell(t.item) + SpellAll([]) == Spell(t.item);
    }
  }

  lemma {:induction false} SpellAllConcat(a: seq<Item>, b: seq<Item>)
    requires AllWellFormed(a) && AllWellFormed(b)
    ensures SpellAll(a + b) == SpellAll(a) + SpellAll(b)
  {
    if a == [] {
      assert a + b == b;
    } else {
      assert (a + b)[1..] == a[1..] + b;
      SpellAllConcat(a[1..], b);
    }
  }

  // ------------------------------------------------- the parser accepts the grammar

  lemma {:induction false} ReadStart(major: nat, arg: Arg, r: Bytes)
    requires major < 8 && arg.Valid()
    ensures
      var s := Start(major, arg) + r;
      s[0] / 32 == major && s[0] % 32 == arg.minor &&
      ReadLen(arg.minor, s[1..]) == Ok(Length(arg.Value(), |arg.ext|))
  {
    var s := Start(major, arg) + r;
    assert s[1..] == arg.ext + r;
    assert (arg.ext + r)[..|arg.ext|] == arg.ext;
  }

  lemma {:induction false} ReadLead(mode: Arithmetic, t: Item, r: Bytes)
    requires WellFormed(t)
    ensures ReadHead(mode, Lead(t) + r) == Ok(Head(|Lead(t)|, |Children(t)|))
  {
    var s := Lead(t) + r;
    var tail := (if t.Str? then t.payload else []) + r;
    assert s == Start(Major(t), t.arg) + tail;
    ReadStart(Major(t), t.arg, tail);
    assert |s| == 1 + |t.arg.ext| + |tail|;
    HeadOfLead(mode, t, |s|);
    hide HeadOf, ReadLen, Start, Lead, Children, WellFormed, Arg.Value, Arg.Valid;
  }

  lemma {:induction false} HeadOfLead(mode: Arithmetic, t: Item, available: nat)
    requires WellFormed(t) && available >= |Lead(t)|
    ensures 1 <= 1 + |t.arg.ext| <= available
    ensures HeadOf(mode, Major(t), t.arg.Value(), 1 + |t.arg.ext|, available) == Ok(Head(|Lead(t)|, |Children(t)|))
  {
    hide Arg.Value, Arg.Valid;
  }

  lemma {:induction false} SkipNothing(mode: Arithmetic, s: Bytes)
    ensures Skip(mode, s, 0) == Ok(0)
  {
  }

  /** Reading the spellings of `ts` consumes them and nothing after them. */
  lemma {:induction false} SkipSpellings(mode: Arithmetic, ts: seq<Item>, r: Bytes, n: nat)
    requires AllWellFormed(ts)
    ensures Skip(mode, SpellAll(ts) + r, |ts| + n) == Shift(|SpellAll(ts)|, Skip(mode, r, n))
    decreases |SpellAll(ts)|
  {
    hide ReadHead, Skip, Spell, Lead, WellFormed;
    if ts == [] {
      assert SpellAll(ts) + r == r;
      var k := Skip(mode, r, n);
      assert Shift(0, k) == k;
    } else {
      var t, kids, others := ts[0], Children(ts[0]), ts[1..];
      SpellSplit(t);
      SpellAllConcat(kids, others);
      var s := SpellAll(ts) + r;
      var s' := SpellAll(kids + others) + r;
      assert s == Lead(t) + s';
      ReadLead(mode, t, s');
      assert s[|Lead(t)|..] == s';
      SkipStep(mode, s, |ts| + n, Head(|Lead(t)|, |kids|));
      SkipSpellings(mode, kids + others, r, n);
    }
  }

  function SpellEach(ts: seq<Item>): (r: seq<Bytes>)
    requires AllWellFormed(ts)
    ensures |r| == |ts|
  {
    seq(|ts|, i requires 0 <= i < |ts| => Spell(ts[i]))
  }

  lemma {:induction false} SplitSpellings(mode: Arithmetic, ts: seq<Item>, r: Bytes)
    requires AllWellFormed(ts)
    ensures Items(mode, SpellAll(ts) + r, |ts|) == Ok((SpellEach(ts), r))
    decreases |ts|
  {
    hide ReadHead, Skip, Spell, WellFormed;
    if ts == [] {
      assert SpellAll(ts) + r == r;
    } else {
      var s := SpellAll(ts) + r;
      var r' := SpellAll(ts[1..]) + r;
      assert s == Spell(ts[0]) + r';
      assert [ts[0]][1..] == [];
      assert SpellAll([ts[0]]) == Spell(ts[0]) + SpellAll([]) == Spell(ts[0]);
      SkipSpellings(mode, [ts[0]], r', 0);
      SkipNothing(mode, r');
      assert s[|Spell(ts[0])|..] == r';
      SplitSpellings(mode, ts[1..], r);
      assert SpellEach(ts) == [Spell(ts[0])] + SpellEach(ts[1..]);
    }
  }

  // ------------------------------------------------- what the parser accepts is in the grammar

  /** The argument that `ReadLen` read. */
  lemma {:induction false} ArgOfLen(s: Bytes) returns (arg: Arg)
    requires s != [] && ReadLen(s[0] % 32, s[1..]).Ok?
    ensures arg.Valid()
    ensures
      var len := ReadLen(s[0] % 32, s[1..]).value;
      |arg.ext| == len.size && arg.Value() == len.value && Start(s[0] / 32, arg) == s[..1 + len.size]
  {
    var len := ReadLen(s[0] % 32, s[1..]).value;
    arg := Arg(s[0] % 32, s[1..][..len.size]);
    assert Start(s[0] / 32, arg) == s[..1 + len.size];
  }

  /** The tree whose head was read, given its children. */
  lemma {:induction false} TreeOfHead(s: Bytes, h: Head, kids: seq<Item>) returns (t: Item)
    requires ReadHead(Checked, s) == Ok(h) && |kids| == h.children && AllWellFormed(kids)
    ensures WellFormed(t) && Lead(t) == s[..h.size] && Children(t) == kids
  {
    hide ReadLen;
    var major := s[0] / 32;
    var arg := ArgOfLen(s);
    var at := 1 + |arg.ext|;
    if major <= 1 {
      t := Int(major == 1, arg);
    } else if major <= 3 {
      t := Str(major == 3, arg, s[at..h.size]);
      assert s[..at] + s[at..h.size] == s[..h.size];
    } else if major == 4 {
      t := Arr(arg, kids);
    } else if major == 5 {
      t := Map(arg, kids);
    } else {
      t := Tag(arg, kids[0]);
    }
  }

  lemma {:induction false} SkipReadsHead(s: Bytes, n: nat)
    requires n >= 1 && Skip(Checked, s, n).Ok?
    ensures ReadHead(Checked, s).Ok?
  {
  }

  /** One head in front of the trees `us`, the first of which are its children. */
  lemma {:induction false} GraftHead(s: Bytes, h: Head, us: seq<Item>) returns (ts: seq<Item>)
    requires ReadHead(Checked, s) == Ok(h) && |us| >= h.children && AllWellFormed(us)
    ensures |ts| == |us| + 1 - h.children && AllWellFormed(ts)
    ensures SpellAll(ts) == s[..h.size] + SpellAll(us)
  {
    hide ReadHead, Spell, Lead, WellFormed;
    var kids, others := us[..h.children], us[h.children..];
    var t := TreeOfHead(s, h, kids);
    ts := [t] + others;
    SpellSplit(t);
    SpellAllConcat(kids, others);
    assert kids + others == us && ts[1..] == others;
  }

  lemma {:induction false} TreesOfSkip(s: Bytes, n: nat) returns (ts: seq<Item>)
    requires Skip(Checked, s, n).Ok?
    ensures |ts| == n && AllWellFormed(ts)
    ensures SpellAll(ts) == s[..Skip(Checked, s, n).value]
    decreases |s|
  {
    hide ReadHead, Skip, Spell, WellFormed;
    if n == 0 {
      SkipNothing(Checked, s);
      ts := [];
    } else {
      SkipReadsHead(s, n);
      var h := ReadHead(Checked, s).value;
      var s' := s[h.size..];
      SkipStep(Checked, s, n, h);
      var us := TreesOfSkip(s', n - 1 + h.children);
      ts := GraftHead(s, h, us);
      var m := Skip(Checked, s', n - 1 + h.children).value;
      assert s[..h.size] + s'[..m] == s[..h.size + m];
    }
  }

  lemma {:induction false} TreesOfItems(s: Bytes, n: nat) returns (ts: seq<Item>)
    requires Items(Checked, s, n).Ok?
    ensures |ts| == n && AllWellFormed(ts)
    ensures Items(Checked, s, n).value.0 == SpellEach(ts)
    ensures s == SpellAll(ts) + Items(Checked, s, n).value.1
    decreases n
  {
    hide Skip, Spell, WellFormed;
    if n == 0 {
      ts := [];
    } else {
      var m := Skip(Checked, s, 1).value;
      var one := TreesOfSkip(s, 1);
      var others := TreesOfItems(s[m..], n - 1);
      assert one[1..] == [];
      assert SpellAll(one) == Spell(one[0]) + SpellAll([]) == Spell(one[0]);
      ts := one + others;
      assert ts[1..] == others;
      assert s == s[..m] + s[m..];
      assert SpellEach(ts) == [Spell(one[0])] + SpellEach(others);
    }
  }

  // ------------------------------------------------- both ways, for whole arrays

  function TagValue(tag: seq<Arg>): Option<nat> {
    if tag == [] then None else Some(tag[0].Value())
  }

  /** `tag`, `len` and `ts` are the parts of an array of the given static size. */
  predicate ArrayParts(size: Size, tag: seq<Arg>, len: Arg, ts: seq<Item>) {
    && |tag| <= 1 && (forall t | t in tag :: t.Valid())
    && len.Valid() && len.Value() == |ts| && AllWellFormed(ts)
    && (size.Some? ==> size.value == |ts|)
  }

  /** `s` is the spelling of the array `a` followed by `rest`. */
  ghost predicate Derives(size: Size, s: Bytes, a: ParsedArray, rest: Bytes) {
    exists tag: seq<Arg>, len: Arg, ts: seq<Item> ::
      ArrayParts(size, tag, len, ts) && s == SpellArray(tag, len, ts) + rest &&
      a == ParsedArray(TagValue(tag), SpellEach(ts))
  }

  lemma {:induction false} ParseSpelledBody(mode: Arithmetic, size: Size, tag: seq<Arg>, len: Arg, ts: seq<Item>, rest: Bytes)
    requires ArrayParts(size, tag, len, ts)
    ensures ParseUntagged(mode, size, TagValue(tag), Start(4, len) + SpellAll(ts) + rest)
         == Ok((ParsedArray(TagValue(tag), SpellEach(ts)), rest))
  {
    hide Items;
    var s := Start(4, len) + SpellAll(ts) + rest;
    assert s == Start(4, len) + (SpellAll(ts) + rest);
    ReadStart(4, len, SpellAll(ts) + rest);
    assert s[1 + |len.ext|..] == SpellAll(ts) + rest;
    SplitSpellings(mode, ts, rest);
  }

  /** The grammar is accepted, in either build, with any bytes after it. */
  lemma {:induction false} ParseAcceptsGrammar(mode: Arithmetic, size: Size, tag: seq<Arg>, len: Arg, ts: seq<Item>, rest: Bytes)
    requires ArrayParts(size, tag, len, ts)
    ensures Parse(mode, size, SpellArray(tag, len, ts) + rest)
         == Ok((ParsedArray(TagValue(tag), SpellEach(ts)), rest))
  {
    hide ParseUntagged;
    var s := SpellArray(tag, len, ts) + rest;
    var body := Start(4, len) + SpellAll(ts) + rest;
    ParseSpelledBody(mode, size, tag, len, ts, rest);
    if tag == [] {
      assert s == body;
      assert s[0] / 32 == 4;
    } else {
      assert s == Start(6, tag[0]) + body;
      ReadStart(6, tag[0], body);
      assert s[1 + |tag[0].ext|..] == body;
    }
  }

  lemma {:induction false} PartsOfBody(size: Size, tag: seq<Arg>, s: Bytes) returns (len: Arg, ts: seq<Item>)
    requires |tag| <= 1 && forall t | t in tag :: t.Valid()
    requires s != [] && ParseUntagged(Checked, size, TagValue(tag), s).Ok?
    ensures ArrayParts(size, tag, len, ts)
    ensures
      var (a, rest) := ParseUntagged(Checked, size, TagValue(tag), s).value;
      s == Start(4, len) + SpellAll(ts) + rest && a == ParsedArray(TagValue(tag), SpellEach(ts))
  {
    hide Items;
    len := ArgOfLen(s);
    ts := TreesOfItems(s[1 + |len.ext|..], len.Value());
    assert s == s[..1 + |len.ext|] + s[1 + |len.ext|..];
  }

  /** What is accepted is in the grammar. */
  lemma {:induction false} ParseStaysInGrammar(size: Size, s: Bytes) returns (tag: seq<Arg>, len: Arg, ts: seq<Item>)
    requires Parse(Checked, size, s).Ok?
    ensures ArrayParts(size, tag, len, ts)
    ensures
      var (a, rest) := Parse(Checked, size, s).value;
      s == SpellArray(tag, len, ts) + rest && a == ParsedArray(TagValue(tag), SpellEach(ts))
  {
    hide ParseUntagged, ReadLen, WellFormed, SpellAll, Spell, SpellEach, Start, Arg.Value;
    if s[0] / 32 == 6 {
      var t := ArgOfLen(s);
      var body := s[1 + |t.ext|..];
      tag := [t];
      len, ts := PartsOfBody(size, tag, body);
      var rest := Parse(Checked, size, s).value.1;
      calc {
        s;
        s[..1 + |t.ext|] + body;
        Start(6, t) + (Start(4, len) + SpellAll(ts) + rest);
        SpellArray(tag, len, ts) + rest;
      }
    } else {
      tag := [];
      len, ts := PartsOfBody(size, tag, s);
    }
  }

  /** The main result: the checked parser returns `a` and leaves `rest` exactly when the
      input is the grammar's spelling of `a` followed by `rest`. */
  lemma {:induction false} ParserRefinesGrammar(size: Size, s: Bytes, a: ParsedArray, rest: Bytes)
    ensures Parse(Checked, size, s) == Ok((a, rest)) <==> Derives(size, s, a, rest)
  {
    if Parse(Checked, size, s) == Ok((a, rest)) {
      var tag, len, ts := ParseStaysInGrammar(size, s);
      assert Derives(size, s, a, rest);
    }
    if Derives(size, s, a, rest) {
      var tag: seq<Arg>, len: Arg, ts: seq<Item> :|
        ArrayParts(size, tag, len, ts) && s == SpellArray(tag, len, ts) + rest &&
        a == ParsedArray(TagValue(tag), SpellEach(ts));
      ParseAcceptsGrammar(Checked, size, tag, len, ts, rest);
    }
  }

  // ------------------------------------------------- arrays of another size

  /** `s` starts, after at most one tag, with the header of an array of `k` elements. */
  ghost predicate Announces(s: Bytes, k: nat) {
    exists tag: seq<Arg>, len: Arg, rest: Bytes :: AnnouncedBy(s, k, tag, len, rest)
  }

  ghost predicate AnnouncedBy(s: Bytes, k: nat, tag: seq<Arg>, len: Arg, rest: Bytes) {
    && |tag| <= 1 && (forall t | t in tag :: t.Valid()) && len.Valid() && len.Value() == k
    && s == SpellArray(tag, len, []) + rest
  }

  /** Errors that concern the array itself, and none of its items. */
  predicate RefusesTheTop<T>(r: Parsed<T>) {
    r.Err? && (r.error.InvalidNumberOfElements? || r.error.InvalidTopLevelType?)
  }

  lemma {:induction false} SkipIsBelow(mode: Arithmetic, s: Bytes, n: nat)
    ensures !RefusesTheTop(Skip(mode, s, n))
    decreases |s|
  {
    if n != 0 && ReadHead(mode, s).Ok? {
      var h := ReadHead(mode, s).value;
      SkipIsBelow(mode, s[h.size..], n - 1 + h.children);
    }
  }

  lemma {:induction false} ItemsAreBelow(mode: Arithmetic, s: Bytes, n: nat)
    ensures !RefusesTheTop(Items(mode, s, n))
    decreases n
  {
    hide Skip;
    SkipIsBelow(mode, s, 1);
    if n != 0 && Skip(mode, s, 1).Ok? {
      ItemsAreBelow(mode, s[Skip(mode, s, 1).value..], n - 1);
    }
  }

  lemma {:induction false} BodyAnnounces(mode: Arithmetic, size: Size, tag: seq<Arg>, s: Bytes, k: nat, n: nat) returns (len: Arg)
    requires s != [] && ParseUntagged(mode, size, TagValue(tag), s) == Err(InvalidNumberOfElements(k, n)) && |tag| <= 1
    ensures size == Some(n) && k != n && len.Valid() && len.Value() == k && 1 + |len.ext| <= |s|
    ensures s == Start(4, len) + s[1 + |len.ext|..]
  {
    hide Items;
    len := ArgOfLen(s);
    ItemsAreBelow(mode, s[1 + |len.ext|..], len.Value());
    assert s == s[..1 + |len.ext|] + s[1 + |len.ext|..];
  }

  lemma {:induction false} AnnouncedIsCounted(mode: Arithmetic, size: Size, tag: seq<Arg>, len: Arg, rest: Bytes)
    requires |tag| <= 1 && (forall t | t in tag :: t.Valid()) && len.Valid() && size.Some? && size.value != len.Value()
    ensures Parse(mode, size, SpellArray(tag, len, []) + rest) == Err(InvalidNumberOfElements(len.Value(), size.value))
  {
    hide Items;
    var s, body := SpellArray(tag, len, []) + rest, Start(4, len) + rest;
    ReadStart(4, len, rest);
    if tag == [] {
      assert s == body;
    } else {
      assert s == Start(6, tag[0]) + body;
      ReadStart(6, tag[0], body);
      assert s[1 + |tag[0].ext|..] == body;
    }
  }

  lemma {:induction false} LengthIsBelow(minor: nat, s: Bytes)
    ensures !RefusesTheTop(ReadLen(minor, s))
  {
  }

  lemma {:induction false} HeaderOnly(tag: seq<Arg>, len: Arg)
    requires |tag| <= 1 && (forall t | t in tag :: t.Valid()) && len.Valid()
    ensures SpellArray(tag, len, []) == (if tag == [] then Start(4, len) else Start(6, tag[0]) + Start(4, len))
  {
    hide Start;
  }

  lemma {:induction false} Regroup(a: Bytes, b: Bytes, c: Bytes)
    ensures a + (b + c) == (a + b) + c
  {
  }

  lemma {:induction false} CountedBehindTag(mode: Arithmetic, size: Size, s: Bytes, k: nat, n: nat)
    requires Parse(mode, size, s) == Err(InvalidNumberOfElements(k, n)) && s[0] / 32 == 6
    ensures size == Some(n) && k != n && Announces(s, k)
  {
    hide ParseUntagged, ReadLen, Start, Arg.Value, SpellArray;
    LengthIsBelow(s[0] % 32, s[1..]);
    var t := ArgOfLen(s);
    var body := s[1 + |t.ext|..];
    var len := BodyAnnounces(mode, size, [t], body, k, n);
    var rest := body[1 + |len.ext|..];
    HeaderOnly([t], len);
    hide *;
    assert s == s[..1 + |t.ext|] + body;
    assert body == Start(4, len) + rest && SpellArray([t], len, []) == Start(6, t) + Start(4, len);
    Regroup(Start(6, t), Start(4, len), rest);
    Announced(s, k, [t], len, rest);
  }

  lemma {:induction false} Announced(s: Bytes, k: nat, tag: seq<Arg>, len: Arg, rest: Bytes)
    requires |tag| <= 1 && (forall t | t in tag :: t.Valid()) && len.Valid() && len.Value() == k
    requires s == SpellArray(tag, len, []) + rest
    ensures Announces(s, k)
  {
    hide SpellArray, Arg.Value;
    assert AnnouncedBy(s, k, tag, len, rest);
  }

  lemma {:induction false} CountedIsAnnounced(mode: Arithmetic, size: Size, s: Bytes, k: nat, n: nat)
    requires Parse(mode, size, s) == Err(InvalidNumberOfElements(k, n))
    ensures size == Some(n) && k != n && Announces(s, k)
  {
    hide ParseUntagged, ReadLen, Start, Arg.Value, SpellArray;
    if s[0] / 32 == 6 {
      CountedBehindTag(mode, size, s, k, n);
    } else {
      var len := BodyAnnounces(mode, size, [], s, k, n);
      HeaderOnly([], len);
      Announced(s, k, [], len, s[1 + |len.ext|..]);
    }
  }

  /** The number of elements is refused, with both numbers, exactly if the input announces another
      one than is asked for. */
  lemma {:induction false} OtherSizeIff(mode: Arithmetic, size: Size, s: Bytes, k: nat, n: nat)
    ensures Parse(mode, size, s) == Err(InvalidNumberOfElements(k, n)) <==> size == Some(n) && k != n && Announces(s, k)
  {
    hide Parse, SpellArray;
    if Parse(mode, size, s) == Err(InvalidNumberOfElements(k, n)) {
      CountedIsAnnounced(mode, size, s, k, n);
    }
    if size == Some(n) && k != n && Announces(s, k) {
      var tag: seq<Arg>, len: Arg, rest: Bytes :| AnnouncedBy(s, k, tag, len, rest);
      AnnouncedIsCounted(mode, size, tag, len, rest);
    }
  }

  /** `s` continues, after at most one tag, with an initial byte of major type `k`. */
  ghost predicate Shows(s: Bytes, k: nat) {
    exists tag: seq<Arg>, rest: Bytes :: ShownBy(s, k, tag, rest)
  }

  predicate ShownBy(s: Bytes, k: nat, tag: seq<Arg>, rest: Bytes) {
    && |tag| <= 1 && (forall t | t in tag :: t.Valid()) && rest != [] && rest[0] / 32 == k && (tag == [] ==> k != 6)
    && s == (if tag == [] then rest else Start(6, tag[0]) + rest)
  }

  lemma {:induction false} BodyShows(mode: Arithmetic, size: Size, tag: Option<nat>, s: Bytes, k: nat)
    requires s != []
    ensures ParseUntagged(mode, size, tag, s) == Err(InvalidTopLevelType(k)) <==> s[0] / 32 == k && k != 4
  {
    hide Items, ReadLen;
    LengthIsBelow(s[0] % 32, s[1..]);
    if ReadLen(s[0] % 32, s[1..]).Ok? {
      var len := ReadLen(s[0] % 32, s[1..]).value;
      ItemsAreBelow(mode, s[1 + len.size..], len.value);
    }
  }

  lemma {:induction false} RefusedIsShown(mode: Arithmetic, size: Size, s: Bytes, k: nat)
    requires Parse(mode, size, s) == Err(InvalidTopLevelType(k))
    ensures k != 4 && Shows(s, k)
  {
    hide ParseUntagged, ReadLen, Start, Arg.Value;
    if s[0] / 32 == 6 {
      LengthIsBelow(s[0] % 32, s[1..]);
      var t := ArgOfLen(s);
      var body := s[1 + |t.ext|..];
      BodyShows(mode, size, Some(t.Value()), body, k);
      assert s == Start(6, t) + body;
      assert ShownBy(s, k, [t], body);
    } else {
      BodyShows(mode, size, None, s, k);
      assert ShownBy(s, k, [], s);
    }
  }

  lemma {:induction false} ShownIsRefused(mode: Arithmetic, size: Size, s: Bytes, k: nat, tag: seq<Arg>, rest: Bytes)
    requires ShownBy(s, k, tag, rest) && k != 4
    ensures Parse(mode, size, s) == Err(InvalidTopLevelType(k))
  {
    hide ParseUntagged;
    if tag == [] {
      BodyShows(mode, size, None, s, k);
    } else {
      ReadStart(6, tag[0], rest);
      assert s[1 + |tag[0].ext|..] == rest;
      BodyShows(mode, size, Some(tag[0].Value()), rest, k);
    }
  }

  /** Another type than an array is refused, and named, exactly if it stands where the array should. */
  lemma {:induction false} OtherTypeIff(mode: Arithmetic, size: Size, s: Bytes, k: nat)
    ensures Parse(mode, size, s) == Err(InvalidTopLevelType(k)) <==> k != 4 && Shows(s, k)
  {
    hide Parse, ShownBy;
    if Parse(mode, size, s) == Err(InvalidTopLevelType(k)) {
      RefusedIsShown(mode, size, s, k);
    }
    if k != 4 && Shows(s, k) {
      var tag: seq<Arg>, rest: Bytes :| ShownBy(s, k, tag, rest);
      ShownIsRefused(mode, size, s, k, tag, rest);
    }
  }
}
