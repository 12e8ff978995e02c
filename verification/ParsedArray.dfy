/** The array splitter and printer of data-formats/src/cborparser.rs, and the
many-reader of data-formats/src/serializable.rs. */
module ParsedArrays {
  import opened Outcomes
  import opened ByteStrings
  import opened CborGrammar

  /** How `length * 2` behaves on overflow: it panics in a checked build and wraps in a release build. */
  datatype Arithmetic = Checked | Wrapping

  datatype ParseError =
    | NoData
    | Io
    | LengthParseFailure
    | ZeroItemsLeft
    | InvalidTopLevelType(major: nat)
    | UnsupportedMajorType(major: nat)
    | InvalidNumberOfElements(got: nat, expected: nat)

  type Parsed<+T> = Outcome<T, ParseError>

  /** `size` is the static length of the array type; None is the dynamic array. */
  type Size = s: Option<nat> | s.Some? ==> 1 <= s.value <= 8 witness None

  datatype ParsedArray = ParsedArray(tag: Option<nat>, contents: seq<Bytes>)

  datatype Length = Length(value: nat, size: nat)

  /** The argument of an initial byte whose low bits are `minor`; a truncated one is a panic. */
  function ReadLen(minor: nat, s: Bytes): (r: Parsed<Length>)
    ensures r.Ok? ==> r.value.size <= |s|
  {
    if minor <= 23 then Ok(Length(minor, 0))
    else if minor > 27 then Err(LengthParseFailure)
    else
      var size := if minor == 24 then 1 else if minor == 25 then 2 else if minor == 26 then 4 else 8;
      if |s| < size then Panic(Truncated) else Ok(Length(FromBigEndian(s[..size]), size))
  }

  /** What one pass through the parse loop reads: how many bytes, and how many items it announces. */
  datatype Head = Head(size: nat, children: nat)

  function MapChildren(mode: Arithmetic, pairs: nat): Parsed<nat> {
    if mode.Checked? then
      if 2 * pairs >= U64 then Panic(Overflow) else Ok(2 * pairs)
    else
      if pairs != 0 && 2 * pairs % U64 == 0 then Err(ZeroItemsLeft) else Ok(2 * pairs % U64)
  }

  /** The head of an item of major type `major` whose initial byte and argument take `at`
      of the `available` bytes. */
  function HeadOf(mode: Arithmetic, major: nat, value: nat, at: nat, available: nat): (r: Parsed<Head>)
    requires 1 <= at <= available
    ensures r.Ok? ==> 1 <= r.value.size <= available
  {
    if major <= 1 then Ok(Head(at, 0))
    else if major <= 3 then
      if value > MAX_ALLOC then Panic(Capacity)
      else if available - at < value then Err(Io)
      else Ok(Head(at + value, 0))
    else if major == 4 then Ok(Head(at, value))
    else if major == 6 then Ok(Head(at, 1))
    else
      match MapChildren(mode, value)
      case Ok(children) => Ok(Head(at, children))
      case Err(e) => Err(e)
      case Panic(c) => Panic(c)
  }

  function ReadHead(mode: Arithmetic, s: Bytes): (r: Parsed<Head>)
    ensures r.Ok? ==> 1 <= r.value.size <= |s|
  {
    if s == [] then Err(Io)
    else if s[0] / 32 == 7 then Err(UnsupportedMajorType(7))
    else
      match ReadLen(s[0] % 32, s[1..])
      case Ok(len) => HeadOf(mode, s[0] / 32, len.value, 1 + len.size, |s|)
      case Err(e) => Err(e)
      case Panic(c) => Panic(c)
  }

  function Shift(k: nat, r: Parsed<nat>): Parsed<nat> {
    if r.Ok? then Ok(k + r.value) else r
  }

  /** Bytes taken by the next `n` items, nesting flattened: a head with `c` children
      replaces one pending item by `c`. */
  function Skip(mode: Arithmetic, s: Bytes, n: nat): (r: Parsed<nat>)
    ensures r.Ok? ==> r.value <= |s|
    decreases |s|
  {
    if n == 0 then Ok(0) else
    match ReadHead(mode, s)
    case Ok(h) => Shift(h.size, Skip(mode, s[h.size..], n - 1 + h.children))
    case Err(e) => Err(e)
    case Panic(c) => Panic(c)
  }

  function Prepend(done: seq<Bytes>, r: Parsed<(seq<Bytes>, Bytes)>): Parsed<(seq<Bytes>, Bytes)> {
    if r.Ok? then Ok((done + r.value.0, r.value.1)) else r
  }

  /** The next `n` items as raw slices, and what follows them. */
  function Items(mode: Arithmetic, s: Bytes, n: nat): (r: Parsed<(seq<Bytes>, Bytes)>)
    ensures r.Ok? ==> |r.value.0| == n && |r.value.1| <= |s|
    decreases n
  {
    if n == 0 then Ok(([], s)) else
    match Skip(mode, s, 1)
    case Ok(m) => Prepend([s[..m]], Items(mode, s[m..], n - 1))
    case Err(e) => Err(e)
    case Panic(c) => Panic(c)
  }

  /** From the array's own initial byte on. */
  function ParseUntagged(mode: Arithmetic, size: Size, tag: Option<nat>, s: Bytes): (r: Parsed<(ParsedArray, Bytes)>)
    requires s != []
    ensures r.Ok? ==> |r.value.1| < |s|
    ensures r.Ok? && size.Some? ==> |r.value.0.contents| == size.value
  {
    if s[0] / 32 != 4 then Err(InvalidTopLevelType(s[0] / 32)) else
    match ReadLen(s[0] % 32, s[1..])
    case Err(e) => Err(e)
    case Panic(c) => Panic(c)
    case Ok(len) =>
      if size.Some? && len.value != size.value then Err(InvalidNumberOfElements(len.value, size.value)) else
      match Items(mode, s[1 + len.size..], len.value)
      case Err(e) => Err(e)
      case Panic(c) => Panic(c)
      case Ok(items) => Ok((ParsedArray(tag, items.0), items.1))
  }

  /** What the parser computes: the array and the unread input. */
  function Parse(mode: Arithmetic, size: Size, s: Bytes): (r: Parsed<(ParsedArray, Bytes)>)
    ensures r.Ok? ==> |r.value.1| < |s|
    ensures r.Ok? && size.Some? ==> |r.value.0.contents| == size.value
  {
    if s == [] then Err(NoData)
    else if s[0] / 32 == 6 then
      match ReadLen(s[0] % 32, s[1..])
      case Err(e) => Err(e)
      case Panic(c) => Panic(c)
      case Ok(tag) =>
        var at := 1 + tag.size;
        if |s| == at then Err(Io) else ParseUntagged(mode, size, Some(tag.value), s[at..])
    else ParseUntagged(mode, size, None, s)
  }

  // ---------------------------------------------------------------- the loop

  function Sum(st: seq<nat>): nat {
    if st == [] then 0 else st[0] + Sum(st[1..])
  }

  /** The stack without its bottom entry: the levels inside the current top-level item. */
  function Inner(st: seq<nat>): seq<nat>
    requires st != []
  {
    st[..|st| - 1]
  }

  function Bottom(st: seq<nat>): nat
    requires st != []
  {
    st[|st| - 1]
  }

  /** How the split ends when the current item already holds `buf` and still waits for
      `pending` flattened items, and `left` top-level items (it included) are missing. */
  function Resume(mode: Arithmetic, buf: Bytes, pending: nat, left: nat, s: Bytes): (r: Parsed<(seq<Bytes>, Bytes)>)
    requires left >= 1
  {
    match Skip(mode, s, pending)
    case Ok(m) => Prepend([buf + s[..m]], Items(mode, s[m..], left - 1))
    case Err(e) => Err(e)
    case Panic(c) => Panic(c)
  }

  lemma {:induction false} ResumeStart(mode: Arithmetic, n: nat, s: Bytes)
    requires n >= 1
    ensures Items(mode, s, n) == Resume(mode, [], 1, n, s)
  {
    var r := Skip(mode, s, 1);
    if r.Ok? {
      assert [] + s[..r.value] == s[..r.value];
    }
  }

  /** Moving `k` bytes from the input to the current item. */
  lemma {:induction false} ResumeShift(mode: Arithmetic, buf: Bytes, pending: nat, pending': nat, left: nat, s: Bytes, k: nat)
    requires left >= 1 && k <= |s|
    requires Skip(mode, s, pending) == Shift(k, Skip(mode, s[k..], pending'))
    ensures Resume(mode, buf, pending, left, s) == Resume(mode, buf + s[..k], pending', left, s[k..])
  {
    hide ReadHead, Skip, Items;
    var r := Skip(mode, s[k..], pending');
    if r.Ok? {
      var m := r.value;
      assert s[k + m..] == s[k..][m..];
      assert buf + s[..k + m] == (buf + s[..k]) + s[k..][..m];
    }
  }

  lemma {:induction false} SkipStep(mode: Arithmetic, s: Bytes, n: nat, h: Head)
    requires n >= 1 && ReadHead(mode, s) == Ok(h)
    ensures Skip(mode, s, n) == Shift(h.size, Skip(mode, s[h.size..], n - 1 + h.children))
  {
  }

  /** One pass of the loop over a head with `h.children` children. */
  lemma {:induction false} ResumeStep(mode: Arithmetic, buf: Bytes, pending: nat, left: nat, s: Bytes, h: Head)
    requires left >= 1 && pending >= 1
    requires ReadHead(mode, s) == Ok(h)
    ensures Resume(mode, buf, pending, left, s)
         == Resume(mode, buf + s[..h.size], pending - 1 + h.children, left, s[h.size..])
  {
    hide ReadHead, Skip, Items, Resume;
    SkipStep(mode, s, pending, h);
    ResumeShift(mode, buf, pending, pending - 1 + h.children, left, s, h.size);
  }

  /** An item with nothing pending is complete. */
  lemma {:induction false} ResumeFinish(mode: Arithmetic, buf: Bytes, left: nat, s: Bytes)
    requires left >= 1
    ensures Resume(mode, buf, 0, left, s) == Prepend([buf], Items(mode, s, left - 1))
  {
    assert s[0..] == s;
    assert buf + s[..0] == buf;
  }

  lemma {:induction false} PrependTwice(a: seq<Bytes>, b: Bytes, r: Parsed<(seq<Bytes>, Bytes)>)
    ensures Prepend(a, Prepend([b], r)) == Prepend(a + [b], r)
  {
    if r.Ok? {
      assert a + ([b] + r.value.0) == (a + [b]) + r.value.0;
    }
  }

  lemma {:induction false} SumDropLast(st: seq<nat>)
    requires st != []
    ensures Sum(st) == Sum(Inner(st)) + Bottom(st)
  {
    if |st| > 1 {
      SumDropLast(st[1..]);
      assert Inner(st)[1..] == Inner(st[1..]);
    }
  }

  /** The sum of the stack is the number of data items, at any depth, still to be read. */
  ghost predicate CountsPending(mode: Arithmetic, body: Bytes, n: nat, left: seq<nat>, s: Bytes) {
    |s| <= |body| && Skip(mode, body, n) == Shift(|body| - |s|, Skip(mode, s, Sum(left)))
  }

  lemma {:induction false} CountsPendingStep(mode: Arithmetic, body: Bytes, n: nat, left: seq<nat>, s: Bytes, h: Head, next: seq<nat>)
    requires CountsPending(mode, body, n, left, s) && Sum(left) >= 1
    requires ReadHead(mode, s) == Ok(h) && Sum(next) == Sum(left) - 1 + h.children
    ensures CountsPending(mode, body, n, next, s[h.size..])
  {
    hide ReadHead, Skip;
    SkipStep(mode, s, Sum(left), h);
  }

  /** What the loop maintains between two passes. */
  ghost predicate LoopInvariant(mode: Arithmetic, body: Bytes, n: nat, left: seq<nat>, items: seq<Bytes>, buf: Bytes, s: Bytes) {
    && (forall i | 0 <= i < |left| :: left[i] >= 1)
    && |items| + (if left == [] then 0 else Bottom(left)) == n
    && CountsPending(mode, body, n, left, s)
    && (left == [] ==> Items(mode, body, n) == Ok((items, s)))
    && (left != [] ==>
          Items(mode, body, n) == Prepend(items, Resume(mode, buf, Sum(Inner(left)) + 1, Bottom(left), s)))
  }

  /** Entering the loop. */
  lemma {:induction false} LoopStart(mode: Arithmetic, n: nat, s: Bytes)
    requires n >= 1
    ensures LoopInvariant(mode, s, n, [n], [], [], s)
  {
    hide ReadHead, Skip, Items, Resume;
    ResumeStart(mode, n, s);
    var r := Resume(mode, [], 1, n, s);
    if r.Ok? {
      assert [] + r.value.0 == r.value.0;
    }
    assert Inner([n]) == [];
    assert Sum([n]) == n && Shift(0, Skip(mode, s, n)) == Skip(mode, s, n);
  }

  /** The three updates at the end of a pass: push the finished item, then pop or decrement. */
  function PopOrDecrement(st: seq<nat>): seq<nat>
    requires st != [] && st[0] >= 1
  {
    if st[0] == 1 then st[1..] else [st[0] - 1] + st[1..]
  }

  function PushChildren(st: seq<nat>, children: nat): seq<nat> {
    if children == 0 then st else [children] + st
  }

  lemma {:induction false} PopOrDecrementSum(st: seq<nat>)
    requires st != [] && st[0] >= 1
    ensures Sum(PopOrDecrement(st)) == Sum(st) - 1
  {
    if st[0] > 1 {
      assert PopOrDecrement(st)[1..] == st[1..];
    }
  }

  lemma {:induction false} PushChildrenSum(st: seq<nat>, children: nat)
    ensures Sum(PushChildren(st, children)) == Sum(st) + children
  {
    if children > 0 {
      assert ([children] + st)[1..] == st;
    }
  }

  /** The stack after a pass accounts for the items still to be read. */
  lemma {:induction false} StackStep(left: seq<nat>, children: nat)
    requires left != [] && forall i | 0 <= i < |left| :: left[i] >= 1
    ensures
      var pushed := PushChildren(left, children);
      var next := PopOrDecrement(pushed);
      && (forall i | 0 <= i < |next| :: next[i] >= 1)
      && Sum(next) == Sum(left) - 1 + children
      && (|pushed| == 1 ==> left == pushed == [Bottom(left)] && Inner(left) == [])
      && (|pushed| == 1 ==> next == if Bottom(left) == 1 then [] else [Bottom(left) - 1])
      && (|pushed| > 1 ==>
            next != [] && Bottom(next) == Bottom(left) && Sum(Inner(next)) == Sum(Inner(left)) + children - 1)
  {
    var pushed := PushChildren(left, children);
    var next := PopOrDecrement(pushed);
    SumDropLast(left);
    PushChildrenSum(left, children);
    PopOrDecrementSum(pushed);
    if |pushed| > 1 {
      SumDropLast(next);
    } else {
      assert Inner(left) == [];
    }
  }

  /** A pass that finishes a top-level item. */
  lemma {:induction false} FinishItem(mode: Arithmetic, body: Bytes, n: nat, items: seq<Bytes>, buf: Bytes, b: nat, s: Bytes)
    requires b >= 1 && |items| + b == n
    requires CountsPending(mode, body, n, if b == 1 then [] else [b - 1], s)
    requires Items(mode, body, n) == Prepend(items, Resume(mode, buf, 0, b, s))
    ensures LoopInvariant(mode, body, n, if b == 1 then [] else [b - 1], items + [buf], [], s)
  {
    hide ReadHead, Skip, CountsPending;
    ResumeFinish(mode, buf, b, s);
    PrependTwice(items, buf, Items(mode, s, b - 1));
    if b == 1 {
      assert (items + [buf]) + [] == items + [buf];
    } else {
      assert Inner([b - 1]) == [];
      ResumeStart(mode, b - 1, s);
    }
  }

  /** A pass over a head that is not a tag keeps the invariant, whichever of the branches it ends in. */
  lemma {:induction false} LoopStep(mode: Arithmetic, body: Bytes, n: nat, left: seq<nat>, items: seq<Bytes>, buf: Bytes, s: Bytes, h: Head)
    requires left != [] && LoopInvariant(mode, body, n, left, items, buf, s)
    requires ReadHead(mode, s) == Ok(h)
    ensures
      var pushed := PushChildren(left, h.children);
      var buf' := buf + s[..h.size];
      LoopInvariant(mode, body, n, PopOrDecrement(pushed),
                    if |pushed| == 1 then items + [buf'] else items,
                    if |pushed| == 1 then [] else buf', s[h.size..])
  {
    hide ReadHead, Skip, Items, Resume;
    StackStep(left, h.children);
    SumDropLast(left);
    CountsPendingStep(mode, body, n, left, s, h, PopOrDecrement(PushChildren(left, h.children)));
    ResumeStep(mode, buf, Sum(Inner(left)) + 1, Bottom(left), s, h);
    LoopAdvance(mode, body, n, left, items, buf, s, h);
  }

  lemma {:induction false} LoopAdvance(mode: Arithmetic, body: Bytes, n: nat, left: seq<nat>, items: seq<Bytes>, buf: Bytes, s: Bytes, h: Head)
    requires left != [] && LoopInvariant(mode, body, n, left, items, buf, s)
    requires h.size <= |s|
    requires CountsPending(mode, body, n, PopOrDecrement(PushChildren(left, h.children)), s[h.size..])
    requires Resume(mode, buf, Sum(Inner(left)) + 1, Bottom(left), s)
          == Resume(mode, buf + s[..h.size], Sum(Inner(left)) + h.children, Bottom(left), s[h.size..])
    ensures
      var pushed := PushChildren(left, h.children);
      var buf' := buf + s[..h.size];
      LoopInvariant(mode, body, n, PopOrDecrement(pushed),
                    if |pushed| == 1 then items + [buf'] else items,
                    if |pushed| == 1 then [] else buf', s[h.size..])
  {
    hide Skip, Items, Resume, CountsPending;
    StackStep(left, h.children);
    if |PushChildren(left, h.children)| == 1 {
      assert Sum(Inner(left)) + h.children == 0;
      FinishItem(mode, body, n, items, buf + s[..h.size], Bottom(left), s[h.size..]);
    }
  }

  lemma {:induction false} TagAnnouncesOne(mode: Arithmetic, s: Bytes)
    requires s != [] && s[0] / 32 == 6 && ReadHead(mode, s).Ok?
    ensures ReadHead(mode, s).value.children == 1
  {
  }

  /** A tag keeps the stack and the pending count as they are. */
  lemma {:induction false} LoopTag(mode: Arithmetic, body: Bytes, n: nat, left: seq<nat>, items: seq<Bytes>, buf: Bytes, s: Bytes, h: Head)
    requires left != [] && LoopInvariant(mode, body, n, left, items, buf, s)
    requires ReadHead(mode, s) == Ok(h) && h.children == 1
    ensures LoopInvariant(mode, body, n, left, items, buf + s[..h.size], s[h.size..])
  {
    hide ReadHead, Skip, Items, Resume;
    SumDropLast(left);
    CountsPendingStep(mode, body, n, left, s, h, left);
    ResumeStep(mode, buf, Sum(Inner(left)) + 1, Bottom(left), s, h);
  }

  /** A head that cannot be read fails the whole split, with the same outcome. */
  lemma {:induction false} LoopFails(mode: Arithmetic, body: Bytes, n: nat, left: seq<nat>, items: seq<Bytes>, buf: Bytes, s: Bytes)
    requires left != [] && LoopInvariant(mode, body, n, left, items, buf, s)
    requires !ReadHead(mode, s).Ok?
    ensures Items(mode, body, n) == ReadHead(mode, s).PropagateFailure()
  {
    hide ReadHead, Items;
    assert Skip(mode, s, Sum(Inner(left)) + 1) == ReadHead(mode, s).PropagateFailure();
  }

  lemma {:induction false} NoItems(mode: Arithmetic, s: Bytes)
    ensures Items(mode, s, 0) == Ok(([], s))
  {
  }

  /** `deserialize_from_reader`. The three branches the code keeps although they "should not
      happen" are the assertions: no entry is zero, nothing is left, the count is right. Only
      wrapped arithmetic reaches the first one. */
  method DeserializeFromReader(mode: Arithmetic, size: Size, input: Bytes) returns (r: Parsed<(ParsedArray, Bytes)>)
    ensures r == Parse(mode, size, input)
  {
    hide ParseUntagged, ReadLen;
    if input == [] {
      return Err(NoData);
    }
    var reader := input;
    var tag := None;
    if reader[0] / 32 == 6 {
      var len := ReadLen(reader[0] % 32, reader[1..]);
      if !len.Ok? {
        return len.PropagateFailure();
      }
      tag := Some(len.value.value);
      reader := reader[1 + len.value.size..];
      if reader == [] {
        return Err(Io);
      }
    }
    r := ReadArray(mode, size, tag, reader);
  }

  /** From the array's own initial byte on. */
  method ReadArray(mode: Arithmetic, size: Size, tag: Option<nat>, input: Bytes) returns (r: Parsed<(ParsedArray, Bytes)>)
    requires input != []
    ensures r == ParseUntagged(mode, size, tag, input)
  {
    hide Items, ReadLen;
    var reader := input;
    if reader[0] / 32 != 4 {
      return Err(InvalidTopLevelType(reader[0] / 32));
    }
    var mapLen := ReadLen(reader[0] % 32, reader[1..]);
    if !mapLen.Ok? {
      return mapLen.PropagateFailure();
    }
    if size.Some? && mapLen.value.value != size.value {
      return Err(InvalidNumberOfElements(mapLen.value.value, size.value));
    }
    var n := mapLen.value.value;
    reader := reader[1 + mapLen.value.size..];
    if n == 0 {
      NoItems(mode, reader);
      return Ok((ParsedArray(tag, []), reader));
    }
    var items := ReadItems(mode, n, reader);
    if !items.Ok? {
      return items.PropagateFailure();
    }
    assert size.Some? ==> |items.value.0| == size.value;
    r := Ok((ParsedArray(tag, items.value.0), items.value.1));
  }

  /** The parse loop. */
  method ReadItems(mode: Arithmetic, n: nat, body: Bytes) returns (r: Parsed<(seq<Bytes>, Bytes)>)
    requires n >= 1
    ensures r == Items(mode, body, n)
    ensures r.Ok? ==> |r.value.0| == n
  {
    hide ReadHead, Skip, Items, Resume, CountsPending;
    var reader, leftAtDepth, items, buf := body, [n], [], [];
    LoopStart(mode, n, body);
    while leftAtDepth != []
      invariant LoopInvariant(mode, body, n, leftAtDepth, items, buf, reader)
      decreases |reader|
    {
      var head := ReadHead(mode, reader);
      if !head.Ok? {
        LoopFails(mode, body, n, leftAtDepth, items, buf, reader);
        return head.PropagateFailure();
      }
      var h := head.value;
      var taken := reader[..h.size];
      if reader[0] / 32 == 6 {
        TagAnnouncesOne(mode, reader);
        LoopTag(mode, body, n, leftAtDepth, items, buf, reader, h);
        buf, reader := buf + taken, reader[h.size..];
        continue;
      }
      LoopStep(mode, body, n, leftAtDepth, items, buf, reader, h);
      buf, reader := buf + taken, reader[h.size..];
      if h.children != 0 {
        leftAtDepth := [h.children] + leftAtDepth;
      }
      if |leftAtDepth| == 1 {
        items, buf := items + [buf], [];
      }
      assert leftAtDepth[0] != 0;
      if leftAtDepth[0] == 1 {
        leftAtDepth := leftAtDepth[1..];
      } else {
        leftAtDepth := [leftAtDepth[0] - 1] + leftAtDepth[1..];
      }
    }
    r := Ok((items, reader));
  }
}
