/** Reading many arrays from one input: data-formats/src/serializable.rs. */
module ManyReader {
  import opened Outcomes
  import opened ByteStrings
  import opened CborGrammar
  import opened ParsedArrays
  import opened CborRefinement
  import opened CborRoundTrip

  // ------------------------------------------------- no data

  lemma {:induction false} SkipNeverNoData(mode: Arithmetic, s: Bytes, n: nat)
    ensures Skip(mode, s, n) != Err(NoData)
    decreases |s|
  {
    if n > 0 && ReadHead(mode, s).Ok? {
      var h := ReadHead(mode, s).value;
      SkipNeverNoData(mode, s[h.size..], n - 1 + h.children);
    }
  }

  lemma {:induction false} ItemsNeverNoData(mode: Arithmetic, s: Bytes, n: nat)
    ensures Items(mode, s, n) != Err(NoData)
    decreases n
  {
    hide Skip;
    if n > 0 {
      SkipNeverNoData(mode, s, 1);
      if Skip(mode, s, 1).Ok? {
        ItemsNeverNoData(mode, s[Skip(mode, s, 1).value..], n - 1);
      }
    }
  }

  lemma {:induction false} BodyNeverNoData(mode: Arithmetic, size: Size, tag: Option<nat>, s: Bytes)
    requires s != []
    ensures ParseUntagged(mode, size, tag, s) != Err(NoData)
  {
    hide Items;
    if s[0] / 32 == 4 && ReadLen(s[0] % 32, s[1..]).Ok? {
      var len := ReadLen(s[0] % 32, s[1..]).value;
      ItemsNeverNoData(mode, s[1 + len.size..], len.value);
    }
  }

  /** "No data" is reported exactly when nothing at all is left: never inside an item. */
  lemma {:induction false} NoDataIffEmpty(mode: Arithmetic, size: Size, s: Bytes)
    ensures Parse(mode, size, s) == Err(NoData) <==> s == []
  {
    hide ParseUntagged;
    if s != [] {
      if s[0] / 32 != 6 {
        BodyNeverNoData(mode, size, None, s);
      } else if ReadLen(s[0] % 32, s[1..]).Ok? {
        var tag := ReadLen(s[0] % 32, s[1..]).value;
        if |s| > 1 + tag.size {
          BodyNeverNoData(mode, size, Some(tag.value), s[1 + tag.size..]);
        }
      }
    }
  }

  // ------------------------------------------------- the loop

  /** What the loop computes: arrays are read until nothing is left. */
  function Many(mode: Arithmetic, size: Size, s: Bytes): Parsed<seq<ParsedArray>>
    decreases |s|
  {
    match Parse(mode, size, s)
    case Ok(r) => PrependArray(r.0, Many(mode, size, r.1))
    case Err(e) => if e == NoData then Ok([]) else Err(e)
    case Panic(c) => Panic(c)
  }

  function PrependArray(a: ParsedArray, r: Parsed<seq<ParsedArray>>): Parsed<seq<ParsedArray>> {
    if r.Ok? then Ok([a] + r.value) else r
  }

  function Joined(done: seq<ParsedArray>, r: Parsed<seq<ParsedArray>>): Parsed<seq<ParsedArray>> {
    if r.Ok? then Ok(done + r.value) else r
  }

  /** `deserialize_many_from_reader`. */
  method DeserializeMany(mode: Arithmetic, size: Size, input: Bytes) returns (r: Parsed<seq<ParsedArray>>)
    ensures r == Many(mode, size, input)
  {
    hide Parse, Many;
    var output, reader := [], input;
    JoinedStart(Many(mode, size, input));
    while true
      invariant Many(mode, size, input) == Joined(output, Many(mode, size, reader))
      decreases |reader|
    {
      ManyStep(mode, size, output, reader);
      var item := DeserializeFromReader(mode, size, reader);
      match item
      case Err(e) =>
        if e != NoData {
          return Err(e);
        }
        return Ok(output);
      case Panic(c) =>
        return Panic(c);
      case Ok(v) =>
        output, reader := output + [v.0], v.1;
    }
  }

  lemma {:induction false} JoinedStart(r: Parsed<seq<ParsedArray>>)
    ensures r == Joined([], r)
  {
    assert r.Ok? ==> [] + r.value == r.value;
  }

  lemma {:induction false} ManyStep(mode: Arithmetic, size: Size, done: seq<ParsedArray>, s: Bytes)
    ensures
      match Parse(mode, size, s)
      case Ok(v) => Joined(done, Many(mode, size, s)) == Joined(done + [v.0], Many(mode, size, v.1))
      case Err(e) => Joined(done, Many(mode, size, s)) == if e == NoData then Ok(done) else Err(e)
      case Panic(c) => Joined(done, Many(mode, size, s)) == Panic(c)
  {
    hide Parse;
    assert done + [] == done;
    if Parse(mode, size, s).Ok? {
      var v := Parse(mode, size, s).value;
      var others := Many(mode, size, v.1);
      assert others.Ok? ==> done + ([v.0] + others.value) == (done + [v.0]) + others.value;
    }
  }

  // ------------------------------------------------- concatenation

  function SerializeAll(arrays: seq<ParsedArray>): Parsed<Bytes> {
    if arrays == [] then Ok([]) else
    match (Serialize(arrays[0]), SerializeAll(arrays[1..]))
    case (Ok(first), Ok(others)) => Ok(first + others)
    case _ => Panic(ShortBuffer)
  }

  /** Reading inverts concatenation. */
  lemma {:induction false} ManyInvertsConcatenation(mode: Arithmetic, size: Size, arrays: seq<ParsedArray>)
    requires forall i | 0 <= i < |arrays| ::
               Encodable(arrays[i]) && (size.Some? ==> size.value == |arrays[i].contents|)
    ensures SerializeAll(arrays).Ok?
    ensures Many(mode, size, SerializeAll(arrays).value) == Ok(arrays)
  {
    if arrays == [] {
    } else {
      hide Parse, Serialize, Encodable;
      ManyInvertsConcatenation(mode, size, arrays[1..]);
      SerializeThenParse(mode, size, arrays[0], SerializeAll(arrays[1..]).value);
      assert [arrays[0]] + arrays[1..] == arrays;
    }
  }

  /** The segments `segs` are the arrays `arrays`, one each, with nothing left over. */
  predicate Segmented(size: Size, segs: seq<Bytes>, arrays: seq<ParsedArray>) {
    |segs| == |arrays| &&
    forall i | 0 <= i < |segs| :: Parse(Checked, size, segs[i]) == Ok((arrays[i], []))
  }

  lemma {:induction false} SegmentsOfMany(size: Size, s: Bytes) returns (segs: seq<Bytes>)
    requires Many(Checked, size, s).Ok?
    ensures Flatten(segs) == s && Segmented(size, segs, Many(Checked, size, s).value)
    decreases |s|
  {
    NoDataIffEmpty(Checked, size, s);
    hide Parse;
    if s == [] {
      segs := [];
    } else {
      var (a, rest) := Parse(Checked, size, s).value;
      var others := SegmentsOfMany(size, rest);
      var first := s[..|s| - |rest|];
      ParseLeavesSuffix(size, s);
      ParseIgnoresWhatFollows(size, s, []);
      assert first + [] == first;
      segs := [first] + others;
      assert segs[1..] == others;
    }
  }

  lemma {:induction false} ParseLeavesSuffix(size: Size, s: Bytes)
    requires Parse(Checked, size, s).Ok?
    ensures var rest := Parse(Checked, size, s).value.1; s == s[..|s| - |rest|] + rest
  {
    hide Parse, SpellArray;
    var tag, len, ts := ParseStaysInGrammar(size, s);
    var rest := Parse(Checked, size, s).value.1;
    assert s[..|s| - |rest|] == SpellArray(tag, len, ts);
  }

  lemma {:induction false} ManyOfSegments(size: Size, segs: seq<Bytes>, arrays: seq<ParsedArray>)
    requires Segmented(size, segs, arrays)
    ensures Many(Checked, size, Flatten(segs)) == Ok(arrays)
  {
    if segs == [] {
      NoDataIffEmpty(Checked, size, []);
    } else {
      hide Parse;
      ManyOfSegments(size, segs[1..], arrays[1..]);
      var others := Flatten(segs[1..]);
      ParseIgnoresWhatFollows(size, segs[0], others);
      assert segs[0][..|segs[0]| - 0] == segs[0];
      assert [arrays[0]] + arrays[1..] == arrays;
    }
  }

  /** The many-reader succeeds exactly on inputs that are cut, without remainder, into arrays. */
  lemma {:induction false} ManyConsumesEverything(size: Size, s: Bytes, arrays: seq<ParsedArray>)
    ensures Many(Checked, size, s) == Ok(arrays) <==>
            exists segs: seq<Bytes> :: Flatten(segs) == s && Segmented(size, segs, arrays)
  {
    hide Parse, Many, Flatten;
    if Many(Checked, size, s) == Ok(arrays) {
      var segs := SegmentsOfMany(size, s);
    }
    if segs: seq<Bytes> :| Flatten(segs) == s && Segmented(size, segs, arrays) {
      ManyOfSegments(size, segs, arrays);
    }
  }
}
