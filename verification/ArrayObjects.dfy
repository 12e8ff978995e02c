/** The vectors behind arrays, changed in place: `ParsedArray::push` and `set`, and the builder of
data-formats/src/cborparser.rs. */
module ArrayObjects {
  import opened Outcomes
  import opened ByteStrings
  import opened ParsedArrays
  import opened CborRefinement
  import opened CborRoundTrip

  /** Only an encoded value can be stored. */
  type Encoded = Parsed<Bytes>

  class RawArray {
    var tag: Option<nat>
    var contents: seq<Bytes>

    function State(): ParsedArray
      reads this
    {
      ParsedArray(tag, contents)
    }

    /** `new_empty`. */
    constructor ()
      ensures State() == ParsedArray(None, [])
    {
      tag, contents := None, [];
    }

    /** `push`. */
    method Push(item: Encoded) returns (r: Parsed<()>)
      modifies this
      ensures item.Ok? ==> r == Ok(()) && State() == ParsedArray(old(tag), old(contents) + [item.value])
      ensures !item.Ok? ==> r == item.PropagateFailure() && State() == old(State())
    {
      if !item.Ok? {
        return item.PropagateFailure();
      }
      contents := contents + [item.value];
      r := Ok(());
    }

    /** `set`, on an array of static length. */
    method Set(n: nat, value: Encoded) returns (r: Parsed<()>)
      modifies this
      ensures r.Ok? <==> value.Ok? && n < |old(contents)|
      ensures r.Ok? ==> State() == ParsedArray(old(tag), old(contents)[n := value.value])
      ensures !r.Ok? ==> State() == old(State()) && r == (if n > |contents| || value.Ok? then Panic(OutOfRange) else value.PropagateFailure())
    {
      if n > |contents| {
        return Panic(OutOfRange);
      }
      if !value.Ok? {
        return value.PropagateFailure();
      }
      if n == |contents| {
        return Panic(OutOfRange);
      }
      contents := contents[n := value.value];
      r := Ok(());
    }

    /** `get_raw`. */
    method GetRaw(n: nat) returns (r: Parsed<Bytes>)
      ensures r == if n < |contents| then Ok(contents[n]) else Panic(OutOfRange)
    {
      if n >= |contents| {
        return Panic(OutOfRange);
      }
      r := Ok(contents[n]);
    }
  }

  /** The contents of a builder in which everything has been set. */
  predicate Complete(slots: seq<Option<Bytes>>) {
    forall i | 0 <= i < |slots| :: slots[i].Some?
  }

  function Values(slots: seq<Option<Bytes>>): (r: seq<Bytes>)
    requires Complete(slots)
    ensures |r| == |slots|
  {
    seq(|slots|, i requires 0 <= i < |slots| => slots[i].value)
  }

  class ArrayBuilder {
    var slots: seq<Option<Bytes>>

    constructor (size: nat)
      ensures slots == seq(size, _ => None)
    {
      slots := seq(size, _ => None);
    }

    method Set(n: nat, value: Encoded) returns (r: Parsed<()>)
      modifies this
      ensures r.Ok? <==> value.Ok? && n < |old(slots)|
      ensures slots == if r.Ok? then old(slots)[n := Some(value.value)] else old(slots)
      ensures !r.Ok? ==> r == if n > |slots| || value.Ok? then Panic(OutOfRange) else value.PropagateFailure()
    {
      if n > |slots| {
        return Panic(OutOfRange);
      }
      if !value.Ok? {
        return value.PropagateFailure();
      }
      if n == |slots| {
        return Panic(OutOfRange);
      }
      slots := slots[n := Some(value.value)];
      r := Ok(());
    }

    /** `build`: the slots are drained into an array, or the call panics. */
    method Build() returns (r: Parsed<ParsedArray>)
      ensures r.Ok? <==> Complete(slots)
      ensures r.Ok? ==> r.value == ParsedArray(None, Values(slots))
      ensures !r.Ok? ==> r == Panic(Unwrapped)
    {
      var contents: seq<Bytes> := [];
      for i := 0 to |slots|
        invariant |contents| == i && forall k | 0 <= k < i :: slots[k] == Some(contents[k])
      {
        if slots[i].None? {
          return Panic(Unwrapped);
        }
        contents := contents + [slots[i].value];
      }
      assert contents == Values(slots);
      r := Ok(ParsedArray(None, contents));
    }
  }

  /** What is built from items is printed and read back slot by slot, by a reader that expects that
      many elements, and leaves what follows. */
  lemma {:induction false} BuiltReadsBack(mode: Arithmetic, slots: seq<Option<Bytes>>, rest: Bytes)
    requires Complete(slots) && 1 <= |slots| <= 8 && forall i | 0 <= i < |slots| :: IsItem(slots[i].value)
    ensures
      var printed := Serialize(ParsedArray(None, Values(slots)));
      && printed.Ok?
      && Parse(mode, Some(|slots|), printed.value + rest) == Ok((ParsedArray(None, Values(slots)), rest))
      && forall i | 0 <= i < |slots| :: Some(Values(slots)[i]) == slots[i]
  {
    hide Parse, Serialize, IsItem;
    SerializeThenParse(mode, Some(|slots|), ParsedArray(None, Values(slots)), rest);
  }

  /** Pushing one more item onto an array that can be printed. */
  lemma {:induction false} PushedReadsBack(mode: Arithmetic, a: ParsedArray, item: Bytes)
    requires Encodable(a) && IsItem(item)
    ensures
      var more := ParsedArray(a.tag, a.contents + [item]);
      && (Serialize(more).Ok? <==> |a.contents| < 0xffff)
      && (Serialize(more).Ok? ==> Parse(mode, None, Serialize(more).value) == Ok((more, [])))
  {
    hide Parse, Serialize, IsItem;
    var more := ParsedArray(a.tag, a.contents + [item]);
    SerializeSucceedsIff(more);
    if Serialize(more).Ok? {
      SerializeThenParse(mode, None, more, []);
      assert Serialize(more).value + [] == Serialize(more).value;
    }
  }
}
