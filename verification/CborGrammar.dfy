/** The grammar: definite-length data items of section 3 of RFC 8949, major
types 0 to 6, as syntax trees and the bytes each tree is spelled with.

Nothing here mentions the parser: the trees are generated, not recognised. */
module CborGrammar {
  import opened ByteStrings

  const U64: nat := 0x1_0000_0000_0000_0000

  /** Largest vector length the allocator accepts (`isize::MAX`). */
  const MAX_ALLOC: nat := 0x7fff_ffff_ffff_ffff

  /** The argument of an initial byte: its low five bits and the bytes after it. */
  datatype Arg = Arg(minor: nat, ext: Bytes) {

    predicate Valid() {
      || (minor <= 23 && ext == [])
      || (minor == 24 && |ext| == 1)
      || (minor == 25 && |ext| == 2)
      || (minor == 26 && |ext| == 4)
      || (minor == 27 && |ext| == 8)
    }

    function Value(): nat {
      if minor <= 23 then minor else FromBigEndian(ext)
    }

    /** The spelling the program's own encoder uses for this value, when it has one. */
    predicate Shortest() {
      || minor <= 23
      || (minor == 24 && Value() > 23)
      || (minor == 25 && Value() > 0xff)
    }
  }

  datatype Item =
    | Int(negative: bool, arg: Arg)
    | Str(text: bool, arg: Arg, payload: Bytes)
    | Arr(arg: Arg, elements: seq<Item>)
    | Map(arg: Arg, flattened: seq<Item>)   // key, value, key, value, ...
    | Tag(arg: Arg, item: Item)

  predicate WellFormed(t: Item) {
    t.arg.Valid() &&
    match t
    case Int(_, _) => true
    case Str(_, arg, payload) => |payload| == arg.Value() <= MAX_ALLOC
    case Arr(arg, ts) =>
      |ts| == arg.Value() && forall i | 0 <= i < |ts| :: WellFormed(ts[i])
    case Map(arg, ts) =>
      |ts| == 2 * arg.Value() < U64 && forall i | 0 <= i < |ts| :: WellFormed(ts[i])
    case Tag(_, inner) => WellFormed(inner)
  }

  function Major(t: Item): (m: nat)
    ensures m < 7
  {
    match t
    case Int(negative, _) => if negative then 1 else 0
    case Str(text, _, _) => if text then 3 else 2
    case Arr(_, _) => 4
    case Map(_, _) => 5
    case Tag(_, _) => 6
  }

  /** An initial byte with its argument bytes. */
  function Start(major: nat, arg: Arg): Bytes
    requires major < 8 && arg.Valid()
  {
    [major * 32 + arg.minor] + arg.ext
  }

  function Spell(t: Item): Bytes
    requires WellFormed(t)
    decreases t, 1
  {
    Start(Major(t), t.arg) +
    match t
    case Int(_, _) => []
    case Str(_, _, payload) => payload
    case Arr(_, ts) => SpellAll(ts)
    case Map(_, ts) => SpellAll(ts)
    case Tag(_, inner) => Spell(inner)
  }

  function SpellAll(ts: seq<Item>): Bytes
    requires forall i | 0 <= i < |ts| :: WellFormed(ts[i])
    decreases ts, 0
  {
    if ts == [] then [] else Spell(ts[0]) + SpellAll(ts[1..])
  }

  /** The spelling of a whole array with an optional tag before it. */
  function SpellArray(tag: seq<Arg>, len: Arg, ts: seq<Item>): Bytes
    requires |tag| <= 1 && forall t | t in tag :: t.Valid()
    requires len.Valid()
    requires forall i | 0 <= i < |ts| :: WellFormed(ts[i])
  {
    (if tag == [] then [] else Start(6, tag[0])) + Start(4, len) + SpellAll(ts)
  }
}
