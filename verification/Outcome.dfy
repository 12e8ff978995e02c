/** Results shared by every part of the model.

The program has three ways to leave a call: it returns a value, it returns an
error, or it panics (an `unwrap` on a failed read, an index out of range, a
buffer that is too short). All three are outcomes here. */
module Outcomes {

  datatype Option<+T> = None | Some(value: T)

  /** Why a call panicked. */
  datatype Cause =
    | Truncated        // `read_exact(..).unwrap()` met the end of the input
    | Capacity         // a vector longer than the address space was requested
    | Overflow         // checked arithmetic overflowed
    | ShortBuffer      // a number was written into a buffer too short for it
    | OutOfRange       // an index or a split position beyond the end
    | LengthMismatch   // constant-time comparison of values of different length
    | Unwrapped        // `unwrap` of an absent value or an error

  datatype Outcome<+T, +E> = Ok(value: T) | Err(error: E) | Panic(cause: Cause) {

    predicate IsFailure() {
      !Ok?
    }

    function PropagateFailure<U>(): Outcome<U, E>
      requires IsFailure()
    {
      match this
      case Err(e) => Err(e)
      case Panic(c) => Panic(c)
    }

    function Extract(): T
      requires Ok?
    {
      value
    }
  }
}

/** Byte strings and big-endian numbers. */
module ByteStrings {

  type byte = b: int | 0 <= b < 256

  type Bytes = seq<byte>

  /** The number that `bs` spells, most significant byte first. */
  function FromBigEndian(bs: Bytes): nat {
    if bs == [] then 0
    else FromBigEndian(bs[..|bs| - 1]) * 256 + bs[|bs| - 1]
  }

  lemma {:induction false} FromBigEndian1(a: byte)
    ensures FromBigEndian([a]) == a
  {
    assert [a][..0] == [];
  }

  lemma {:induction false} FromBigEndian2(a: byte, b: byte)
    ensures FromBigEndian([a, b]) == a * 256 + b
  {
    assert [a, b][..1] == [a];
    FromBigEndian1(a);
  }

  /** Two bytes, most significant first: `u16::to_be_bytes` and `BigEndian::write_u16`. */
  function ToBigEndian16(v: nat): (r: Bytes)
    requires v < 0x1_0000
  {
    [v / 256, v % 256]
  }

  lemma {:induction false} BigEndian16RoundTrip(v: nat)
    requires v < 0x1_0000
    ensures FromBigEndian(ToBigEndian16(v)) == v
  {
    FromBigEndian2(v / 256, v % 256);
  }

  lemma {:induction false} BigEndian16RoundTripBack(bs: Bytes)
    requires |bs| == 2
    ensures FromBigEndian(bs) < 0x1_0000
    ensures ToBigEndian16(FromBigEndian(bs)) == bs
  {
    assert bs == [bs[0], bs[1]];
    FromBigEndian2(bs[0], bs[1]);
  }

  /** Concatenation of a list of byte strings. */
  function Flatten(parts: seq<Bytes>): Bytes {
    if parts == [] then [] else parts[0] + Flatten(parts[1..])
  }
}
