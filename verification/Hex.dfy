/** Bytes as hexadecimal text: the `hex` crate. */
module Hexadecimal {
  import opened Outcomes
  import opened ByteStrings

  function HexDigit(n: nat): char
    requires n < 16
  {
    if n < 10 then '0' + n as char else 'a' + (n - 10) as char
  }

  function HexValue(c: char): Option<nat> {
    if '0' <= c <= '9' then Some(c as int - '0' as int)
    else if 'a' <= c <= 'f' then Some(c as int - 'a' as int + 10)
    else if 'A' <= c <= 'F' then Some(c as int - 'A' as int + 10)
    else None
  }

  function HexEncode(b: Bytes): string {
    if b == [] then [] else [HexDigit(b[0] / 16), HexDigit(b[0] % 16)] + HexEncode(b[1..])
  }

  function HexDecode(s: string): Option<Bytes> {
    if s == [] then Some([])
    else if |s| == 1 then None
    else
      match (HexValue(s[0]), HexValue(s[1]), HexDecode(s[2..]))
      case (Some(hi), Some(lo), Some(others)) => if hi < 16 && lo < 16 then Some([hi * 16 + lo] + others) else None
      case _ => None
  }

  lemma {:induction false} HexDigitRoundTrip(n: nat)
    requires n < 16
    ensures HexValue(HexDigit(n)) == Some(n)
  {
  }

  lemma {:induction false} HexRoundTrip(b: Bytes)
    ensures HexDecode(HexEncode(b)) == Some(b)
  {
    hide HexDigit, HexValue;
    if b != [] {
      HexRoundTrip(b[1..]);
      HexDigitRoundTrip(b[0] / 16);
      HexDigitRoundTrip(b[0] % 16);
      var s := HexEncode(b);
      assert s[0] == HexDigit(b[0] / 16) && s[1] == HexDigit(b[0] % 16) && s[2..] == HexEncode(b[1..]);
      assert [b[0]] + b[1..] == b;
    }
  }

  /** Two digits a byte, the higher first, in upper or lower case. */
  predicate SpelledAt(s: string, b: Bytes, i: nat)
    requires |s| == 2 * |b| && i < |b|
  {
    HexValue(s[2 * i]) == Some(b[i] / 16) && HexValue(s[2 * i + 1]) == Some(b[i] % 16)
  }

  predicate Spelled(s: string, b: Bytes) {
    |s| == 2 * |b| && forall i | 0 <= i < |b| :: SpelledAt(s, b, i)
  }

  lemma {:induction false} SpelledTail(s: string, b: Bytes)
    requires |s| == 2 * |b| && b != []
    ensures Spelled(s, b) <==> SpelledAt(s, b, 0) && Spelled(s[2..], b[1..])
  {
    hide HexValue;
    forall i | 0 < i < |b| ensures SpelledAt(s, b, i) <==> SpelledAt(s[2..], b[1..], i - 1) {
    }
    if Spelled(s[2..], b[1..]) && SpelledAt(s, b, 0) {
      forall i | 0 <= i < |b| ensures SpelledAt(s, b, i) {
        assert i > 0 ==> SpelledAt(s[2..], b[1..], i - 1);
      }
    }
    if Spelled(s, b) {
      forall i | 0 <= i < |b[1..]| ensures SpelledAt(s[2..], b[1..], i) {
        assert SpelledAt(s, b, i + 1);
      }
    }
  }

  /** Exactly the spellings of some bytes decode, to these bytes. */
  lemma {:induction false} DecodesIff(s: string, b: Bytes)
    ensures HexDecode(s) == Some(b) <==> Spelled(s, b)
    decreases |s|
  {
    hide HexValue;
    DigitsAreSmall();
    if |s| >= 2 {
      if b != [] {
        DecodesIff(s[2..], b[1..]);
        if |s| == 2 * |b| {
          SpelledTail(s, b);
        }
        assert b == [b[0]] + b[1..];
        DecodedFirst(s, b);
      }
    }
  }

  lemma {:induction false} DigitsAreSmall()
    ensures forall c :: HexValue(c).Some? ==> HexValue(c).value < 16
  {
  }

  lemma {:induction false} DecodedFirst(s: string, b: Bytes)
    requires |s| >= 2 && b != []
    ensures HexDecode(s) == Some(b) <==>
            HexValue(s[0]) == Some(b[0] / 16) && HexValue(s[1]) == Some(b[0] % 16) && HexDecode(s[2..]) == Some(b[1..])
  {
    DigitsAreSmall();
    hide HexValue;
    assert b == [b[0]] + b[1..];
    if HexDecode(s).Some? {
      var rest := HexDecode(s[2..]).value;
      assert HexDecode(s).value[1..] == rest;
    }
  }
}
