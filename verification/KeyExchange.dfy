/** The TO2 key exchange: data-formats/src/types.rs, and the choice of the KDF variant that both
ends make from the headers they exchange. */
module KeyExchanges {
  import opened Outcomes
  import opened ByteStrings

  datatype KexError = InvalidBstr | InvalidRandomSize | InvalidPoint | InvalidKeyDerived

  type Result<+T> = Outcome<T, KexError>

  // ------------------------------------------------- the public parameter on the wire

  /** A length written as `as u16` keeps the low sixteen bits. */
  function Length16(b: Bytes): Bytes {
    ToBigEndian16(|b| % 0x1_0000)
  }

  function EncodeEcdh(x: Bytes, y: Bytes, random: Bytes): Bytes {
    Length16(x) + x + Length16(y) + y + Length16(random) + random
  }

  /** One `split_at` of a two-byte length and one of that many bytes; both panic past the end. */
  function TakeField(s: Bytes): Result<(Bytes, Bytes)> {
    if |s| < 2 then Panic(OutOfRange) else
    var len := FromBigEndian(s[..2]);
    if |s| < 2 + len then Panic(OutOfRange) else Ok((s[2..2 + len], s[2 + len..]))
  }

  function DecodeEcdh(s: Bytes): Result<(Bytes, Bytes, Bytes)> {
    match TakeField(s)
    case Err(e) => Err(e)
    case Panic(c) => Panic(c)
    case Ok(x) =>
      match TakeField(x.1)
      case Err(e) => Err(e)
      case Panic(c) => Panic(c)
      case Ok(y) =>
        match TakeField(y.1)
        case Err(e) => Err(e)
        case Panic(c) => Panic(c)
        case Ok(random) => if random.1 != [] then Err(InvalidBstr) else Ok((x.0, y.0, random.0))
  }

  lemma {:induction false} TakeFieldOf(b: Bytes, rest: Bytes)
    requires |b| < 0x1_0000
    ensures TakeField(Length16(b) + b + rest) == Ok((b, rest))
  {
    var s := Length16(b) + b + rest;
    assert s[..2] == Length16(b);
    BigEndian16RoundTrip(|b|);
    assert s[2..2 + |b|] == b && s[2 + |b|..] == rest;
  }

  lemma {:induction false} TakeFieldBack(s: Bytes)
    requires TakeField(s).Ok?
    ensures
      var (b, rest) := TakeField(s).value;
      |b| < 0x1_0000 && s == Length16(b) + b + rest
  {
    var (b, rest) := TakeField(s).value;
    BigEndian16RoundTripBack(s[..2]);
    assert s == s[..2] + s[2..2 + |b|] + s[2 + |b|..];
  }

  /** Decoding inverts encoding exactly for fields under 65536 bytes. */
  lemma {:induction false} DecodeInvertsEncode(x: Bytes, y: Bytes, random: Bytes)
    ensures DecodeEcdh(EncodeEcdh(x, y, random)) == Ok((x, y, random)) <==>
            |x| < 0x1_0000 && |y| < 0x1_0000 && |random| < 0x1_0000
  {
    hide TakeField, Length16;
    var s := EncodeEcdh(x, y, random);
    if |x| < 0x1_0000 && |y| < 0x1_0000 && |random| < 0x1_0000 {
      var r3 := Length16(random) + random;
      var r2 := Length16(y) + y + r3;
      assert s == Length16(x) + x + r2;
      TakeFieldOf(x, r2);
      TakeFieldOf(y, r3);
      assert r3 == r3 + [];
      TakeFieldOf(random, []);
    } else if DecodeEcdh(s).Ok? {
      EncodeInvertsDecode(s);
    }
  }

  /** Whatever decodes re-encodes to the same bytes. */
  lemma {:induction false} EncodeInvertsDecode(s: Bytes)
    requires DecodeEcdh(s).Ok?
    ensures
      var (x, y, random) := DecodeEcdh(s).value;
      && |x| < 0x1_0000 && |y| < 0x1_0000 && |random| < 0x1_0000
      && EncodeEcdh(x, y, random) == s
  {
    hide TakeField, Length16;
    var f1 := TakeField(s).value;
    var f2 := TakeField(f1.1).value;
    var f3 := TakeField(f2.1).value;
    TakeFieldBack(s);
    TakeFieldBack(f1.1);
    TakeFieldBack(f2.1);
    calc {
      s;
      Length16(f1.0) + f1.0 + (Length16(f2.0) + f2.0 + (Length16(f3.0) + f3.0 + []));
      EncodeEcdh(f1.0, f2.0, f3.0);
    }
  }

  /** A field as the standard lays it out: its length in two bytes, the higher first, and its bytes. */
  function Field(b: Bytes): Bytes
    requires |b| < 0x1_0000
  {
    [|b| / 256, |b| % 256] + b
  }

  lemma {:induction false} EncodedFields(x: Bytes, y: Bytes, random: Bytes)
    requires |x| < 0x1_0000 && |y| < 0x1_0000 && |random| < 0x1_0000
    ensures EncodeEcdh(x, y, random) == Field(x) + Field(y) + Field(random)
  {
    OneField(x);
    OneField(y);
    OneField(random);
    hide Length16, Field;
    var a, b, c := Length16(x), Length16(y), Length16(random);
    assert a + x + b + y + c + random == (a + x) + (b + y) + (c + random);
  }

  lemma {:induction false} OneField(b: Bytes)
    requires |b| < 0x1_0000
    ensures Field(b) == Length16(b) + b
  {
    assert Length16(b) == [|b| / 256, |b| % 256];
  }

  /** The layout on the wire: the two coordinates and the random value as fields, and nothing else. */
  lemma {:induction false} LayoutIff(s: Bytes, x: Bytes, y: Bytes, random: Bytes)
    ensures
      DecodeEcdh(s) == Ok((x, y, random)) <==>
        |x| < 0x1_0000 && |y| < 0x1_0000 && |random| < 0x1_0000 && s == Field(x) + Field(y) + Field(random)
  {
    hide DecodeEcdh, EncodeEcdh, Field;
    DecodeInvertsEncode(x, y, random);
    if DecodeEcdh(s) == Ok((x, y, random)) {
      EncodeInvertsDecode(s);
    }
    if |x| < 0x1_0000 && |y| < 0x1_0000 && |random| < 0x1_0000 {
      EncodedFields(x, y, random);
    }
  }

  // ------------------------------------------------- the curve

  datatype Suite = Ecdh256 | Ecdh384 {

    function RandomSize(): nat {
      if Ecdh256? then 16 else 48
    }
  }

  type Point = (Bytes, Bytes)

  /** Curve arithmetic and the key derivation function. */
  datatype Curve = Curve(
    public: (Suite, nat) -> Point,
    shared: (Suite, nat, Point) -> Option<Bytes>,        // x coordinate; None for an invalid result
    onCurve: (Suite, Point) -> bool,
    kdf: (bool, nat, Bytes) -> Bytes)                    // non-interoperable variant, key length, secret

  /** Public points are on the curve, short enough for the wire, and Diffie-Hellman commutes. */
  ghost predicate CurveLaws(c: Curve) {
    && (forall s: Suite, k: nat ::
          c.onCurve(s, c.public(s, k)) && |c.public(s, k).0| < 0x1_0000 && |c.public(s, k).1| < 0x1_0000)
    && (forall s: Suite, k: nat, l: nat :: c.shared(s, k, c.public(s, l)) == c.shared(s, l, c.public(s, k)))
  }

  datatype KeyExchange = KeyExchange(suite: Suite, secret: nat, random: Bytes) {

    /** What `new` makes. */
    predicate Valid() {
      |random| == suite.RandomSize()
    }
  }

  function GetPublic(c: Curve, k: KeyExchange): Bytes {
    var (x, y) := c.public(k.suite, k.secret);
    EncodeEcdh(x, y, k.random)
  }

  datatype Side = OwnerService | Device

  /** `derive_key_ecdh`: the shared coordinate, then the device's random, then the owner's. */
  function SharedSecret(c: Curve, k: KeyExchange, side: Side, other: Bytes): Result<Bytes> {
    match DecodeEcdh(other)
    case Err(e) => Err(e)
    case Panic(cause) => Panic(cause)
    case Ok(o) =>
      if |o.2| != k.suite.RandomSize() then Err(InvalidRandomSize)
      else if !c.onCurve(k.suite, (o.0, o.1)) then Err(InvalidPoint)
      else
        match c.shared(k.suite, k.secret, (o.0, o.1))
        case None => Err(InvalidKeyDerived)
        case Some(x) => Ok(if side.Device? then x + k.random + o.2 else x + o.2 + k.random)
  }

  datatype Cipher = A128Gcm | A256Gcm {

    function KeyLength(): nat {
      if A128Gcm? then 16 else 32
    }
  }

  /** `derive_key`; a build without the interoperable KDF forces the other one. */
  function DeriveKey(c: Curve, k: KeyExchange, side: Side, cipher: Cipher, other: Bytes,
                     useNonInteroperable: bool, interoperableAvailable: bool): Result<Bytes> {
    match SharedSecret(c, k, side, other)
    case Err(e) => Err(e)
    case Panic(cause) => Panic(cause)
    case Ok(secret) => Ok(c.kdf(useNonInteroperable || !interoperableAvailable, cipher.KeyLength(), secret))
  }

  /** A side that lacks the interoperable KDF says so in a header of every message it sends. */
  function NonInteroperableHeader(interoperableAvailable: bool): bool {
    !interoperableAvailable
  }

  lemma {:induction false} SecretOf(c: Curve, k: KeyExchange, other: KeyExchange, side: Side)
    requires CurveLaws(c) && k.suite == other.suite && k.Valid() && other.Valid()
    ensures SharedSecret(c, k, side, GetPublic(c, other)) ==
            match c.shared(k.suite, k.secret, c.public(other.suite, other.secret))
            case None => Err(InvalidKeyDerived)
            case Some(x) => Ok(if side.Device? then x + k.random + other.random else x + other.random + k.random)
  {
    hide DecodeEcdh, EncodeEcdh;
    var (x, y) := c.public(other.suite, other.secret);
    DecodeInvertsEncode(x, y, other.random);
  }

  /** Key agreement: over honestly exchanged public parameters and headers, both ends derive the
      same keys, or both fail. */
  lemma {:induction false} KeysAgree(c: Curve, device: KeyExchange, owner: KeyExchange, cipher: Cipher,
                                    deviceAvailable: bool, ownerAvailable: bool)
    requires CurveLaws(c) && device.suite == owner.suite && device.Valid() && owner.Valid()
    ensures DeriveKey(c, device, Device, cipher, GetPublic(c, owner),
                      NonInteroperableHeader(ownerAvailable), deviceAvailable)
         == DeriveKey(c, owner, OwnerService, cipher, GetPublic(c, device),
                      NonInteroperableHeader(deviceAvailable), ownerAvailable)
  {
    hide SharedSecret, GetPublic;
    SecretOf(c, device, owner, Device);
    SecretOf(c, owner, device, OwnerService);
    var s := device.suite;
    assert c.shared(s, device.secret, c.public(s, owner.secret)) == c.shared(s, owner.secret, c.public(s, device.secret));
  }

  /** What both ends derive, in full: thirty-two bytes for A256GCM and sixteen for A128GCM, from the
      shared coordinate, the device's random and the owner's, by the interoperable derivation exactly
      if both ends have it. */
  lemma {:induction false} DerivedKeyIs(c: Curve, device: KeyExchange, owner: KeyExchange, cipher: Cipher,
                                       deviceAvailable: bool, ownerAvailable: bool, x: Bytes)
    requires CurveLaws(c) && device.suite == owner.suite && device.Valid() && owner.Valid()
    requires c.shared(device.suite, device.secret, c.public(owner.suite, owner.secret)) == Some(x)
    ensures
      var key := c.kdf(!(deviceAvailable && ownerAvailable), if cipher == A256Gcm then 32 else 16, x + device.random + owner.random);
      && DeriveKey(c, device, Device, cipher, GetPublic(c, owner), NonInteroperableHeader(ownerAvailable), deviceAvailable) == Ok(key)
      && DeriveKey(c, owner, OwnerService, cipher, GetPublic(c, device), NonInteroperableHeader(deviceAvailable), ownerAvailable) == Ok(key)
  {
    SecretOf(c, device, owner, Device);
    hide SharedSecret, GetPublic;
    KeysAgree(c, device, owner, cipher, deviceAvailable, ownerAvailable);
  }

  /** A peer's parameter is used exactly if it parses, brings as many random bytes as its curve asks
      for, and is a point on the curve that gives a result. */
  lemma {:induction false} PeerChecked(c: Curve, k: KeyExchange, side: Side, other: Bytes)
    ensures
      SharedSecret(c, k, side, other).Ok? <==>
        && DecodeEcdh(other).Ok? && |DecodeEcdh(other).value.2| == (if k.suite == Ecdh256 then 16 else 48)
        && c.onCurve(k.suite, (DecodeEcdh(other).value.0, DecodeEcdh(other).value.1))
        && c.shared(k.suite, k.secret, (DecodeEcdh(other).value.0, DecodeEcdh(other).value.1)).Some?
  {
    hide DecodeEcdh;
  }
}
