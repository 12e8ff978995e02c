/** What `new`, `extend` and the verifying iterator guarantee together. */
module VoucherChain {
  import opened Outcomes
  import opened ByteStrings
  import opened Crypto
  import opened CborGrammar
  import opened ParsedArrays
  import opened CborRefinement
  import opened CborRoundTrip
  import opened Vouchers

  // ------------------------------------------------- the cached fields

  /** The cached fields are what the raw elements parse to. */
  predicate Consistent(p: Primitives, v: Voucher) {
    FromParsedArray(p, v.contents) == Ok(v)
  }

  /** A header whose cached fields are what its raw elements decode to, all of them printable. */
  ghost predicate GoodHeader(p: Primitives, h: Header) {
    HeaderOf(p, h.raw) == Ok(h) && forall i | 0 <= i < 6 :: IsItem(h.raw[i])
  }

  ghost predicate EntriesAreItems(v: Voucher) {
    forall i | 0 <= i < |v.entries| :: IsItem(v.entries[i])
  }

  ghost predicate Good(p: Primitives, v: Voucher) {
    Consistent(p, v) && GoodHeader(p, v.header) && EntriesAreItems(v)
  }

  lemma {:induction false} ArrayIsItem(tag: seq<Arg>, len: Arg, ts: seq<Item>)
    requires ArrayParts(None, tag, len, ts)
    ensures IsItem(SpellArray(tag, len, ts))
  {
    hide SpellAll, Start, Arg.Value;
    var arr := Arr(len, ts);
    assert WellFormed(arr);
    if tag == [] {
      assert [] + Start(4, len) + SpellAll(ts) == Start(4, len) + SpellAll(ts) == Spell(arr);
    } else {
      var t := Tag(tag[0], arr);
      assert WellFormed(t);
      assert Start(6, tag[0]) + Start(4, len) + SpellAll(ts) == Start(6, tag[0]) + (Start(4, len) + SpellAll(ts)) == Spell(t);
    }
  }

  /** A printed array is itself one item. */
  lemma {:induction false} PrintedArrayIsItem(a: ParsedArray)
    requires Encodable(a)
    ensures Serialize(a).Ok? && IsItem(Serialize(a).value)
  {
    hide Serialize, WellFormed, SpellAll, SpellEach, IsItem;
    var ts := TreesOfContents(a.contents);
    var tag, len := SerializeSpells(a, ts);
    ArrayIsItem(tag, len, ts);
  }

  lemma {:induction false} HeaderRoundTrip(p: Primitives, h: Header)
    requires GoodHeader(p, h)
    ensures Serialize(ParsedArray(None, h.raw)).Ok?
    ensures SerializeHeader(h) == Ok(Serialize(ParsedArray(None, h.raw)).value)
    ensures DeserializeHeader(p, Serialize(ParsedArray(None, h.raw)).value) == Ok(h)
  {
    hide Parse, Serialize, IsItem;
    var a := ParsedArray(None, h.raw);
    SerializeThenParse(Checked, Some(6), a, []);
    assert Serialize(a).value + [] == Serialize(a).value;
  }

  /** A fresh header from acceptable device information and a chain hash is a good one. */
  lemma {:induction false} NewHeaderIsGood(p: Primitives, version: ProtocolVersion, guid: Bytes, rendezvous: Bytes,
                                          deviceInfo: string, key: PublicKey, chainHash: Option<Hash>)
    requires CodecLaws(p) && AcceptableInfo(deviceInfo) && chainHash.Some?
    ensures GoodHeader(p, NewHeader(p, version, guid, rendezvous, deviceInfo, key, chainHash))
  {
    hide IsItem;
    assert p.decode(KVersion, p.encode(VersionLeaf(version))) == Some(VersionLeaf(version));
    assert p.decode(KBytes, p.encode(BytesLeaf(guid))) == Some(BytesLeaf(guid));
    assert p.decode(KBytes, p.encode(BytesLeaf(rendezvous))) == Some(BytesLeaf(rendezvous));
    assert p.decode(KText, p.encode(TextLeaf(deviceInfo))) == Some(TextLeaf(deviceInfo));
    assert p.decode(KKey, p.encode(KeyLeaf(key))) == Some(KeyLeaf(key));
    assert p.decode(KMaybeHash, p.encode(MaybeHashLeaf(chainHash))) == Some(MaybeHashLeaf(chainHash));
  }

  lemma {:induction false} EmptyArrayParses()
    ensures Serialize(ParsedArray(None, [])) == Ok(EMPTY_ARRAY)
    ensures Parse(Checked, None, EMPTY_ARRAY) == Ok((ParsedArray(None, []), []))
  {
    var a := ParsedArray(None, []);
    assert [] + EMPTY_ARRAY + [] == EMPTY_ARRAY;
    assert Serialize(a) == Ok(EMPTY_ARRAY);
    hide Parse, Serialize;
    assert Encodable(a);
    SerializeThenParse(Checked, None, a, []);
    assert EMPTY_ARRAY + [] == EMPTY_ARRAY;
  }

  lemma {:induction false} NewIsGood(p: Primitives, header: Header, hmac: Hash, chain: Option<Bytes>)
    requires CodecLaws(p) && GoodHeader(p, header)
    ensures NewVoucher(p, header, hmac, chain).Ok?
    ensures Good(p, NewVoucher(p, header, hmac, chain).value)
  {
    hide Parse, Serialize, DeserializeHeader, IsItem;
    HeaderRoundTrip(p, header);
    EmptyArrayParses();
    var raw := Serialize(ParsedArray(None, header.raw)).value;
    assert p.decode(KVersion, p.encode(VersionLeaf(Version1_1))) == Some(VersionLeaf(Version1_1));
    assert p.decode(KBytes, p.encode(BytesLeaf(raw))) == Some(BytesLeaf(raw));
    assert p.decode(KHash, p.encode(HashLeaf(hmac))) == Some(HashLeaf(hmac));
    assert p.decode(KMaybeChain, p.encode(MaybeChainLeaf(chain))) == Some(MaybeChainLeaf(chain));
  }

  /** Appending an item keeps the cached entries equal to the parse of the raw ones. */
  lemma {:induction false} AppendIsGood(p: Primitives, v: Voucher, entry: Bytes)
    requires Good(p, v) && IsItem(entry)
    ensures AppendEntry(v, entry).Ok? <==> |v.entries| < 0xffff
    ensures !AppendEntry(v, entry).Ok? ==> AppendEntry(v, entry) == Panic(ShortBuffer)
    ensures AppendEntry(v, entry).Ok? ==> Good(p, AppendEntry(v, entry).value)
  {
    hide Parse, Serialize, DeserializeHeader, IsItem, HeaderOf;
    var a := ParsedArray(None, v.entries + [entry]);
    SerializeSucceedsIff(a);
    if Serialize(a).Ok? {
      SerializeThenParse(Checked, None, a, []);
      assert Serialize(a).value + [] == Serialize(a).value;
    }
  }

  lemma {:induction false} SignedEntry(p: Primitives, sk: PrivateKey, payload: EntryPayload)
    requires Laws(p)
    ensures
      var m := p.sign(sk, p.encodeEntry(payload), []);
      EncodeSigned(m).Ok? && IsItem(EncodeSigned(m).value) &&
      DecodeSigned(p, EncodeSigned(m).value) == Ok(m) &&
      p.verify(p.publicOf(sk), m) && PayloadUnverified(p, m) == Ok(payload)
  {
    hide Parse, Serialize, IsItem;
    var m := p.sign(sk, p.encodeEntry(payload), []);
    var a := ParsedArray(Some(COSESIGN_TAG), m);
    SerializeThenParse(Checked, Some(4), a, []);
    assert Serialize(a).value + [] == Serialize(a).value;
    PrintedArrayIsItem(a);
  }

  /** Parsing and printing a signed message keeps what it says. */
  lemma {:induction false} SignedRoundTrip(p: Primitives, b: Bytes)
    requires DecodeSigned(p, b).Ok?
    ensures
      var printed := EncodeSigned(DecodeSigned(p, b).value);
      printed.Ok? && DecodeSigned(p, printed.value) == DecodeSigned(p, b)
  {
    hide Parse, Serialize, IsItem;
    ParsedContentsAreItems(Some(4), b);
    var a := ParsedArray(Some(COSESIGN_TAG), DecodeSigned(p, b).value);
    SerializeThenParse(Checked, Some(4), a, []);
    assert Serialize(a).value + [] == Serialize(a).value;
  }

  lemma {:induction false} ExtendIsGood(p: Primitives, v: Voucher, sk: PrivateKey, extra: Option<Bytes>, next: PublicKey)
    requires Laws(p) && Good(p, v)
    requires Extend(p, v, sk, extra, next).Ok?
    ensures Good(p, Extend(p, v, sk, extra, next).value)
  {
    hide NextPayload, EncodeSigned, AppendEntry, Good, Laws, DecodeSigned, PayloadUnverified, IsItem;
    var payload := NextPayload(p, v, sk, extra, next).value;
    SignedEntry(p, sk, payload);
    AppendIsGood(p, v, EncodeSigned(p.sign(sk, p.encodeEntry(payload), [])).value);
  }

  /** A good voucher with a certificate chain survives storage: its bytes read back as itself. */
  lemma {:induction false} VoucherRoundTrip(p: Primitives, v: Voucher)
    requires CodecLaws(p) && Good(p, v) && (forall i | 0 <= i < 5 :: IsItem(v.contents[i]))
    ensures SerializeVoucher(v).Ok? && DeserializeVoucher(p, SerializeVoucher(v).value) == Ok(v)
  {
    hide Parse, Serialize, FromParsedArray, IsItem;
    var a := ParsedArray(None, v.contents);
    SerializeThenParse(Checked, Some(5), a, []);
    assert Serialize(a).value + [] == Serialize(a).value;
  }

  // ------------------------------------------------- complete verification

  function AllOk(payloads: seq<EntryPayload>): seq<Result<EntryPayload>> {
    seq(|payloads|, i requires 0 <= i < |payloads| => Ok(payloads[i]))
  }

  /** The iterator yields one good payload per entry: exactly `payloads`. */
  predicate Verified(p: Primitives, v: Voucher, payloads: seq<EntryPayload>) {
    |payloads| == |v.entries| && Yields(p, v, 0, v.header.manufacturerKey) == AllOk(payloads)
  }

  /** The key that must have signed entry `i`. */
  function SignerKey(v: Voucher, payloads: seq<EntryPayload>, i: nat): PublicKey
    requires i <= |payloads|
  {
    if i == 0 then v.header.manufacturerKey else payloads[i - 1].key
  }

  // ------------------------------------------------- what a verified entry is

  /** The bytes hashed by the first entry: header and raw HMAC. */
  function HeaderAndHmac(p: Primitives, v: Voucher): Option<Bytes> {
    match p.decode(KBytes, v.contents[1])
    case Some(BytesLeaf(h)) => Some(h + v.contents[2])
    case _ => None
  }

  /** The bytes that the hash in entry `j` is taken of. */
  function Before(p: Primitives, v: Voucher, j: nat): Option<Bytes>
    requires j <= |v.entries|
  {
    if j == 0 then HeaderAndHmac(p, v) else Some(v.entries[j - 1])
  }

  /** The bytes that the header information is hashed from: the GUID and the device information. */
  function HeaderInfoBytes(p: Primitives, h: Header): Option<Bytes> {
    match (p.decode(KBytes, h.raw[1]), p.decode(KText, h.raw[3]))
    case (Some(BytesLeaf(guid)), Some(TextLeaf(info))) => Some(guid + p.utf8(info))
    case _ => None
  }

  /** `h` is the digest of `data`, of one of the two plain kinds. */
  predicate HashOf(p: Primitives, h: Hash, data: Option<Bytes>) {
    (h.kind.Sha256? || h.kind.Sha384?) && data.Some? && h.value == p.digest(h.kind, data.value)
  }

  /** The bytes begin with a spelling of the signed message `m`: an array of four items under tag 18. */
  ghost predicate SpellsSigned(b: Bytes, m: seq<Bytes>) {
    exists rest: Bytes :: Derives(Some(4), b, ParsedArray(Some(18), m), rest)
  }

  /** The bytes begin with a message signed with `key` that carries `payload`. */
  ghost predicate CarriesSigned(p: Primitives, b: Bytes, key: PublicKey, payload: EntryPayload) {
    exists m: seq<Bytes> ::
      SpellsSigned(b, m) && p.verify(key.pkey, m) && p.payloadOf(m).Some? && p.decodeEntry(p.payloadOf(m).value) == Some(payload)
  }

  /** Entry `i` is a message signed with `key` whose payload is `payload`, and the payload carries the
      hashes of what precedes the entry and of the header information. */
  ghost predicate EntryHolds(p: Primitives, v: Voucher, i: nat, key: PublicKey, payload: EntryPayload)
    requires i < |v.entries|
  {
    && CarriesSigned(p, v.entries[i], key, payload)
    && HashOf(p, payload.previous, Before(p, v, i)) && HashOf(p, payload.headerInfo, HeaderInfoBytes(p, v.header))
  }

  lemma {:induction false} DecodeSignedIff(p: Primitives, b: Bytes, m: seq<Bytes>)
    ensures DecodeSigned(p, b) == Ok(m) <==> SpellsSigned(b, m) && p.payloadOf(m).Some?
  {
    hide Parse, Derives;
    if DecodeSigned(p, b) == Ok(m) {
      ParserRefinesGrammar(Some(4), b, ParsedArray(Some(18), m), Parse(Checked, Some(4), b).value.1);
    }
    if rest: Bytes :| Derives(Some(4), b, ParsedArray(Some(18), m), rest) {
      ParserRefinesGrammar(Some(4), b, ParsedArray(Some(18), m), rest);
    }
  }

  /** The signature and the payload of an entry, read together. */
  lemma {:induction false} PayloadIff(p: Primitives, b: Bytes, key: PublicKey, payload: EntryPayload)
    ensures
      (DecodeSigned(p, b).Ok? && PayloadVerified(p, DecodeSigned(p, b).value, key) == Ok(payload)) <==>
      CarriesSigned(p, b, key, payload)
  {
    hide DecodeSigned, SpellsSigned;
    if DecodeSigned(p, b).Ok? {
      DecodeSignedIff(p, b, DecodeSigned(p, b).value);
    }
    if m: seq<Bytes> :|
         SpellsSigned(b, m) && p.verify(key.pkey, m) && p.payloadOf(m).Some? && p.decodeEntry(p.payloadOf(m).value) == Some(payload)
    {
      DecodeSignedIff(p, b, m);
    }
  }

  lemma {:induction false} HashIff(p: Primitives, h: Hash, hash: Result<Hash>, data: Option<Bytes>)
    requires hash == if data.Some? then HashData(p, h.kind, data.value) else Err(Undecodable)
    ensures hash.Ok? && Compare(h, hash.value).Ok? <==> HashOf(p, h, data)
  {
  }

  /** `process_element`, check by check. */
  lemma {:induction false} EntryChecks(p: Primitives, v: Voucher, i: nat, key: PublicKey, payload: EntryPayload)
    requires i < |v.entries|
    ensures
      VerifyEntry(p, v, i, key) == Ok(payload) <==>
        var m := DecodeSigned(p, v.entries[i]);
        var previous, info := PreviousHash(p, v, i, payload.previous.kind), HeaderInfoHash(p, v.header, payload.headerInfo.kind);
        && m.Ok? && PayloadVerified(p, m.value, key) == Ok(payload)
        && previous.Ok? && Compare(payload.previous, previous.value).Ok? && info.Ok? && Compare(payload.headerInfo, info.value).Ok?
  {
    hide DecodeSigned, PayloadVerified, PreviousHash, HeaderInfoHash, Compare;
  }

  /** `process_element` accepts exactly the entries that hold. */
  lemma {:induction false} VerifyEntryIff(p: Primitives, v: Voucher, i: nat, key: PublicKey, payload: EntryPayload)
    requires i < |v.entries|
    ensures VerifyEntry(p, v, i, key) == Ok(payload) <==> EntryHolds(p, v, i, key, payload)
  {
    EntryChecks(p, v, i, key, payload);
    PayloadIff(p, v.entries[i], key, payload);
    PreviousIs(p, v, i, payload.previous.kind);
    InfoIs(p, v.header, payload.headerInfo.kind);
    HashIff(p, payload.previous, PreviousHash(p, v, i, payload.previous.kind), Before(p, v, i));
    HashIff(p, payload.headerInfo, HeaderInfoHash(p, v.header, payload.headerInfo.kind), HeaderInfoBytes(p, v.header));
    hide VerifyEntry, CarriesSigned, DecodeSigned, PayloadVerified, PreviousHash, HeaderInfoHash, Compare, HashOf, HeaderInfoBytes, Before;
  }

  lemma {:induction false} PreviousIs(p: Primitives, v: Voucher, i: nat, kind: HashType)
    requires i <= |v.entries|
    ensures PreviousHash(p, v, i, kind) ==
            if Before(p, v, i).Some? then HashData(p, kind, Before(p, v, i).value) else Err(Undecodable)
  {
  }

  lemma {:induction false} InfoIs(p: Primitives, h: Header, kind: HashType)
    ensures HeaderInfoHash(p, h, kind) ==
            if HeaderInfoBytes(p, h).Some? then HashData(p, kind, HeaderInfoBytes(p, h).value) else Err(Undecodable)
  {
  }

  /** Every entry holds under the key that the entry before it names. */
  ghost predicate EntryWise(p: Primitives, v: Voucher, payloads: seq<EntryPayload>) {
    |payloads| == |v.entries| &&
    forall i | 0 <= i < |v.entries| :: EntryHolds(p, v, i, SignerKey(v, payloads, i), payloads[i])
  }

  /** Entry by entry, as `process_element` decides. */
  ghost predicate EachVerifies(p: Primitives, v: Voucher, payloads: seq<EntryPayload>) {
    |payloads| == |v.entries| &&
    forall i | 0 <= i < |v.entries| :: VerifyEntry(p, v, i, SignerKey(v, payloads, i)) == Ok(payloads[i])
  }

  lemma {:induction false} YieldsEach(p: Primitives, v: Voucher, payloads: seq<EntryPayload>, i: nat)
    requires |payloads| == |v.entries| && i <= |payloads|
    ensures Yields(p, v, i, SignerKey(v, payloads, i)) == AllOk(payloads[i..]) <==>
            forall j | i <= j < |v.entries| :: VerifyEntry(p, v, j, SignerKey(v, payloads, j)) == Ok(payloads[j])
    decreases |payloads| - i
  {
    hide VerifyEntry;
    if i < |payloads| {
      YieldsEach(p, v, payloads, i + 1);
      var r := VerifyEntry(p, v, i, SignerKey(v, payloads, i));
      var all := Yields(p, v, i, SignerKey(v, payloads, i));
      assert AllOk(payloads[i..]) == [Ok(payloads[i])] + AllOk(payloads[i + 1..]);
      assert all[0] == r;
      if r == Ok(payloads[i]) {
        assert all[1..] == Yields(p, v, i + 1, SignerKey(v, payloads, i + 1));
        assert (AllOk(payloads[i..]))[1..] == AllOk(payloads[i + 1..]);
      } else {
        assert all[0] != AllOk(payloads[i..])[0];
      }
    }
  }

  lemma {:induction false} VerifiedIffEach(p: Primitives, v: Voucher, payloads: seq<EntryPayload>)
    ensures Verified(p, v, payloads) <==> EachVerifies(p, v, payloads)
  {
    hide VerifyEntry, Yields;
    if |payloads| == |v.entries| {
      YieldsEach(p, v, payloads, 0);
      assert payloads[0..] == payloads;
    }
  }

  lemma {:induction false} EachIffEntryWise(p: Primitives, v: Voucher, payloads: seq<EntryPayload>)
    ensures EachVerifies(p, v, payloads) <==> EntryWise(p, v, payloads)
  {
    hide VerifyEntry, EntryHolds;
    if |payloads| == |v.entries| {
      forall i | 0 <= i < |v.entries|
        ensures VerifyEntry(p, v, i, SignerKey(v, payloads, i)) == Ok(payloads[i]) <==>
                EntryHolds(p, v, i, SignerKey(v, payloads, i), payloads[i])
      {
        VerifyEntryIff(p, v, i, SignerKey(v, payloads, i), payloads[i]);
      }
    }
  }

  /** What the iterator's outputs mean, and back: it yields these payloads exactly if every entry is
      signed with the key before it, carries these payloads, and hashes what it has to. */
  lemma {:induction false} VerifiedIffEntryWise(p: Primitives, v: Voucher, payloads: seq<EntryPayload>)
    ensures Verified(p, v, payloads) <==> EntryWise(p, v, payloads)
  {
    hide Verified, EachVerifies, EntryWise;
    VerifiedIffEach(p, v, payloads);
    EachIffEntryWise(p, v, payloads);
  }

  lemma {:induction false} VerifiedIsParsed(p: Primitives, v: Voucher, i: nat, key: PublicKey)
    requires i < |v.entries| && VerifyEntry(p, v, i, key).Ok?
    ensures DecodeSigned(p, v.entries[i]).Ok?
    ensures PayloadUnverified(p, DecodeSigned(p, v.entries[i]).value) == Ok(VerifyEntry(p, v, i, key).value)
  {
    hide DecodeSigned, PreviousHash, HeaderInfoHash, PayloadUnverified, Compare;
  }

  /** The public key that an entry names is read the same with and without verification. */
  lemma {:induction false} OwnerIsLastSigner(p: Primitives, v: Voucher, payloads: seq<EntryPayload>)
    requires EachVerifies(p, v, payloads)
    ensures CurrentOwner(p, v) == Ok(SignerKey(v, payloads, |payloads|))
  {
    hide DecodeSigned, VerifyEntry, PayloadUnverified;
    if |payloads| > 0 {
      var n := |payloads| - 1;
      assert VerifyEntry(p, v, n, SignerKey(v, payloads, n)) == Ok(payloads[n]);
      VerifiedIsParsed(p, v, n, SignerKey(v, payloads, n));
    }
  }

  /** Verification of an entry only looks at the entries up to it, the header and the raw HMAC. */
  lemma {:induction false} VerifyEntryFrame(p: Primitives, v: Voucher, w: Voucher, i: nat, key: PublicKey)
    requires i < |v.entries| <= |w.entries| && w.entries[..|v.entries|] == v.entries
    requires v.header == w.header && v.contents[1] == w.contents[1] && v.contents[2] == w.contents[2]
    ensures VerifyEntry(p, w, i, key) == VerifyEntry(p, v, i, key)
  {
    hide DecodeSigned, PayloadVerified, HeaderInfoHash, HashData, Compare;
    assert w.entries[i] == w.entries[..|v.entries|][i];
    if i > 0 {
      assert w.entries[i - 1] == w.entries[..|v.entries|][i - 1];
    }
  }

  /** What the payload of a new entry contains. */
  lemma {:induction false} NextPayloadFacts(p: Primitives, v: Voucher, sk: PrivateKey, extra: Option<Bytes>, next: PublicKey)
    requires NextPayload(p, v, sk, extra, next).Ok?
    ensures
      var payload, kind := NextPayload(p, v, sk, extra, next).value, v.hmac.kind.InnerHash();
      && CurrentOwner(p, v).Ok? && CurrentOwner(p, v).value.pkey == p.publicOf(sk)
      && PreviousHash(p, v, |v.entries|, kind) == Ok(payload.previous) && payload.previous.kind == kind
      && HeaderInfoHash(p, v.header, kind) == Ok(payload.headerInfo) && payload.headerInfo.kind == kind
  {
    hide CurrentOwner;
  }

  /** The entry that `extend` appends verifies under the owner's key. */
  lemma {:induction false} NewEntryVerifies(p: Primitives, v: Voucher, w: Voucher, key: PublicKey,
                                           sk: PrivateKey, extra: Option<Bytes>, next: PublicKey)
    requires Laws(p) && NextPayload(p, v, sk, extra, next).Ok? && CurrentOwner(p, v) == Ok(key)
    requires
      var entry := EncodeSigned(p.sign(sk, p.encodeEntry(NextPayload(p, v, sk, extra, next).value), []));
      entry.Ok? && w.entries == v.entries + [entry.value]
    requires v.header == w.header && v.contents[1] == w.contents[1] && v.contents[2] == w.contents[2]
    ensures VerifyEntry(p, w, |v.entries|, key) == NextPayload(p, v, sk, extra, next)
  {
    var payload := NextPayload(p, v, sk, extra, next).value;
    SignedEntry(p, sk, payload);
    NextPayloadFacts(p, v, sk, extra, next);
    hide DecodeSigned, EncodeSigned, PayloadUnverified, CurrentOwner, Laws, NextPayload, HeaderInfoHash, HeaderHash, HashData;
    var n, kind := |v.entries|, v.hmac.kind.InnerHash();
    assert w.entries[n] == EncodeSigned(p.sign(sk, p.encodeEntry(payload), [])).value;
    assert PreviousHash(p, w, n, kind) == PreviousHash(p, v, n, kind) == Ok(payload.previous);
  }

  /** One successful extend adds one verifying entry, for the next party, and disturbs none. */
  lemma {:induction false} ExtendVerifies(p: Primitives, v: Voucher, payloads: seq<EntryPayload>,
                                         sk: PrivateKey, extra: Option<Bytes>, next: PublicKey)
    requires Laws(p) && Verified(p, v, payloads) && Extend(p, v, sk, extra, next).Ok?
    ensures NextPayload(p, v, sk, extra, next).Ok?
    ensures
      var added := NextPayload(p, v, sk, extra, next).value;
      added.key == next && added.extra == extra &&
      Verified(p, Extend(p, v, sk, extra, next).value, payloads + [added])
  {
    hide VerifyEntry, Yields, EncodeSigned, CurrentOwner, HeaderInfoHash, PreviousHash, Serialize, Laws;
    var w := Extend(p, v, sk, extra, next).value;
    var added := NextPayload(p, v, sk, extra, next).value;
    var all := payloads + [added];
    VerifiedIffEach(p, v, payloads);
    OwnerIsLastSigner(p, v, payloads);
    var n := |v.entries|;
    assert w.entries[..n] == v.entries;
    NewEntryVerifies(p, v, w, SignerKey(v, payloads, n), sk, extra, next);
    forall i | 0 <= i < |w.entries| ensures VerifyEntry(p, w, i, SignerKey(w, all, i)) == Ok(all[i]) {
      assert SignerKey(w, all, i) == SignerKey(v, payloads, i);
      if i < n {
        VerifyEntryFrame(p, v, w, i, SignerKey(v, payloads, i));
      }
    }
    VerifiedIffEach(p, w, all);
  }

  // ------------------------------------------------- any number of extends

  datatype Transfer = Transfer(sk: PrivateKey, extra: Option<Bytes>, next: PublicKey)

  /** Successive extends; the first that fails ends the run. */
  function ExtendAll(p: Primitives, v: Voucher, ts: seq<Transfer>): Result<Voucher>
    decreases |ts|
  {
    if ts == [] then Ok(v) else
    match Extend(p, v, ts[0].sk, ts[0].extra, ts[0].next)
    case Ok(w) => ExtendAll(p, w, ts[1..])
    case Err(e) => Err(e)
    case Panic(c) => Panic(c)
  }

  lemma {:induction false} ExtendsVerify(p: Primitives, v: Voucher, before: seq<EntryPayload>, ts: seq<Transfer>)
      returns (payloads: seq<EntryPayload>)
    requires Laws(p) && Good(p, v) && Verified(p, v, before) && ExtendAll(p, v, ts).Ok?
    ensures Good(p, ExtendAll(p, v, ts).value)
    ensures |payloads| == |ts| && Verified(p, ExtendAll(p, v, ts).value, before + payloads)
    ensures forall i | 0 <= i < |ts| :: payloads[i].key == ts[i].next && payloads[i].extra == ts[i].extra
    decreases |ts|
  {
    hide Extend, Good, Verified, Laws;
    if ts == [] {
      payloads := [];
      assert before + [] == before;
    } else {
      var t := ts[0];
      var w := Extend(p, v, t.sk, t.extra, t.next).value;
      ExtendIsGood(p, v, t.sk, t.extra, t.next);
      ExtendVerifies(p, v, before, t.sk, t.extra, t.next);
      var added := NextPayload(p, v, t.sk, t.extra, t.next).value;
      var others := ExtendsVerify(p, w, before + [added], ts[1..]);
      payloads := [added] + others;
      assert (before + [added]) + others == before + payloads;
    }
  }

  lemma {:induction false} NoEntriesVerify(p: Primitives, v: Voucher)
    requires v.entries == []
    ensures Verified(p, v, [])
  {
  }

  /** The main result: a voucher made by `new` and any successful extends verifies completely,
      its i-th entry names the i-th next party, and its cached fields are the parse of its bytes. */
  lemma {:induction false} BuiltVouchersVerify(p: Primitives, header: Header, hmac: Hash, chain: Option<Bytes>, ts: seq<Transfer>)
      returns (payloads: seq<EntryPayload>)
    requires Laws(p) && GoodHeader(p, header)
    requires NewVoucher(p, header, hmac, chain).Ok?
    requires ExtendAll(p, NewVoucher(p, header, hmac, chain).value, ts).Ok?
    ensures
      var v := ExtendAll(p, NewVoucher(p, header, hmac, chain).value, ts).value;
      Good(p, v) && |payloads| == |ts| && Verified(p, v, payloads)
    ensures forall i | 0 <= i < |ts| :: payloads[i].key == ts[i].next && payloads[i].extra == ts[i].extra
  {
    hide ExtendAll, Good, Verified, GoodHeader, Serialize, IsItem;
    var v := NewVoucher(p, header, hmac, chain).value;
    NewIsGood(p, header, hmac, chain);
    NoEntriesVerify(p, v);
    payloads := ExtendsVerify(p, v, [], ts);
    assert [] + payloads == payloads;
  }

  // ------------------------------------------------- when extend succeeds

  /** `extend` succeeds exactly for the current owner, below 65535 entries, and without extra
      data on version 1.0; the 65536th entry makes it panic instead. */
  lemma {:induction false} ExtendSucceedsIff(p: Primitives, v: Voucher, payloads: seq<EntryPayload>,
                                            sk: PrivateKey, extra: Option<Bytes>, next: PublicKey)
    requires Laws(p) && Good(p, v) && Verified(p, v, payloads)
    ensures
      var allowed := !(extra.Some? && v.version.Version1_0?);
      var owner := SignerKey(v, payloads, |payloads|).pkey == p.publicOf(sk);
      && (Extend(p, v, sk, extra, next).Ok? <==> allowed && owner && |v.entries| < 0xffff)
      && (!allowed ==> Extend(p, v, sk, extra, next) == Err(InvalidProtocolVersion))
      && (allowed && !owner ==> Extend(p, v, sk, extra, next) == Err(NonOwnerKey))
      && (allowed && owner && |v.entries| >= 0xffff ==> Extend(p, v, sk, extra, next) == Panic(ShortBuffer))
  {
    hide EncodeSigned, Serialize, DeserializeHeader, Parse, IsItem, DecodeSigned, PayloadUnverified, CurrentOwner;
    VerifiedIffEach(p, v, payloads);
    OwnerIsLastSigner(p, v, payloads);
    HashesSucceed(p, v);
    if NextPayload(p, v, sk, extra, next).Ok? {
      var payload := NextPayload(p, v, sk, extra, next).value;
      SignedEntry(p, sk, payload);
      AppendIsGood(p, v, EncodeSigned(p.sign(sk, p.encodeEntry(payload), [])).value);
    }
  }

  lemma {:induction false} HashesSucceed(p: Primitives, v: Voucher)
    requires Good(p, v)
    ensures HeaderInfoHash(p, v.header, v.hmac.kind.InnerHash()).Ok?
    ensures PreviousHash(p, v, |v.entries|, v.hmac.kind.InnerHash()).Ok?
  {
    hide Parse, IsItem;
  }

  // ------------------------------------------------- binding

  /** What the hash in a verified entry says about the bytes before it. */
  lemma {:induction false} EntryPinsPrevious(p: Primitives, v: Voucher, i: nat, key: PublicKey)
    requires i < |v.entries| && VerifyEntry(p, v, i, key).Ok?
    ensures
      var previous := VerifyEntry(p, v, i, key).value.previous;
      && (i > 0 ==> previous.value == p.digest(previous.kind, v.entries[i - 1]))
      && (i == 0 ==> HeaderAndHmac(p, v).Some? &&
                     previous.value == p.digest(previous.kind, HeaderAndHmac(p, v).value))
  {
    hide DecodeSigned, PayloadVerified, HeaderInfoHash;
  }

  /** Equal entry bytes have equal payloads, whoever signed them. */
  lemma {:induction false} SameBytesSamePayload(p: Primitives, v: Voucher, w: Voucher, i: nat, key: PublicKey, key': PublicKey)
    requires i < |v.entries| && i < |w.entries| && v.entries[i] == w.entries[i]
    requires VerifyEntry(p, v, i, key).Ok? && VerifyEntry(p, w, i, key').Ok?
    ensures VerifyEntry(p, v, i, key).value == VerifyEntry(p, w, i, key').value
  {
    hide DecodeSigned, PreviousHash, HeaderInfoHash, PayloadUnverified;
  }

  /** The entries `j` of two vouchers carry the same hash of different bytes. */
  ghost predicate CollidesAt(p: Primitives, v: Voucher, w: Voucher, ps: seq<EntryPayload>, j: nat)
    requires j < |ps| && j <= |v.entries| && j <= |w.entries|
  {
    && Before(p, v, j).Some? && Before(p, w, j).Some?
    && Collision(p, ps[j].previous.kind, Before(p, v, j).value, Before(p, w, j).value)
  }

  predicate Agree(p: Primitives, v: Voucher, w: Voucher) {
    v.entries == w.entries && HeaderAndHmac(p, v) == HeaderAndHmac(p, w)
  }

  /** Chain binding: two vouchers that verify completely, have equally many entries and end in the
      same entry bytes agree on every entry and on header and HMAC exactly if none of these entries
      carries the same hash of two different predecessors. Where they disagree, the collision is
      theirs: it lies in the hashes of the vouchers themselves. */
  lemma {:induction false} ChainBinding(p: Primitives, v: Voucher, w: Voucher, ps: seq<EntryPayload>, qs: seq<EntryPayload>, i: nat)
    requires Verified(p, v, ps) && Verified(p, w, qs)
    requires i < |v.entries| == |w.entries| && v.entries[i..] == w.entries[i..]
    ensures Agree(p, v, w) <==> !exists j :: 0 <= j <= i && CollidesAt(p, v, w, ps, j)
    decreases i
  {
    hide VerifyEntry, Yields, HeaderAndHmac;
    VerifiedIffEach(p, v, ps);
    VerifiedIffEach(p, w, qs);
    var key, key' := SignerKey(v, ps, i), SignerKey(w, qs, i);
    assert v.entries[i] == v.entries[i..][0] == w.entries[i];
    SameBytesSamePayload(p, v, w, i, key, key');
    EntryPinsPrevious(p, v, i, key);
    EntryPinsPrevious(p, w, i, key');
    if Before(p, v, i) != Before(p, w, i) {
      assert CollidesAt(p, v, w, ps, i);
    } else if i == 0 {
      assert v.entries[0..] == v.entries && w.entries[0..] == w.entries;
    } else {
      assert v.entries[i - 1..] == [v.entries[i - 1]] + v.entries[i..];
      assert w.entries[i - 1..] == [w.entries[i - 1]] + w.entries[i..];
      ChainBinding(p, v, w, ps, qs, i - 1);
    }
  }

  /** The case that matters in practice: the same last entry. */
  lemma {:induction false} LastEntryBindsVoucher(p: Primitives, v: Voucher, w: Voucher, ps: seq<EntryPayload>, qs: seq<EntryPayload>)
    requires Verified(p, v, ps) && Verified(p, w, qs)
    requires |v.entries| == |w.entries| > 0
    requires v.entries[|v.entries| - 1] == w.entries[|w.entries| - 1]
    ensures Agree(p, v, w) <==> !exists j :: 0 <= j < |v.entries| && CollidesAt(p, v, w, ps, j)
  {
    hide Verified, CollidesAt, Agree;
    var n := |v.entries|;
    assert v.entries[n - 1..] == [v.entries[n - 1]] == w.entries[n - 1..];
    LengthOf(p, v, ps);
    ChainBinding(p, v, w, ps, qs, n - 1);
  }

  lemma {:induction false} LengthOf(p: Primitives, v: Voucher, ps: seq<EntryPayload>)
    requires Verified(p, v, ps)
    ensures |ps| == |v.entries|
  {
    hide Yields;
  }

  /** A voucher is of an unsupported version exactly if it announces four elements instead of five. */
  lemma {:induction false} UnsupportedVersionIff(p: Primitives, b: Bytes)
    ensures DeserializeVoucher(p, b) == Err(UnsupportedVersion) <==> Announces(b, 4)
  {
    hide Parse, Announces, FromParsedArray;
    OtherSizeIff(Checked, Some(5), b, 4, 5);
    var r := Parse(Checked, Some(5), b);
    if r.Ok? {
      OtherErrors(p, r.value.0.contents);
    }
  }

  lemma {:induction false} OtherErrors(p: Primitives, contents: Five)
    ensures FromParsedArray(p, contents) != Err(UnsupportedVersion)
  {
    hide Parse;
  }
}
