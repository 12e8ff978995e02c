/** Device initialisation: manufacturing-server/src/handlers/di.rs and `perform_di` of
manufacturing-client/src/main.rs. The header made here is what the whole of TO2 rests on. */
module DeviceInits {
  import opened Outcomes
  import opened ByteStrings
  import opened Hexadecimal
  import opened Crypto
  import opened ParsedArrays
  import opened CborRoundTrip
  import opened To2Messages
  import opened OwnerServers
  import opened DeviceClients
  import opened To2Runs
  import opened VoucherTransfers
  import opened To2Completion
  import V = Vouchers
  import C = VoucherChain

  // ------------------------------------------------- the manufacturing server

  /** The settings of the server; the key is present if vouchers are to be extended at once. */
  datatype Manufacturer = Manufacturer(
    rendezvous: Bytes,
    certificate: PublicKey,
    key: Option<PrivateKey>,
    ownerCertificate: Option<PublicKey>)

  datatype DiError = NoHeader | NoCertificate | Voucher(error: V.VoucherError) | NotHex

  type DiResult<+T> = Outcome<T, DiError>

  function FromVoucher<T>(r: V.Result<T>): DiResult<T> {
    match r
    case Ok(v) => Ok(v)
    case Err(e) => Err(Voucher(e))
    case Panic(c) => Panic(c)
  }

  /** The header for a device: `deviceInfo` is trimmed, `chainDer` the concatenated certificates. */
  function DeviceHeader(p: Primitives, m: Manufacturer, guid: Guid, deviceInfo: string, chainDer: Bytes): V.Header {
    V.NewHeader(p, Version1_1, guid, m.rendezvous, deviceInfo, m.certificate, Some(Hash(Sha384, p.digest(Sha384, chainDer))))
  }

  /** The voucher that SetHMAC stores for a header. */
  function NewDeviceVoucher(p: Primitives, m: Manufacturer, header: V.Header, hmac: Hash, chain: Bytes): DiResult<V.Voucher> {
    match V.NewVoucher(p, header, hmac, Some(chain))
    case Err(e) => Err(Voucher(e))
    case Panic(c) => Panic(c)
    case Ok(v) =>
      if m.key.None? then Ok(v)
      else if m.ownerCertificate.None? then Panic(Unwrapped)
      else FromVoucher(V.Extend(p, v, m.key.value, None, m.ownerCertificate.value))
  }

  /** The session of one device, and the voucher store. */
  class ManufacturingSession {
    const p: Primitives
    const m: Manufacturer
    var header: Option<string>     // hexadecimal
    var chain: Option<Bytes>
    var store: map<Guid, V.Voucher>

    constructor (p: Primitives, m: Manufacturer)
      ensures this.p == p && this.m == m && header == None && chain == None && store == map[]
    {
      this.p, this.m := p, m;
      header, chain, store := None, None, map[];
    }

    /** `app_start`: the bytes kept in the session are the bytes sent to the device. */
    method AppStart(guid: Guid, deviceInfo: string, deviceChain: Bytes, chainDer: Bytes) returns (r: DiResult<Bytes>)
      modifies this`header, this`chain
      ensures r == FromVoucher(V.SerializeHeader(DeviceHeader(p, m, guid, deviceInfo, chainDer)))
      ensures r.Ok? ==> header.Some? && HexDecode(header.value) == Some(r.value) && chain == Some(deviceChain)
      ensures !r.Ok? ==> header == old(header) && chain == old(chain)
    {
      hide V.SerializeHeader;
      var bytes := V.SerializeHeader(DeviceHeader(p, m, guid, deviceInfo, chainDer));
      if bytes.Ok? {
        HexRoundTrip(bytes.value);
        header, chain := Some(HexEncode(bytes.value)), Some(deviceChain);
      }
      r := FromVoucher(bytes);
    }

    /** `set_hmac`: the voucher is stored under the GUID of the header, or nothing is. */
    method SetHmac(hmac: Hash) returns (r: DiResult<()>)
      modifies this`store
      ensures
        var bytes := if header.Some? then HexDecode(header.value) else None;
        var parsed := if bytes.Some? then V.DeserializeHeader(p, bytes.value) else Err(V.Undecodable);
        r.Ok? <==> parsed.Ok? && chain.Some? && NewDeviceVoucher(p, m, parsed.value, hmac, chain.value).Ok?
      ensures r.Ok? ==>
        var parsed := V.DeserializeHeader(p, HexDecode(header.value).value).value;
        store == old(store)[parsed.guid := NewDeviceVoucher(p, m, parsed, hmac, chain.value).value]
      ensures !r.Ok? ==> store == old(store)
    {
      hide V.DeserializeHeader, NewDeviceVoucher;
      if header.None? {
        return Err(NoHeader);
      }
      var bytes := HexDecode(header.value);
      if bytes.None? {
        return Err(NotHex);
      }
      var parsed := V.DeserializeHeader(p, bytes.value);
      if !parsed.Ok? {
        return FromVoucher(parsed).PropagateFailure();
      }
      if chain.None? {
        return Err(NoCertificate);
      }
      var voucher := NewDeviceVoucher(p, m, parsed.value, hmac, chain.value);
      if !voucher.Ok? {
        return voucher.PropagateFailure();
      }
      store := store[parsed.value.guid := voucher.value];
      r := Ok(());
    }
  }

  // ------------------------------------------------- the device

  /** What the device stores, and the HMAC it returns. */
  datatype Credential = Credential(guid: Guid, manufacturerHash: Hash, hmac: Hash)

  /** `perform_di` with the bytes of SetCredentials: the device parses the header, prints it again,
      and takes the HMAC of that. */
  function PerformDi(p: Primitives, secret: (HashType, Bytes) -> Option<Bytes>, message: Bytes): DiResult<Credential> {
    match V.DeserializeHeader(p, message)
    case Err(e) => Err(Voucher(e))
    case Panic(c) => Panic(c)
    case Ok(header) =>
      match V.SerializeHeader(header)
      case Err(e) => Err(Voucher(e))
      case Panic(c) => Panic(c)
      case Ok(bytes) =>
        match (secret(HmacSha384, bytes), V.ManufacturerKeyHash(p, header, Sha384))
        case (Some(value), Ok(hash)) => Ok(Credential(header.guid, hash, Hash(HmacSha384, value)))
        case _ => Err(Voucher(V.UnsupportedAlgorithm))
  }

  // ------------------------------------------------- the same bytes everywhere

  lemma {:induction false} DeviceHeaderIsGood(p: Primitives, m: Manufacturer, guid: Guid, deviceInfo: string, chainDer: Bytes)
    requires CodecLaws(p) && V.AcceptableInfo(deviceInfo)
    ensures C.GoodHeader(p, DeviceHeader(p, m, guid, deviceInfo, chainDer))
  {
    C.NewHeaderIsGood(p, Version1_1, guid, m.rendezvous, deviceInfo, m.certificate, Some(Hash(Sha384, p.digest(Sha384, chainDer))));
    hide C.GoodHeader;
  }

  /** A header is accepted exactly if its device information is printable; its bytes then say what the
      manufacturer knows of the device, and carry the digest of the certificates. */
  lemma {:induction false} HeaderSentIff(p: Primitives, m: Manufacturer, guid: Guid, deviceInfo: string, chainDer: Bytes)
    requires CodecLaws(p)
    ensures V.SerializeHeader(DeviceHeader(p, m, guid, deviceInfo, chainDer)).Ok? <==> forall c | c in deviceInfo :: 32 <= c as int % 256 < 127
    ensures
      var sent := V.SerializeHeader(DeviceHeader(p, m, guid, deviceInfo, chainDer));
      sent.Ok? ==>
        var said := V.DeserializeHeader(p, sent.value);
        && said.Ok? && said.value.version == Version1_1 && said.value.guid == guid && said.value.rendezvous == m.rendezvous
        && said.value.deviceInfo == deviceInfo && said.value.manufacturerKey == m.certificate
        && said.value.chainHash == Some(Hash(Sha384, p.digest(Sha384, chainDer)))
        && p.decode(KKey, said.value.raw[4]) == Some(KeyLeaf(m.certificate))
  {
    hide V.DeserializeHeader, Serialize, IsItem, CodecLaws;
    if V.AcceptableInfo(deviceInfo) {
      DeviceHeaderIsGood(p, m, guid, deviceInfo, chainDer);
      C.HeaderRoundTrip(p, DeviceHeader(p, m, guid, deviceInfo, chainDer));
      KeyReadsBack(p, m.certificate);
    }
  }

  lemma {:induction false} KeyReadsBack(p: Primitives, key: PublicKey)
    requires CodecLaws(p)
    ensures p.decode(KKey, p.encode(KeyLeaf(key))) == Some(KeyLeaf(key))
  {
    assert KeyLeaf(key).KindOf() == KKey;
  }

  /** What is stored: the voucher of that header and HMAC. If the server has a key to sell with, it is
      stored exactly if this is the manufacturer's, and then sold to the owner in one verified entry. */
  lemma {:induction false} StoredVoucher(p: Primitives, m: Manufacturer, header: V.Header, hmac: Hash, chain: Bytes)
    requires Laws(p) && C.GoodHeader(p, header)
    ensures
      var r := NewDeviceVoucher(p, m, header, hmac, chain);
      && (r.Ok? <==> (m.key.Some? ==> m.ownerCertificate.Some? && header.manufacturerKey.pkey == p.publicOf(m.key.value)))
      && (r.Ok? ==>
            && r.value.version == Version1_1 && r.value.header == header && r.value.hmac == hmac && r.value.chain == Some(chain)
            && if m.key.None? then r.value.entries == []
               else
                 exists payload: EntryPayload ::
                   C.EntryWise(p, r.value, [payload]) && payload.extra == None && payload.key == m.ownerCertificate.value)
  {
    C.NewIsGood(p, header, hmac, Some(chain));
    hide C.GoodHeader, V.Extend, Laws, C.Good, Serialize, C.EntryWise, C.Verified;
    var v := V.NewVoucher(p, header, hmac, Some(chain)).value;
    if m.key.Some? && m.ownerCertificate.Some? {
      FirstSale(p, v, m.key.value, m.ownerCertificate.value);
    }
  }

  lemma {:induction false} FirstSale(p: Primitives, v: V.Voucher, sk: PrivateKey, next: PublicKey)
    requires Laws(p) && C.Good(p, v) && v.entries == []
    ensures
      var r := V.Extend(p, v, sk, None, next);
      && (r.Ok? <==> v.header.manufacturerKey.pkey == p.publicOf(sk))
      && (r.Ok? ==>
            && r.value.version == v.version && r.value.header == v.header && r.value.hmac == v.hmac && r.value.chain == v.chain
            && exists payload: EntryPayload :: C.EntryWise(p, r.value, [payload]) && payload.extra == None && payload.key == next)
  {
    var r := V.Extend(p, v, sk, None, next);
    NothingSold(p, v);
    C.ExtendSucceedsIff(p, v, [], sk, None, next);
    if r.Ok? {
      C.ExtendVerifies(p, v, [], sk, None, next);
      SaleKeeps(p, v, sk, next);
      var added := V.NextPayload(p, v, sk, None, next).value;
      hide *;
      assert [] + [added] == [added];
      C.VerifiedIffEntryWise(p, r.value, [added]);
    }
  }

  lemma {:induction false} NothingSold(p: Primitives, v: V.Voucher)
    requires v.entries == []
    ensures C.Verified(p, v, []) && C.SignerKey(v, [], 0) == v.header.manufacturerKey
  {
  }

  lemma {:induction false} SaleKeeps(p: Primitives, v: V.Voucher, sk: PrivateKey, next: PublicKey)
    requires V.Extend(p, v, sk, None, next).Ok?
    ensures
      var w := V.Extend(p, v, sk, None, next).value;
      w.version == v.version && w.header == v.header && w.hmac == v.hmac && w.chain == v.chain
  {
    hide V.NextPayload, V.EncodeSigned, Serialize;
  }

  /** The voucher still is what initialisation made of it, but for the entries added since. */
  ghost predicate Pristine(l: Platform, v: V.Voucher, header: V.Header, bytes: Bytes, hmac: Hash, chain: Bytes) {
    && C.Good(l.p, v) && v.header == header && v.hmac == hmac && v.chain == Some(chain) && v.version == Version1_1
    && v.contents[1] == l.p.encode(BytesLeaf(bytes)) && v.contents[2] == l.p.encode(HashLeaf(hmac))
    && HeaderRaw(l, v) == Ok(bytes) && (forall i | 0 <= i < 5 :: IsItem(v.contents[i]))
    && |v.entries| <= 0xffff && forall i | 0 <= i < |v.entries| :: Reprint(l, v.entries[i]) == Ok(v.entries[i])
  }

  lemma {:induction false} NewFields(l: Platform, header: V.Header, bytes: Bytes, hmac: Hash, chain: Bytes)
    requires Serialize(ParsedArray(None, header.raw)) == Ok(bytes) && CodecLaws(l.p)
    ensures
      var r := V.NewVoucher(l.p, header, hmac, Some(chain));
      && r.Ok? && r.value.header == header && r.value.hmac == hmac && r.value.chain == Some(chain)
      && r.value.version == Version1_1 && r.value.entries == []
      && r.value.contents[1] == l.p.encode(BytesLeaf(bytes)) && r.value.contents[2] == l.p.encode(HashLeaf(hmac))
      && forall i | 0 <= i < 5 :: IsItem(r.value.contents[i])
  {
    hide Serialize, IsItem;
    C.EmptyArrayParses();
    C.PrintedArrayIsItem(ParsedArray(None, []));
  }

  lemma {:induction false} RawHeaderOf(l: Platform, v: V.Voucher, bytes: Bytes)
    requires CodecLaws(l.p) && v.contents[1] == l.p.encode(BytesLeaf(bytes))
    ensures HeaderRaw(l, v) == Ok(bytes)
  {
    assert l.p.decode(BytesLeaf(bytes).KindOf(), l.p.encode(BytesLeaf(bytes))) == Some(BytesLeaf(bytes));
  }

  lemma {:induction false} NewIsPristine(l: Platform, header: V.Header, bytes: Bytes, hmac: Hash, chain: Bytes)
    requires CodecLaws(l.p) && C.GoodHeader(l.p, header) && V.SerializeHeader(header) == Ok(bytes)
    ensures V.NewVoucher(l.p, header, hmac, Some(chain)).Ok?
    ensures Pristine(l, V.NewVoucher(l.p, header, hmac, Some(chain)).value, header, bytes, hmac, chain)
  {
    hide C.Good, C.GoodHeader, Serialize, Reprint, V.NewVoucher, V.SerializeHeader, HeaderRaw, CodecLaws, IsItem;
    C.NewIsGood(l.p, header, hmac, Some(chain));
    C.HeaderRoundTrip(l.p, header);
    NewFields(l, header, bytes, hmac, chain);
    RawHeaderOf(l, V.NewVoucher(l.p, header, hmac, Some(chain)).value, bytes);
  }

  /** An extend only adds an entry, one that prints as it is. */
  lemma {:induction false} ExtendFields(l: Platform, v: V.Voucher, sk: PrivateKey, extra: Option<Bytes>, next: PublicKey)
      returns (entry: Bytes)
    requires Laws(l.p) && V.Extend(l.p, v, sk, extra, next).Ok? && C.EntriesAreItems(v)
    ensures
      var w := V.Extend(l.p, v, sk, extra, next).value;
      && w == v.(entries := v.entries + [entry], contents := w.contents)
      && |w.entries| <= 0xffff && IsItem(w.contents[4]) && w.contents[..4] == v.contents[..4]
    ensures Reprint(l, entry) == Ok(entry)
  {
    hide Laws, V.NextPayload, V.EncodeSigned, V.DecodeSigned, Serialize, Reprint, V.PayloadUnverified, IsItem;
    var payload := V.NextPayload(l.p, v, sk, extra, next).value;
    var m := l.p.sign(sk, l.p.encodeEntry(payload), []);
    C.SignedEntry(l.p, sk, payload);
    entry := V.EncodeSigned(m).value;
    SelfReprint(l, m, entry);
    SerializeSucceedsIff(ParsedArray(None, v.entries + [entry]));
    C.PrintedArrayIsItem(ParsedArray(None, v.entries + [entry]));
  }

  lemma {:induction false} ExtendStaysPristine(l: Platform, v: V.Voucher, header: V.Header, bytes: Bytes, hmac: Hash, chain: Bytes,
                                              sk: PrivateKey, extra: Option<Bytes>, next: PublicKey)
    requires Laws(l.p) && Pristine(l, v, header, bytes, hmac, chain) && V.Extend(l.p, v, sk, extra, next).Ok?
    ensures Pristine(l, V.Extend(l.p, v, sk, extra, next).value, header, bytes, hmac, chain)
  {
    hide C.Consistent, C.GoodHeader, Laws, Reprint, V.Extend, IsItem;
    C.ExtendIsGood(l.p, v, sk, extra, next);
    var entry := ExtendFields(l, v, sk, extra, next);
    var w := V.Extend(l.p, v, sk, extra, next).value;
    assert forall i | 0 <= i < 4 :: w.contents[i] == w.contents[..4][i] == v.contents[..4][i] == v.contents[i];
    assert forall i | 0 <= i < |v.entries| :: w.entries[i] == v.entries[i];
  }

  lemma {:induction false} SelfReprint(l: Platform, m: seq<Bytes>, entry: Bytes)
    requires V.EncodeSigned(m) == Ok(entry) && V.DecodeSigned(l.p, entry) == Ok(m)
    ensures Reprint(l, entry) == Ok(entry)
  {
    hide V.EncodeSigned, V.DecodeSigned;
  }

  lemma {:induction false} ExtendsStayPristine(l: Platform, v: V.Voucher, header: V.Header, bytes: Bytes, hmac: Hash, chain: Bytes,
                                              ts: seq<C.Transfer>)
    requires Laws(l.p) && Pristine(l, v, header, bytes, hmac, chain) && C.ExtendAll(l.p, v, ts).Ok?
    ensures Pristine(l, C.ExtendAll(l.p, v, ts).value, header, bytes, hmac, chain)
    decreases |ts|
  {
    hide Pristine, Laws, V.Extend;
    if ts != [] {
      var t := ts[0];
      ExtendStaysPristine(l, v, header, bytes, hmac, chain, t.sk, t.extra, t.next);
      ExtendsStayPristine(l, V.Extend(l.p, v, t.sk, t.extra, t.next).value, header, bytes, hmac, chain, ts[1..]);
    }
  }

  lemma {:induction false} PristineIsBuilt(l: Platform, v: V.Voucher, header: V.Header, bytes: Bytes, hmac: Hash, chain: Bytes)
    requires Pristine(l, v, header, bytes, hmac, chain)
    ensures AsBuilt(l, v)
  {
    hide C.Consistent, C.GoodHeader, Reprint, HeaderRaw;
  }

  /** The owner's store gives back the voucher it was given. */
  lemma {:induction false} PristineIsStored(l: Platform, v: V.Voucher, header: V.Header, bytes: Bytes, hmac: Hash, chain: Bytes)
    requires CodecLaws(l.p) && Pristine(l, v, header, bytes, hmac, chain)
    ensures V.SerializeVoucher(v).Ok? && V.DeserializeVoucher(l.p, V.SerializeVoucher(v).value) == Ok(v)
  {
    hide C.Good, CodecLaws, V.SerializeVoucher, V.DeserializeVoucher, HeaderRaw, IsItem, Reprint;
    C.VoucherRoundTrip(l.p, v);
  }

  /** Initialisation: the bytes sent are the bytes the device takes its HMAC of, and the server parses
      them back to the header it made. */
  lemma {:induction false} DeviceHashesWhatWasSent(p: Primitives, m: Manufacturer, guid: Guid, deviceInfo: string, chainDer: Bytes,
                                                  secret: (HashType, Bytes) -> Option<Bytes>)
    requires CodecLaws(p) && V.AcceptableInfo(deviceInfo)
    ensures
      var header := DeviceHeader(p, m, guid, deviceInfo, chainDer);
      var sent := V.SerializeHeader(header);
      && sent.Ok? && V.DeserializeHeader(p, sent.value) == Ok(header)
      && (secret(HmacSha384, sent.value).Some? ==>
            PerformDi(p, secret, sent.value) ==
              Ok(Credential(guid, Hash(Sha384, p.digest(Sha384, header.raw[4])), Hash(HmacSha384, secret(HmacSha384, sent.value).value))))
  {
    DeviceHeaderIsGood(p, m, guid, deviceInfo, chainDer);
    C.HeaderRoundTrip(p, DeviceHeader(p, m, guid, deviceInfo, chainDer));
    hide CodecLaws, C.GoodHeader, V.SerializeHeader, V.DeserializeHeader, Serialize;
  }

  /** An honest device accepts the HMAC and the manufacturer's key in ProveOVHdr, however often the
      voucher has been extended. */
  lemma {:induction false} HonestDeviceAccepts(env: Env, o: Owner, m: Manufacturer, deviceInfo: string, chainDer: Bytes,
                                              credential: Credential, v: V.Voucher, chain: Bytes)
    requires env.platform == o.platform && CodecLaws(env.platform.p) && V.AcceptableInfo(deviceInfo)
    requires
      var header := DeviceHeader(env.platform.p, m, env.guid, deviceInfo, chainDer);
      var bytes := V.SerializeHeader(header);
      && bytes.Ok? && PerformDi(env.platform.p, env.hmac, bytes.value) == Ok(credential)
      && Pristine(env.platform, v, header, bytes.value, credential.hmac, chain)
    requires env.manufacturerHash == credential.manufacturerHash
    ensures Recognised(env, o, v)
  {
    var p, header := env.platform.p, DeviceHeader(env.platform.p, m, env.guid, deviceInfo, chainDer);
    var bytes := V.SerializeHeader(header).value;
    DeviceHashesWhatWasSent(p, m, env.guid, deviceInfo, chainDer, env.hmac);
    hide CodecLaws, C.Good, V.SerializeHeader, V.DeserializeHeader, DeviceHeader, Reprint, HeaderRaw, IsItem;
    assert env.hmac(HmacSha384, bytes).Some?;
  }
}
