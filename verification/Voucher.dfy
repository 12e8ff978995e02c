/** Ownership vouchers: data-formats/src/ownershipvoucher.rs. */
module Vouchers {
  import opened Outcomes
  import opened ByteStrings
  import opened Crypto
  import opened ParsedArrays
  import opened CborRoundTrip

  datatype VoucherError =
    | Format(error: ParseError)
    | Undecodable
    | InvalidTag
    | InvalidDeviceInfo
    | UnsupportedAlgorithm
    | UnsupportedVersion
    | InvalidProtocolVersion
    | NonOwnerKey
    | BadSignature
    | IncorrectHash

  type Result<+T> = Outcome<T, VoucherError>

  function FromParse<T>(r: Parsed<T>): Result<T> {
    match r
    case Ok(v) => Ok(v)
    case Err(e) => Err(Format(e))
    case Panic(c) => Panic(c)
  }

  // ------------------------------------------------- hashes

  /** `Hash::from_data`: only the plain hash types can hash. */
  function HashData(p: Primitives, kind: HashType, data: Bytes): (r: Result<Hash>) {
    if kind.Sha256? || kind.Sha384? then Ok(Hash(kind, p.digest(kind, data))) else Err(UnsupportedAlgorithm)
  }

  /** `Hash::compare` looks at the values only, in constant time, and panics on different lengths. */
  function Compare(a: Hash, b: Hash): Result<()> {
    if |a.value| != |b.value| then Panic(LengthMismatch)
    else if a.value == b.value then Ok(())
    else Err(IncorrectHash)
  }

  // ------------------------------------------------- headers

  /** The raw elements of an array of static length six, or five. */
  type Six = s: seq<Bytes> | |s| == 6 witness [[], [], [], [], [], []]
  type Five = s: seq<Bytes> | |s| == 5 witness [[], [], [], [], []]

  datatype Header = Header(
    raw: Six,
    version: ProtocolVersion,
    guid: Bytes,
    rendezvous: Bytes,
    deviceInfo: string,
    manufacturerKey: PublicKey,
    chainHash: Option<Hash>)

  /** `check_device_info`: every character, cut to eight bits, is printable ASCII. */
  predicate AcceptableInfo(s: string) {
    forall c | c in s :: 32 <= c as int % 256 < 127
  }

  function NewHeader(p: Primitives, version: ProtocolVersion, guid: Bytes, rendezvous: Bytes, deviceInfo: string,
                     manufacturerKey: PublicKey, chainHash: Option<Hash>): Header {
    var raw := [p.encode(VersionLeaf(version)), p.encode(BytesLeaf(guid)), p.encode(BytesLeaf(rendezvous)),
                p.encode(TextLeaf(deviceInfo)), p.encode(KeyLeaf(manufacturerKey)),
                p.encode(MaybeHashLeaf(chainHash))];
    Header(raw, version, guid, rendezvous, deviceInfo, manufacturerKey, chainHash)
  }

  function SerializeHeader(h: Header): Result<Bytes> {
    if !AcceptableInfo(h.deviceInfo) then Err(InvalidDeviceInfo)
    else FromParse(Serialize(ParsedArray(None, h.raw)))
  }

  /** The header whose raw elements are `raw`: every element decodes. */
  function HeaderOf(p: Primitives, raw: Six): Result<Header> {
    match (p.decode(KVersion, raw[0]), p.decode(KBytes, raw[1]), p.decode(KBytes, raw[2]),
           p.decode(KText, raw[3]), p.decode(KKey, raw[4]), p.decode(KMaybeHash, raw[5]))
    case (Some(VersionLeaf(version)), Some(BytesLeaf(guid)), Some(BytesLeaf(rv)), Some(TextLeaf(info)),
          Some(KeyLeaf(key)), Some(MaybeHashLeaf(hash))) =>
      if AcceptableInfo(info) then Ok(Header(raw, version, guid, rv, info, key, hash)) else Err(InvalidDeviceInfo)
    case _ => Err(Undecodable)
  }

  function DeserializeHeader(p: Primitives, b: Bytes): Result<Header> {
    match Parse(Checked, Some(6), b)
    case Err(e) => Err(Format(e))
    case Panic(c) => Panic(c)
    case Ok(v) => HeaderOf(p, v.0.contents)
  }

  /** Hash of the GUID and the device information, read from the raw elements. */
  function HeaderInfoHash(p: Primitives, h: Header, kind: HashType): Result<Hash> {
    match (p.decode(KBytes, h.raw[1]), p.decode(KText, h.raw[3]))
    case (Some(BytesLeaf(guid)), Some(TextLeaf(info))) => HashData(p, kind, guid + p.utf8(info))
    case _ => Err(Undecodable)
  }

  function ManufacturerKeyHash(p: Primitives, h: Header, kind: HashType): Result<Hash> {
    HashData(p, kind, h.raw[4])
  }

  // ------------------------------------------------- signed messages

  const COSESIGN_TAG := 18

  function DecodeSigned(p: Primitives, b: Bytes): Result<seq<Bytes>> {
    match Parse(Checked, Some(4), b)
    case Err(e) => Err(Format(e))
    case Panic(c) => Panic(c)
    case Ok(v) =>
      if v.0.tag != Some(COSESIGN_TAG) then Err(InvalidTag)
      else if p.payloadOf(v.0.contents).None? then Err(Undecodable)
      else Ok(v.0.contents)
  }

  function EncodeSigned(m: seq<Bytes>): Parsed<Bytes> {
    Serialize(ParsedArray(Some(COSESIGN_TAG), m))
  }

  /** `get_payload_unverified` on an entry. */
  function PayloadUnverified(p: Primitives, m: seq<Bytes>): Result<EntryPayload> {
    match p.payloadOf(m)
    case None => Err(Undecodable)
    case Some(b) =>
      match p.decodeEntry(b)
      case None => Err(Undecodable)
      case Some(e) => Ok(e)
  }

  /** `get_payload` with a key. */
  function PayloadVerified(p: Primitives, m: seq<Bytes>, key: PublicKey): Result<EntryPayload> {
    if !p.verify(key.pkey, m) then Err(BadSignature) else PayloadUnverified(p, m)
  }

  // ------------------------------------------------- vouchers

  /** The state of an ownership voucher: the raw array and the fields cached beside it. */
  datatype Voucher = Voucher(
    contents: Five,
    version: ProtocolVersion,
    header: Header,
    hmac: Hash,
    chain: Option<Bytes>,
    entries: seq<Bytes>)

  /** `new`. */
  function NewVoucher(p: Primitives, header: Header, hmac: Hash, chain: Option<Bytes>): Result<Voucher> {
    match Serialize(ParsedArray(None, header.raw))
    case Err(e) => Err(Format(e))
    case Panic(c) => Panic(c)
    case Ok(raw) =>
      Ok(Voucher([p.encode(VersionLeaf(Version1_1)), p.encode(BytesLeaf(raw)), p.encode(HashLeaf(hmac)),
                  p.encode(MaybeChainLeaf(chain)), EMPTY_ARRAY],
                 Version1_1, header, hmac, chain, []))
  }

  /** The printed empty array. */
  const EMPTY_ARRAY: Bytes := [0x80]

  /** `from_parts`: what a device builds from the messages of TO2. */
  function FromParts(p: Primitives, version: ProtocolVersion, header: Bytes, hmac: Hash, entries: seq<Bytes>): Result<Voucher> {
    match Serialize(ParsedArray(None, entries))
    case Err(e) => Err(Format(e))
    case Panic(c) => Panic(c)
    case Ok(raw) =>
      match DeserializeHeader(p, header)
      case Err(e) => Err(e)
      case Panic(c) => Panic(c)
      case Ok(h) =>
        Ok(Voucher([p.encode(VersionLeaf(version)), p.encode(BytesLeaf(header)), p.encode(HashLeaf(hmac)),
                    p.encode(MaybeChainLeaf(None)), raw],
                   version, h, hmac, None, entries))
  }

  /** `hdr_hash`: the header bytes followed by the raw HMAC element. */
  function HeaderHash(p: Primitives, v: Voucher, kind: HashType): Result<Hash> {
    match p.decode(KBytes, v.contents[1])
    case Some(BytesLeaf(h)) => HashData(p, kind, h + v.contents[2])
    case _ => Err(Undecodable)
  }

  /** The hash a new entry carries of what precedes it. */
  function PreviousHash(p: Primitives, v: Voucher, i: nat, kind: HashType): Result<Hash>
    requires i <= |v.entries|
  {
    if i == 0 then HeaderHash(p, v, kind) else HashData(p, kind, v.entries[i - 1])
  }

  function CurrentOwner(p: Primitives, v: Voucher): Result<PublicKey> {
    if v.entries == [] then Ok(v.header.manufacturerKey) else
    match DecodeSigned(p, v.entries[|v.entries| - 1])
    case Err(e) => Err(e)
    case Panic(c) => Panic(c)
    case Ok(m) =>
      match PayloadUnverified(p, m)
      case Err(e) => Err(e)
      case Panic(c) => Panic(c)
      case Ok(payload) => Ok(payload.key)
  }

  /** The payload of the entry that `extend` appends, when it appends one. */
  function NextPayload(p: Primitives, v: Voucher, sk: PrivateKey, extra: Option<Bytes>, next: PublicKey): Result<EntryPayload> {
    if extra.Some? && v.version.Version1_0? then Err(InvalidProtocolVersion) else
    var kind := v.hmac.kind.InnerHash();
    match HeaderInfoHash(p, v.header, kind)
    case Err(e) => Err(e)
    case Panic(c) => Panic(c)
    case Ok(info) =>
      match PreviousHash(p, v, |v.entries|, kind)
      case Err(e) => Err(e)
      case Panic(c) => Panic(c)
      case Ok(previous) =>
        match CurrentOwner(p, v)
        case Err(e) => Err(e)
        case Panic(c) => Panic(c)
        case Ok(owner) =>
          if owner.pkey != p.publicOf(sk) then Err(NonOwnerKey)
          else Ok(EntryPayload(previous, info, extra, next))
  }

  /** `extend`. */
  function Extend(p: Primitives, v: Voucher, sk: PrivateKey, extra: Option<Bytes>, next: PublicKey): Result<Voucher> {
    match NextPayload(p, v, sk, extra, next)
    case Err(e) => Err(e)
    case Panic(c) => Panic(c)
    case Ok(payload) =>
      match EncodeSigned(p.sign(sk, p.encodeEntry(payload), []))
      case Err(e) => Err(Format(e))
      case Panic(c) => Panic(c)
      case Ok(entry) => AppendEntry(v, entry)
  }

  function AppendEntry(v: Voucher, entry: Bytes): Result<Voucher> {
    match Serialize(ParsedArray(None, v.entries + [entry]))
    case Err(e) => Err(Format(e))
    case Panic(c) => Panic(c)
    case Ok(raw) =>
      Ok(v.(entries := v.entries + [entry], contents := v.contents[4 := raw]))
  }

  function SerializeVoucher(v: Voucher): Result<Bytes> {
    FromParse(Serialize(ParsedArray(None, v.contents)))
  }

  /** `from_parsed_array`: every cached field is decoded from its raw element. */
  function FromParsedArray(p: Primitives, contents: Five): Result<Voucher> {
    match (p.decode(KVersion, contents[0]), p.decode(KBytes, contents[1]), p.decode(KHash, contents[2]),
           p.decode(KMaybeChain, contents[3]))
    case (Some(VersionLeaf(version)), Some(BytesLeaf(headerBytes)), Some(HashLeaf(hmac)), Some(MaybeChainLeaf(chain))) =>
      (match DeserializeHeader(p, headerBytes)
       case Err(e) => Err(e)
       case Panic(c) => Panic(c)
       case Ok(header) =>
         match Parse(Checked, None, contents[4])
         case Err(e) => Err(Format(e))
         case Panic(c) => Panic(c)
         case Ok(entries) => Ok(Voucher(contents, version, header, hmac, chain, entries.0.contents)))
    case _ => Err(Undecodable)
  }

  function DeserializeVoucher(p: Primitives, b: Bytes): Result<Voucher> {
    match Parse(Checked, Some(5), b)
    case Err(e) => if e == InvalidNumberOfElements(4, 5) then Err(UnsupportedVersion) else Err(Format(e))
    case Panic(c) => Panic(c)
    case Ok(v) => FromParsedArray(p, v.0.contents)
  }

  // ------------------------------------------------- verification of the entries

  /** `process_element`: the payload of entry `i`, if its signature, its hash of what precedes it
      and its hash of the header information are right. */
  function ProcessElement(p: Primitives, v: Voucher, i: nat, key: PublicKey, m: seq<Bytes>): Result<EntryPayload>
    requires i < |v.entries|
  {
    match PayloadVerified(p, m, key)
    case Err(e) => Err(e)
    case Panic(c) => Panic(c)
    case Ok(payload) =>
      match PreviousHash(p, v, i, payload.previous.kind)
      case Err(e) => Err(e)
      case Panic(c) => Panic(c)
      case Ok(previous) =>
        match Compare(payload.previous, previous)
        case Err(e) => Err(e)
        case Panic(c) => Panic(c)
        case Ok(_) =>
          match HeaderInfoHash(p, v.header, payload.headerInfo.kind)
          case Err(e) => Err(e)
          case Panic(c) => Panic(c)
          case Ok(info) =>
            match Compare(payload.headerInfo, info)
            case Err(e) => Err(e)
            case Panic(c) => Panic(c)
            case Ok(_) => Ok(payload)
  }

  function VerifyEntry(p: Primitives, v: Voucher, i: nat, key: PublicKey): Result<EntryPayload>
    requires i < |v.entries|
  {
    match DecodeSigned(p, v.entries[i])
    case Err(e) => Err(e)
    case Panic(c) => Panic(c)
    case Ok(m) => ProcessElement(p, v, i, key, m)
  }

  /** Everything the iterator yields from entry `i` on: it stops after the first failure. */
  function Yields(p: Primitives, v: Voucher, i: nat, key: PublicKey): seq<Result<EntryPayload>>
    decreases |v.entries| - i
  {
    if i >= |v.entries| then [] else
    var r := VerifyEntry(p, v, i, key);
    if r.Ok? then [r] + Yields(p, v, i + 1, r.value.key) else [r]
  }

  /** `iter_entries` followed by `last`. */
  function LastYield(p: Primitives, v: Voucher): Option<Result<EntryPayload>> {
    var all := Yields(p, v, 0, v.header.manufacturerKey);
    if all == [] then None else Some(all[|all| - 1])
  }
}
