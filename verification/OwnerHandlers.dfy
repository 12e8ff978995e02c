/** The TO2 handlers as they run: each puts entries into the session, and takes entries out, on the
way to its reply. A handler that fails leaves a session behind that nobody stores. */
module OwnerHandlers {
  import opened Outcomes
  import opened ByteStrings
  import opened Crypto
  import opened KeyExchanges
  import opened ServiceInfos
  import opened To2Messages
  import opened OwnerServers
  import opened ParsedArrays
  import V = Vouchers
  import C = VoucherChain

  type Replied = Outcome<Reply, ServerError>

  /** The reply of a handled request. */
  function ReplyOf(h: Handled): Replied {
    match h
    case Ok(r) => Ok(r.0)
    case Err(e) => Err(e)
    case Panic(c) => Panic(c)
  }

  /** An entry as it was printed for the reply. */
  function EntryReply(num: nat, printed: Parsed<Bytes>): Replied {
    match printed
    case Ok(b) => Ok(OVNextEntryMsg(num, b))
    case Err(_) => Err(ParseFailure)
    case Panic(c) => Panic(c)
  }

  class LiveSession {
    var last: Option<MessageType>
    var keys: Option<Keys>
    var guid: Option<Guid>
    var nonce6: Option<Nonce>
    var cipher: Option<Cipher>
    var kex: Option<KeyExchange>
    var nonce7: Option<Nonce>
    var proven: bool
    var loops: Option<nat>

    function State(): Session
      reads this
    {
      Session(last, keys, guid, nonce6, cipher, kex, nonce7, proven, loops)
    }

    constructor (s: Session)
      ensures State() == s
    {
      last, keys, guid, nonce6, cipher := s.last, s.keys, s.guid, s.nonce6, s.cipher;
      kex, nonce7, proven, loops := s.kex, s.nonce7, s.proven, s.loops;
    }

    /** `hello_device`: the GUID enters the session before the signature information is checked. */
    method HelloDevice(o: Owner, c: Context, m: Request) returns (r: Replied)
      requires m.HelloDeviceMsg?
      modifies this
      ensures r == ReplyOf(HandleHello(o, c, old(State()), m))
      ensures r.Ok? ==> State() == HandleHello(o, c, old(State()), m).value.1
    {
      hide HeaderRaw, GetPublic;
      var l := o.platform;
      if m.guid !in c.vouchers {
        return Err(NotFound);
      }
      var voucher := c.vouchers[m.guid];
      guid := Some(m.guid);
      if m.sigType.OtherSignature? {
        return Err(InvalidSignatureInfo);
      }
      if m.sigInfo != [] {
        return Err(InvalidSignatureInfo);
      }
      var exchange := KeyExchange(m.suite, c.kexSecret, c.kexRandom);
      var header := HeaderRaw(l, voucher);
      if !header.Ok? {
        return header.PropagateFailure();
      }
      var payload := OVHdrPayload(header.value, |voucher.entries| % 0x1_0000, voucher.hmac, m.nonce5, m.sigType, [],
                                  GetPublic(l.curve, exchange));
      nonce6 := Some(c.nonce6);
      cipher := Some(m.cipher);
      kex := Some(exchange);
      r := Ok(ProveOVHdrMsg(l.p.sign(o.ownerKey, l.encodeOVHdr(payload), c.nonce6)));
    }

    /** `get_ov_next_entry` only reads: the requested entry, in bytes that say what the stored ones say. */
    method GetOvNextEntry(o: Owner, c: Context, m: Request) returns (r: Replied)
      requires m.GetOVNextEntryMsg?
      ensures r == ReplyOf(HandleNextEntry(o, c, State(), m))
      ensures r.Ok? ==> State() == HandleNextEntry(o, c, State(), m).value.1
      ensures r.Ok? <==>
        && guid.Some? && guid.value in c.vouchers && m.entryNum < |c.vouchers[guid.value].entries|
        && V.DecodeSigned(o.platform.p, c.vouchers[guid.value].entries[m.entryNum]).Ok?
      ensures r.Ok? ==>
        && r.value.OVNextEntryMsg? && r.value.num == m.entryNum
        && V.DecodeSigned(o.platform.p, r.value.entry) == V.DecodeSigned(o.platform.p, c.vouchers[guid.value].entries[m.entryNum])
    {
      hide V.DecodeSigned, V.EncodeSigned;
      if guid.None? {
        return Err(SessionIncomplete);
      }
      if guid.value !in c.vouchers {
        return Err(NotFound);
      }
      var voucher := c.vouchers[guid.value];
      if m.entryNum >= |voucher.entries| {
        return Panic(OutOfRange);
      }
      var entry := V.DecodeSigned(o.platform.p, voucher.entries[m.entryNum]);
      if !entry.Ok? {
        return Panic(if entry.Err? then Unwrapped else entry.cause);
      }
      C.SignedRoundTrip(o.platform.p, voucher.entries[m.entryNum]);
      r := EntryReply(m.entryNum, V.EncodeSigned(entry.value));
    }

    /** `prove_device`: the key exchange is used up, and the keys are set. */
    method ProveDevice(o: Owner, c: Context, m: Request) returns (r: Replied)
      requires m.ProveDeviceMsg?
      modifies this
      ensures r == ReplyOf(HandleProveDevice(o, c, old(State()), m))
      ensures r.Ok? ==> State() == HandleProveDevice(o, c, old(State()), m).value.1
      ensures r.Ok? ==>
        && nonce7.Some? && o.platform.unprotectedNonce(m.token) == nonce7
        && r.value == SetupDeviceMsg(o.platform.p.sign(o.owner2Key, o.platform.encodeSetup(SetupPayload(c.newGuid, nonce7.value)), []))
    {
      hide DeviceKey, VerifiedEat, DeriveKey;
      var l := o.platform;
      if guid.None? || nonce6.None? || kex.None? || cipher.None? {
        return Err(SessionIncomplete);
      }
      if guid.value !in c.vouchers {
        return Err(NotFound);
      }
      var deviceKey := DeviceKey(l, c.vouchers[guid.value]);
      if deviceKey.None? {
        return Err(NoDeviceCertificate);
      }
      var received := l.unprotectedNonce(m.token);
      if received.None? {
        return Err(MissingNonce7);
      }
      var eat := VerifiedEat(l, m.token, deviceKey.value);
      if eat.None? {
        return Err(BadEat);
      }
      if eat.value.bKeyExchange.None? {
        return Err(MissingPayload);
      }
      if eat.value.nonce != nonce6.value {
        return Err(NonceInvalid);
      }
      var key := DeriveKey(l.curve, kex.value, OwnerService, cipher.value, eat.value.bKeyExchange.value,
                           c.nonInteroperableHeader, o.interoperable);
      if !key.Ok? {
        return if key.Err? then Err(KeyDerivation) else Panic(key.cause);
      }
      keys := Some(Keys(cipher.value, key.value));
      kex, cipher := None, None;
      nonce7 := received;
      proven := true;
      r := Ok(SetupDeviceMsg(l.p.sign(o.owner2Key, l.encodeSetup(SetupPayload(c.newGuid, received.value)), [])));
    }

    /** `device_service_info_ready`. */
    method ServiceInfoReady() returns (r: Replied)
      ensures r == ReplyOf(HandleReady(State()))
      ensures r.Ok? ==> State() == HandleReady(State()).value.1
      ensures r == if proven then Ok(OwnerServiceInfoReadyMsg) else Err(SessionIncomplete)
    {
      r := if proven then Ok(OwnerServiceInfoReadyMsg) else Err(SessionIncomplete);
    }

    /** `device_service_info`: the counter goes up before the API server is asked. */
    method DeviceServiceInfo(c: Context) returns (r: Replied)
      modifies this
      ensures r == ReplyOf(HandleServiceInfo(c, old(State())))
      ensures r.Ok? ==> State() == HandleServiceInfo(c, old(State())).value.1
      ensures
        var round := if old(loops).Some? then old(loops).value else 0;
        && (r.Ok? <==> old(proven) && old(guid).Some? && round <= 1000 && (round == 0 ==> c.serviceInfo.Some?))
        && (r.Ok? ==>
              && r.value == (if round == 0 then OwnerServiceInfoMsg(false, false, c.serviceInfo.value) else OwnerServiceInfoMsg(false, true, []))
              && State() == old(State()).(loops := Some(round + 1)))
    {
      if !proven || guid.None? {
        return Err(SessionIncomplete);
      }
      var count := if loops.Some? then loops.value else 0;
      if count > MAX_SERVICE_INFO_LOOPS {
        return Err(TooManyLoops);
      }
      loops := Some(count + 1);
      if count != 0 {
        return Ok(OwnerServiceInfoMsg(false, true, []));
      }
      if c.serviceInfo.None? {
        return Err(ServiceInfoFailed);
      }
      r := Ok(OwnerServiceInfoMsg(false, false, c.serviceInfo.value));
    }

    /** `done`: the second nonce is given back, once. */
    method Done(m: Request) returns (r: Replied)
      requires m.DoneMsg?
      modifies this
      ensures r == ReplyOf(HandleDone(old(State()), m))
      ensures r.Ok? ==> State() == HandleDone(old(State()), m).value.1
      ensures r.Ok? <==> old(proven) && old(nonce6) == Some(m.nonce6) && old(guid).Some? && old(nonce7).Some?
      ensures r.Ok? ==> r.value == Done2Msg(old(nonce7).value) && State() == old(State()).(nonce7 := None)
    {
      if !proven || nonce6.None? {
        return Err(SessionIncomplete);
      }
      if nonce6.value != m.nonce6 {
        return Err(NonceInvalid);
      }
      if guid.None? || nonce7.None? {
        return Err(SessionIncomplete);
      }
      r := Ok(Done2Msg(nonce7.value));
      nonce7 := None;
    }

    method Dispatch(o: Owner, c: Context, m: Request) returns (r: Replied)
      modifies this
      ensures r == ReplyOf(Handle(o, c, old(State()), m))
      ensures r.Ok? ==> State() == Handle(o, c, old(State()), m).value.1
    {
      hide HandleHello, HandleNextEntry, HandleProveDevice, HandleReady, HandleServiceInfo, HandleDone;
      match m {
        case HelloDeviceMsg(_, _, _, _, _, _) => r := HelloDevice(o, c, m);
        case GetOVNextEntryMsg(_) => r := GetOvNextEntry(o, c, m);
        case ProveDeviceMsg(_) => r := ProveDevice(o, c, m);
        case DeviceServiceInfoReadyMsg => r := ServiceInfoReady();
        case DeviceServiceInfoMsg(_) => r := DeviceServiceInfo(c);
        case DoneMsg(_) => r := Done(m);
      }
    }
  }

  /** When `hello_device` succeeds, what it signs, and what it remembers. */
  lemma {:induction false} HelloIff(o: Owner, c: Context, s: Session, m: Request)
    requires m.HelloDeviceMsg?
    ensures
      var r := HandleHello(o, c, s, m);
      && (r.Ok? <==>
            && m.guid in c.vouchers && !m.sigType.OtherSignature? && m.sigInfo == []
            && var raw := o.platform.p.decode(KBytes, c.vouchers[m.guid].contents[1]); raw.Some? && raw.value.BytesLeaf?)
      && (r.Ok? ==>
            var l, v, exchange := o.platform, c.vouchers[m.guid], KeyExchange(m.suite, c.kexSecret, c.kexRandom);
            var payload := OVHdrPayload(l.p.decode(KBytes, v.contents[1]).value.bytes, |v.entries| % 0x1_0000, v.hmac, m.nonce5,
                                        m.sigType, [], GetPublic(l.curve, exchange));
            && r.value.0 == ProveOVHdrMsg(l.p.sign(o.ownerKey, l.encodeOVHdr(payload), c.nonce6))
            && r.value.1 == s.(guid := Some(m.guid), nonce6 := Some(c.nonce6), cipher := Some(m.cipher), kex := Some(exchange)))
  {
    hide GetPublic;
  }

  /** The claims of a token, whoever signed it. */
  function Claims(l: Platform, token: seq<Bytes>): Option<Eat> {
    if l.p.payloadOf(token).None? then None else l.decodeEat(l.p.payloadOf(token).value)
  }

  /** A token that answers this nonce, with a share for the keys and a nonce of its own, and verifies
      under the key of the leaf certificate. */
  predicate Proves(l: Platform, v: V.Voucher, token: seq<Bytes>, nonce6: Nonce) {
    && v.chain.Some? && l.leafKey(v.chain.value).Some? && l.p.verify(l.leafKey(v.chain.value).value, token)
    && l.unprotectedNonce(token).Some?
    && Claims(l, token).Some? && Claims(l, token).value.nonce == nonce6 && Claims(l, token).value.bKeyExchange.Some?
  }

  /** The key that the owner derives from the share in a token. */
  function Derived(o: Owner, c: Context, s: Session, token: seq<Bytes>): Outcome<Bytes, KexError>
    requires s.kex.Some? && s.cipher.Some? && Claims(o.platform, token).Some? && Claims(o.platform, token).value.bKeyExchange.Some?
  {
    DeriveKey(o.platform.curve, s.kex.value, OwnerService, s.cipher.value, Claims(o.platform, token).value.bKeyExchange.value,
              c.nonInteroperableHeader, o.interoperable)
  }

  /** When `prove_device` succeeds, what it signs with the key of the second owner, and what it remembers. */
  lemma {:induction false} ProofAcceptedIff(o: Owner, c: Context, s: Session, m: Request)
    requires m.ProveDeviceMsg?
    ensures
      var l, r := o.platform, HandleProveDevice(o, c, s, m);
      && (r.Ok? <==>
            && s.guid.Some? && s.nonce6.Some? && s.kex.Some? && s.cipher.Some? && s.guid.value in c.vouchers
            && Proves(l, c.vouchers[s.guid.value], m.token, s.nonce6.value) && Derived(o, c, s, m.token).Ok?)
      && (r.Ok? ==>
            var nonce7 := l.unprotectedNonce(m.token).value;
            && r.value.0 == SetupDeviceMsg(l.p.sign(o.owner2Key, l.encodeSetup(SetupPayload(c.newGuid, nonce7)), []))
            && r.value.1 == s.(kex := None, cipher := None, proven := true, nonce7 := Some(nonce7),
                               keys := Some(Keys(s.cipher.value, Derived(o, c, s, m.token).value))))
  {
    hide DeriveKey;
  }
}
