/** The owner onboarding server: the request wrapper of http-wrapper/src/server.rs around the TO2
handlers of owner-onboarding-server/src/handlers.rs. */
module OwnerServers {
  import opened Outcomes
  import opened ByteStrings
  import opened Crypto
  import opened KeyExchanges
  import opened ServiceInfos
  import opened To2Messages
  import V = Vouchers

  // ------------------------------------------------- sessions

  /** The session map: one optional entry per key the handlers use. */
  datatype Session = Session(
    last: Option<MessageType>,
    keys: Option<Keys>,
    guid: Option<Guid>,
    nonce6: Option<Nonce>,
    cipher: Option<Cipher>,
    kex: Option<KeyExchange>,
    nonce7: Option<Nonce>,
    proven: bool,
    loops: Option<nat>)

  const NEW_SESSION := Session(None, None, None, None, None, None, None, false, None)

  datatype Owner = Owner(platform: Platform, ownerKey: PrivateKey, owner2Key: PrivateKey, interoperable: bool)

  /** What a handler reads besides the message: the voucher store, the request headers, fresh random
      values, and the answer of the ServiceInfo API server (None if it fails). */
  datatype Context = Context(
    vouchers: map<Guid, V.Voucher>,
    nonInteroperableHeader: bool,
    nonce6: Nonce,
    kexSecret: nat,
    kexRandom: Bytes,
    newGuid: Guid,
    serviceInfo: Option<ServiceInfo>)

  datatype ServerError =
    | SequenceError
    | EncryptionError
    | DecryptError
    | ParseFailure
    | NotFound
    | InvalidSignatureInfo
    | SessionIncomplete
    | NoDeviceCertificate
    | MissingNonce7
    | BadEat
    | MissingPayload
    | NonceInvalid
    | KeyDerivation
    | TooManyLoops
    | ServiceInfoFailed

  type Handled = Outcome<(Reply, Session), ServerError>

  // ------------------------------------------------- handlers

  /** `header_raw`. */
  function HeaderRaw(l: Platform, v: V.Voucher): Outcome<Bytes, ServerError> {
    match l.p.decode(KBytes, v.contents[1])
    case Some(BytesLeaf(h)) => Ok(h)
    case _ => Panic(Unwrapped)
  }

  function HandleHello(o: Owner, c: Context, s: Session, m: Request): Handled
    requires m.HelloDeviceMsg?
  {
    var l := o.platform;
    if m.guid !in c.vouchers then Err(NotFound)
    else if m.sigType.OtherSignature? || m.sigInfo != [] then Err(InvalidSignatureInfo)
    else
      var v := c.vouchers[m.guid];
      match HeaderRaw(l, v)
      case Err(e) => Err(e)
      case Panic(cause) => Panic(cause)
      case Ok(header) =>
        var kex := KeyExchange(m.suite, c.kexSecret, c.kexRandom);
        var payload := OVHdrPayload(header, |v.entries| % 0x1_0000, v.hmac, m.nonce5, m.sigType, [], GetPublic(l.curve, kex));
        Ok((ProveOVHdrMsg(l.p.sign(o.ownerKey, l.encodeOVHdr(payload), c.nonce6)),
            s.(guid := Some(m.guid), nonce6 := Some(c.nonce6), cipher := Some(m.cipher), kex := Some(kex))))
  }

  function HandleNextEntry(o: Owner, c: Context, s: Session, m: Request): Handled
    requires m.GetOVNextEntryMsg?
  {
    if s.guid.None? then Err(SessionIncomplete)
    else if s.guid.value !in c.vouchers then Err(NotFound)
    else
      var v := c.vouchers[s.guid.value];
      if m.entryNum >= |v.entries| then Panic(OutOfRange)
      else
        match V.DecodeSigned(o.platform.p, v.entries[m.entryNum])
        case Err(_) => Panic(Unwrapped)
        case Panic(cause) => Panic(cause)
        case Ok(entry) =>
          match V.EncodeSigned(entry)
          case Err(_) => Err(ParseFailure)
          case Panic(cause) => Panic(cause)
          case Ok(b) => Ok((OVNextEntryMsg(m.entryNum, b), s))
  }

  /** The key under which the EAT of ProveDevice has to verify. */
  function DeviceKey(l: Platform, v: V.Voucher): Option<nat> {
    if v.chain.None? then None else l.leafKey(v.chain.value)
  }

  /** `get_eat`: the claims of a token that verifies. */
  function VerifiedEat(l: Platform, token: seq<Bytes>, key: nat): Option<Eat> {
    if !l.p.verify(key, token) then None else
    match l.p.payloadOf(token)
    case None => None
    case Some(b) => l.decodeEat(b)
  }

  function HandleProveDevice(o: Owner, c: Context, s: Session, m: Request): Handled
    requires m.ProveDeviceMsg?
  {
    var l := o.platform;
    if s.guid.None? || s.nonce6.None? || s.kex.None? || s.cipher.None? then Err(SessionIncomplete)
    else if s.guid.value !in c.vouchers then Err(NotFound)
    else
      match DeviceKey(l, c.vouchers[s.guid.value])
      case None => Err(NoDeviceCertificate)
      case Some(key) =>
        match l.unprotectedNonce(m.token)
        case None => Err(MissingNonce7)
        case Some(nonce7) =>
          match VerifiedEat(l, m.token, key)
          case None => Err(BadEat)
          case Some(eat) =>
            if eat.bKeyExchange.None? then Err(MissingPayload)
            else if eat.nonce != s.nonce6.value then Err(NonceInvalid)
            else
              match DeriveKey(l.curve, s.kex.value, OwnerService, s.cipher.value, eat.bKeyExchange.value,
                              c.nonInteroperableHeader, o.interoperable)
              case Err(_) => Err(KeyDerivation)
              case Panic(cause) => Panic(cause)
              case Ok(key) =>
                Ok((SetupDeviceMsg(l.p.sign(o.owner2Key, l.encodeSetup(SetupPayload(c.newGuid, nonce7)), [])),
                    s.(kex := None, cipher := None, nonce7 := Some(nonce7), keys := Some(Keys(s.cipher.value, key)),
                       proven := true)))
  }

  function HandleReady(s: Session): Handled {
    if !s.proven then Err(SessionIncomplete) else Ok((OwnerServiceInfoReadyMsg, s))
  }

  const MAX_SERVICE_INFO_LOOPS := 1000

  function HandleServiceInfo(c: Context, s: Session): Handled {
    if !s.proven || s.guid.None? then Err(SessionIncomplete)
    else
      var loops := if s.loops.Some? then s.loops.value else 0;
      if loops > MAX_SERVICE_INFO_LOOPS then Err(TooManyLoops)
      else
        var s' := s.(loops := Some(loops + 1));
        if loops != 0 then Ok((OwnerServiceInfoMsg(false, true, []), s'))
        else if c.serviceInfo.None? then Err(ServiceInfoFailed)
        else Ok((OwnerServiceInfoMsg(false, false, c.serviceInfo.value), s'))
  }

  function HandleDone(s: Session, m: Request): Handled
    requires m.DoneMsg?
  {
    if !s.proven || s.nonce6.None? then Err(SessionIncomplete)
    else if s.nonce6.value != m.nonce6 then Err(NonceInvalid)
    else if s.guid.None? || s.nonce7.None? then Err(SessionIncomplete)
    else Ok((Done2Msg(s.nonce7.value), s.(nonce7 := None)))
  }

  function Handle(o: Owner, c: Context, s: Session, m: Request): Handled {
    match m
    case HelloDeviceMsg(_, _, _, _, _, _) => HandleHello(o, c, s, m)
    case GetOVNextEntryMsg(_) => HandleNextEntry(o, c, s, m)
    case ProveDeviceMsg(_) => HandleProveDevice(o, c, s, m)
    case DeviceServiceInfoReadyMsg => HandleReady(s)
    case DeviceServiceInfoMsg(_) => HandleServiceInfo(c, s)
    case DoneMsg(_) => HandleDone(s, m)
  }

  // ------------------------------------------------- the wrapper around a handler

  /** How a request ends. The session is stored before the encryption requirement of the response is
      checked, so a third kind of ending exists on paper. */
  datatype Ending =
    | Accepted(reply: Wire<Reply>, session: Session)
    | Refused(why: Outcome<(), ServerError>)
    | StoredButRefused(session: Session)

  /** `parse_request`, the handler, `store_session` and `encrypt_and_generate_response`. */
  function Serve(o: Owner, c: Context, s: Session, path: MessageType, w: Wire<Request>): Ending {
    if !path.ValidAfter(s.last) then Refused(Err(SequenceError))
    else if !EncryptionMet(path, s.keys) then Refused(Err(EncryptionError))
    else
      match Open(s.keys, w)
      case None => Refused(Err(DecryptError))
      case Some(m) =>
        if m.Type() != path then Refused(Err(ParseFailure))
        else
          match Handle(o, c, s, m)
          case Err(e) => Refused(Err(e))
          case Panic(cause) => Refused(Panic(cause))
          case Ok(r) =>
            var stored := r.1.(last := Some(r.0.Type()));
            if !EncryptionMet(r.0.Type(), stored.keys) then StoredButRefused(stored)
            else Accepted(Wire(stored.keys, r.0), stored)
  }
}
