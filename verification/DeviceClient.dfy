/** The device's side of TO2: http-wrapper/src/client.rs and client-linuxapp/src/main.rs, as a
machine that sends one request at a time and absorbs whatever comes back. */
module DeviceClients {
  import opened Outcomes
  import opened ByteStrings
  import opened Crypto
  import opened KeyExchanges
  import opened ServiceInfos
  import opened To2Messages
  import V = Vouchers
  import I = DeviceInterpreter

  // ------------------------------------------------- one exchange

  /** The fields of a `ServiceClient` that change. */
  datatype Client = Client(last: Option<MessageType>, keys: Option<Keys>, token: Option<nat>, kdf: Option<bool>)

  const NEW_CLIENT := Client(None, None, None, None)

  datatype TypeHeader = Absent | Malformed | Known(m: MessageType) | ErrorType

  /** Anything the network may deliver in answer to a request. */
  datatype Response =
    | NoResponse
    | Response(success: bool, header: TypeHeader, nonInteroperable: bool, token: Option<nat>, body: Wire<Reply>)

  datatype To2Error =
    | InvalidSequenceRequest | InvalidSequenceResponse | RequestEncryption | ResponseEncryption
    | Transport | BadTypeHeader | ErrorReported | WrongMessage | Undecryptable | Unparsable
    | WrongNonce5 | WrongSignatureInfo | HmacUnavailable | WrongHmac | WrongManufacturer | BadHeader(error: V.VoucherError)
    | MissingNonce6 | WrongEntry | BadVoucher(voucherError: V.VoucherError) | NoEntries | BadOwnerSignature | BadTo1d
    | NoKdfFlag | KeyDerivation(kexError: KexError)
    | MoreServiceInfo | ServiceInfoFailed(interpError: I.InterpError) | TooManyLoops
    | MarkerFailed | DeactivationFailed | WrongNonce7

  type To2Result<+T> = Outcome<T, To2Error>

  /** A request as it is posted: the authorization token in its header, and the message. */
  datatype Posted = Posted(token: Option<nat>, message: Wire<Request>)

  /** The client after an exchange, what it posted, and what it hands to its caller. */
  datatype Exchanged = Exchanged(client: Client, sent: Option<Posted>, result: To2Result<Reply>)

  /** The checks `send_request` makes before it sends. */
  function Refusal(c: Client, m: MessageType, expected: MessageType, newKeys: Option<Keys>): Option<To2Error> {
    if !m.ValidAfter(c.last) then Some(InvalidSequenceRequest)
    else if !expected.ValidAfter(Some(m)) then Some(InvalidSequenceResponse)
    else if !EncryptionMet(m, c.keys) then Some(RequestEncryption)
    else if !EncryptionMet(expected, if c.keys.Some? then c.keys else newKeys) then Some(ResponseEncryption)
    else None
  }

  /** Reading a response, with the keys already switched. */
  function ReadResponse(c: Client, expected: MessageType, resp: Response): (Client, To2Result<Reply>)
    requires resp.Response?
  {
    var c1 := c.(kdf := if c.kdf.None? then Some(resp.nonInteroperable) else c.kdf);
    if resp.header.Malformed? || (resp.header.Absent? && resp.success) then (c1, Err(BadTypeHeader))
    else
      var c2 := c1.(token := if resp.token.Some? then resp.token else c1.token);
      if !resp.success then (c2, Err(if resp.header.Known? then WrongMessage else ErrorReported))
      else if resp.header != Known(expected) then (c2, Err(WrongMessage))
      else
        match Open(c2.keys, resp.body)
        case None => (c2, Err(Undecryptable))
        case Some(reply) => (c2, if reply.Type() == expected then Ok(reply) else Err(Unparsable))
  }

  /** `send_request`: the request goes out under the old keys, the response is read under the new. */
  function Exchange(c: Client, m: Request, expected: MessageType, newKeys: Option<Keys>, resp: Response): Exchanged {
    match Refusal(c, m.Type(), expected, newKeys)
    case Some(e) =>
      Exchanged(if e.InvalidSequenceRequest? || e.InvalidSequenceResponse? then c else c.(last := Some(expected)), None, Err(e))
    case None =>
      var c1 := c.(last := Some(expected), keys := if newKeys.Some? then newKeys else c.keys);
      if resp.NoResponse? then Exchanged(c1, Some(Posted(c.token, Wire(c.keys, m))), Err(Transport))
      else
        var (c2, result) := ReadResponse(c1, expected, resp);
        Exchanged(c2, Some(Posted(c.token, Wire(c.keys, m))), result)
  }

  // ------------------------------------------------- what the device knows

  /** The device credential, the signed address received in TO1, random values, and the machine. */
  datatype Env = Env(
    platform: Platform,
    guid: Guid,
    hmac: (HashType, Bytes) -> Option<Bytes>,
    manufacturerHash: Hash,
    sk: PrivateKey,
    interoperable: bool,
    to1d: seq<Bytes>,
    nonce5: Nonce,
    nonce7: Nonce,
    kexSecret: nat,
    kexRandom: Bytes,
    devmod: ServiceInfo,
    machine: I.Device,
    markerWorks: bool,
    deactivationWorks: bool)
  {
    function Kex(): KeyExchange {
      KeyExchange(Ecdh384, kexSecret, kexRandom)
    }
  }

  /** A ProveOVHdr that passed the first checks; its signature is still to be verified. */
  datatype Hello = Hello(signed: seq<Bytes>, payload: OVHdrPayload, nonce6: Nonce)

  // ------------------------------------------------- the checks

  /** The payload of a ProveOVHdr, whoever signed it. */
  function HelloPayload(l: Platform, signed: seq<Bytes>): Option<OVHdrPayload> {
    match l.p.payloadOf(signed)
    case None => None
    case Some(b) => l.decodeOVHdr(b)
  }

  function CheckHmac(env: Env, h: OVHdrPayload): To2Result<()> {
    match env.hmac(h.hmac.kind, h.header)
    case None => Err(HmacUnavailable)
    case Some(own) =>
      match V.Compare(h.hmac, Hash(h.hmac.kind, own))
      case Ok(_) => Ok(())
      case Err(_) => Err(WrongHmac)
      case Panic(c) => Panic(c)
  }

  function CheckManufacturer(env: Env, header: Bytes): To2Result<()> {
    match V.DeserializeHeader(env.platform.p, header)
    case Err(e) => Err(BadHeader(e))
    case Panic(c) => Panic(c)
    case Ok(h) =>
      match V.ManufacturerKeyHash(env.platform.p, h, env.manufacturerHash.kind)
      case Err(e) => Err(BadHeader(e))
      case Panic(c) => Panic(c)
      case Ok(hash) =>
        match V.Compare(env.manufacturerHash, hash)
        case Ok(_) => Ok(())
        case Err(_) => Err(WrongManufacturer)
        case Panic(c) => Panic(c)
  }

  /** `perform_hellodevice` after the exchange, and `get_nonce6`. */
  function CheckHello(env: Env, signed: seq<Bytes>): To2Result<Hello> {
    match HelloPayload(env.platform, signed)
    case None => Err(Unparsable)
    case Some(h) =>
      if h.nonce5 != env.nonce5 then Err(WrongNonce5)
      else if h.sigType != Secp384r1 || h.sigInfo != [] then Err(WrongSignatureInfo)
      else
        match CheckHmac(env, h)
        case Err(e) => Err(e)
        case Panic(c) => Panic(c)
        case Ok(_) =>
          match CheckManufacturer(env, h.header)
          case Err(e) => Err(e)
          case Panic(c) => Panic(c)
          case Ok(_) =>
            match env.platform.unprotectedNonce(signed)
            case None => Err(MissingNonce6)
            case Some(nonce6) => Ok(Hello(signed, h, nonce6))
  }

  /** A voucher entry as it arrives, in the bytes that are pushed: parsed and printed again. */
  function Reprint(l: Platform, entry: Bytes): To2Result<Bytes> {
    match V.DecodeSigned(l.p, entry)
    case Err(_) => Err(Unparsable)
    case Panic(c) => Panic(c)
    case Ok(m) =>
      match V.EncodeSigned(m)
      case Err(e) => Err(BadVoucher(V.Format(e)))
      case Panic(c) => Panic(c)
      case Ok(b) => Ok(b)
  }

  /** The rest of `get_and_verify_ov_header_signature`: the verified payload. */
  function VerifyOwner(env: Env, h: Hello, entries: seq<Bytes>): To2Result<OVHdrPayload> {
    var p := env.platform.p;
    match V.FromParts(p, Version1_1, h.payload.header, h.payload.hmac, entries)
    case Err(e) => Err(BadVoucher(e))
    case Panic(c) => Panic(c)
    case Ok(v) =>
      match V.LastYield(p, v)
      case None => Err(NoEntries)
      case Some(Err(e)) => Err(BadVoucher(e))
      case Some(Panic(c)) => Panic(c)
      case Some(Ok(last)) =>
        if !p.verify(last.key.pkey, h.signed) then Err(BadOwnerSignature)
        else
          match HelloPayload(env.platform, h.signed)
          case None => Err(BadOwnerSignature)
          case Some(payload) => if p.verify(last.key.pkey, env.to1d) then Ok(payload) else Err(BadTo1d)
  }

  const CIPHER := A256Gcm

  /** `perform_key_derivation`. */
  function DeriveKeys(env: Env, kdf: Option<bool>, payload: OVHdrPayload): To2Result<Keys> {
    if kdf.None? then Err(NoKdfFlag)
    else
      match DeriveKey(env.platform.curve, env.Kex(), Device, CIPHER, payload.aKeyExchange, kdf.value, env.interoperable)
      case Err(e) => Err(KeyDerivation(e))
      case Panic(c) => Panic(c)
      case Ok(k) => Ok(Keys(CIPHER, k))
  }

  // ------------------------------------------------- the machine

  /** Where `perform_to2` is: the request it is about to make. */
  datatype Phase =
    | Greeting
    | Collecting(hello: Hello, got: seq<Bytes>)
    | Proving(hello: Hello, newKeys: Keys)
    | Readying(hello: Hello)
    | Informing(hello: Hello, loops: nat, reboot: bool)
    | Finishing(hello: Hello, reboot: bool)
    | Ended(result: To2Result<bool>)

  /** The whole device: the client, the phase, the messages sent and opened, and what was done to
      the machine: effects of ServiceInfo, the marker file, the deactivation of the credential. */
  datatype DeviceState = DeviceState(
    client: Client,
    phase: Phase,
    sent: seq<Posted>,
    received: seq<Wire<Reply>>,
    effects: seq<I.Effect>,
    marked: bool,
    deactivated: bool)

  const INITIAL := DeviceState(NEW_CLIENT, Greeting, [], [], [], false, false)

  function Fail(st: DeviceState, r: To2Result<bool>): DeviceState {
    st.(phase := Ended(r))
  }

  function ProveToken(env: Env, h: Hello): seq<Bytes> {
    var l := env.platform;
    l.p.sign(env.sk, l.encodeEat(Eat(h.nonce6, env.guid, Some(GetPublic(l.curve, env.Kex())))), env.nonce7)
  }

  /** The next request. The index of a voucher entry is cut to eight bits. */
  function NextRequest(env: Env, phase: Phase): Request
    requires !phase.Ended?
  {
    match phase
    case Greeting => HelloDeviceMsg(env.guid, env.nonce5, Ecdh384, CIPHER, Secp384r1, [])
    case Collecting(_, got) => GetOVNextEntryMsg(|got| % 256)
    case Proving(h, _) => ProveDeviceMsg(ProveToken(env, h))
    case Readying(_) => DeviceServiceInfoReadyMsg
    case Informing(_, loops, _) => DeviceServiceInfoMsg(if loops == 0 then env.devmod else [])
    case Finishing(h, _) => DoneMsg(h.nonce6)
  }

  function Expected(phase: Phase): MessageType
    requires !phase.Ended?
  {
    match phase
    case Greeting => ProveOVHdr
    case Collecting(_, _) => OVNextEntry
    case Proving(_, _) => SetupDevice
    case Readying(_) => OwnerServiceInfoReady
    case Informing(_, _, _) => OwnerServiceInfo
    case Finishing(_, _) => Done2
  }

  function SwitchedKeys(phase: Phase): Option<Keys> {
    if phase.Proving? then Some(phase.newKeys) else None
  }

  /** After the last entry: verify everything, then derive the keys. */
  function AfterEntries(env: Env, st: DeviceState, h: Hello, entries: seq<Bytes>): DeviceState {
    match VerifyOwner(env, h, entries)
    case Err(e) => Fail(st, Err(e))
    case Panic(c) => Fail(st, Panic(c))
    case Ok(payload) =>
      match DeriveKeys(env, st.client.kdf, payload)
      case Err(e) => Fail(st, Err(e))
      case Panic(c) => Fail(st, Panic(c))
      case Ok(keys) => st.(phase := Proving(h, keys))
  }

  /** The loop of `get_ov_entries`: ask again, or go on. */
  function Collect(env: Env, st: DeviceState, h: Hello, got: seq<Bytes>): DeviceState {
    if |got| < h.payload.numEntries then st.(phase := Collecting(h, got)) else AfterEntries(env, st, h, got)
  }

  function AbsorbHello(env: Env, st: DeviceState, reply: Reply): DeviceState
    requires reply.ProveOVHdrMsg?
  {
    match CheckHello(env, reply.signed)
    case Err(e) => Fail(st, Err(e))
    case Panic(c) => Fail(st, Panic(c))
    case Ok(h) => Collect(env, st, h, [])
  }

  function AbsorbEntry(env: Env, st: DeviceState, h: Hello, got: seq<Bytes>, reply: Reply): DeviceState
    requires reply.OVNextEntryMsg?
  {
    match Reprint(env.platform, reply.entry)
    case Err(e) => Fail(st, Err(e))
    case Panic(c) => Fail(st, Panic(c))
    case Ok(b) =>
      if reply.num != |got| then Fail(st, Err(WrongEntry)) else Collect(env, st, h, got + [b])
  }

  const MAX_LOOPS := 1000

  /** The machine as it is after some effects. */
  function After(d: I.Device, done: seq<I.Effect>): I.Device {
    d.(run := (log, e) => d.run(done + log, e))
  }

  function AbsorbInfo(env: Env, st: DeviceState, h: Hello, loops: nat, reboot: bool, reply: Reply): DeviceState
    requires reply.OwnerServiceInfoMsg?
  {
    if reply.done then Complete(env, st, h, reboot)
    else if reply.more then Fail(st, Err(MoreServiceInfo))
    else
      var report := I.Process(After(env.machine, st.effects), reply.info);
      var st' := st.(effects := st.effects + report.log);
      match report.result
      case Err(e) => Fail(st', Err(ServiceInfoFailed(e)))
      case Panic(c) => Fail(st', Panic(c))
      case Ok(wantsReboot) =>
        if loops + 1 < MAX_LOOPS then st'.(phase := Informing(h, loops + 1, reboot || wantsReboot))
        else Fail(st', Err(TooManyLoops))
  }

  /** The marker file, then the deactivation, then Done. */
  function Complete(env: Env, st: DeviceState, h: Hello, reboot: bool): DeviceState {
    var st1 := st.(marked := true);
    if !env.markerWorks then Fail(st1, Err(MarkerFailed))
    else
      var st2 := st1.(deactivated := true);
      if !env.deactivationWorks then Fail(st2, Err(DeactivationFailed))
      else st2.(phase := Finishing(h, reboot))
  }

  function Absorb(env: Env, st: DeviceState, reply: Reply): DeviceState
    requires !st.phase.Ended? && reply.Type() == Expected(st.phase)
  {
    match st.phase
    case Greeting => AbsorbHello(env, st, reply)
    case Collecting(h, got) => AbsorbEntry(env, st, h, got, reply)
    case Proving(h, _) => st.(phase := Readying(h))
    case Readying(h) => st.(phase := Informing(h, 0, false))
    case Informing(h, loops, reboot) => AbsorbInfo(env, st, h, loops, reboot, reply)
    case Finishing(h, reboot) =>
      Fail(st, if reply.nonce7 == env.nonce7 then Ok(reboot) else Err(WrongNonce7))
  }

  /** The state after the exchange, before the reply is looked at. */
  function Exchanging(env: Env, st: DeviceState, resp: Response): (DeviceState, To2Result<Reply>)
    requires !st.phase.Ended?
  {
    var x := Exchange(st.client, NextRequest(env, st.phase), Expected(st.phase), SwitchedKeys(st.phase), resp);
    (st.(client := x.client,
         sent := if x.sent.Some? then st.sent + [x.sent.value] else st.sent,
         received := if x.result.Ok? && resp.Response? then st.received + [resp.body] else st.received),
     x.result)
  }

  lemma {:induction false} ExchangedReply(c: Client, m: Request, expected: MessageType, newKeys: Option<Keys>, resp: Response)
    ensures
      var x := Exchange(c, m, expected, newKeys, resp);
      x.result.Ok? ==>
        && resp.Response? && x.result.value.Type() == expected && Refusal(c, m.Type(), expected, newKeys).None?
        && resp.body == Wire(x.client.keys, x.result.value) && x.sent == Some(Posted(c.token, Wire(c.keys, m)))
        && x.client.last == Some(expected) && x.client.keys == (if newKeys.Some? then newKeys else c.keys)
        && x.client.kdf == (if c.kdf.Some? then c.kdf else Some(resp.nonInteroperable))
  {
  }

  /** One request, its response, and all that follows until the next request. */
  function Step(env: Env, st: DeviceState, resp: Response): DeviceState {
    if st.phase.Ended? then st
    else
      var (st', result) := Exchanging(env, st, resp);
      match result
      case Err(e) => Fail(st', Err(e))
      case Panic(c) => Fail(st', Panic(c))
      case Ok(reply) =>
        ExchangedReply(st.client, NextRequest(env, st.phase), Expected(st.phase), SwitchedKeys(st.phase), resp);
        Absorb(env, st', reply)
  }

  /** The device after `n` responses of a network that may answer anything. */
  function RunDevice(env: Env, network: nat -> Response, n: nat): DeviceState {
    if n == 0 then INITIAL else Step(env, RunDevice(env, network, n - 1), network(n - 1))
  }
}
