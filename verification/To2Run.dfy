/** The device and the owner server together: each request of the device is served in its session,
and the reply is what the device absorbs next. */
module To2Runs {
  import opened Outcomes
  import opened ByteStrings
  import opened Crypto
  import opened KeyExchanges
  import opened ServiceInfos
  import opened To2Messages
  import opened OwnerServers
  import opened DeviceClients
  import V = Vouchers
  import I = DeviceInterpreter
  import R = ClientRuns
  import S = ServerRuns

  // ------------------------------------------------- joint runs

  /** The device, and its session at the server. */
  datatype Joint = Joint(device: DeviceState, session: Session)

  const START := Joint(INITIAL, NEW_SESSION)

  /** What a message-less error response carries; nobody looks at it. */
  const NO_BODY: Wire<Reply> := Wire(None, OwnerServiceInfoReadyMsg)

  /** An ending at the server as the device's client sees it. Both builds announce a missing KDF in
      a header. */
  function ToResponse(o: Owner, e: Ending): Response {
    if e.Accepted? then Response(true, Known(e.reply.body.Type()), NonInteroperableHeader(o.interoperable), None, e.reply)
    else Response(false, ErrorType, NonInteroperableHeader(o.interoperable), None, NO_BODY)
  }

  function SessionAfter(s: Session, e: Ending): Session {
    if e.Refused? then s else e.session
  }

  /** How the server ends the request that the device makes now. */
  function Served(env: Env, o: Owner, c: Context, j: Joint): Ending
    requires !j.device.phase.Ended?
  {
    var m := NextRequest(env, j.device.phase);
    Serve(o, c.(nonInteroperableHeader := NonInteroperableHeader(env.interoperable)), j.session, m.Type(),
          Wire(j.device.client.keys, m))
  }

  function JointStep(env: Env, o: Owner, c: Context, j: Joint): Joint {
    if j.device.phase.Ended? then j
    else
      var e := Served(env, o, c, j);
      Joint(Step(env, j.device, ToResponse(o, e)), SessionAfter(j.session, e))
  }

  function JointRun(env: Env, o: Owner, contexts: nat -> Context, n: nat): Joint {
    if n == 0 then START else JointStep(env, o, contexts(n - 1), JointRun(env, o, contexts, n - 1))
  }

  // ------------------------------------------------- in step

  /** Random values have their length. */
  predicate GoodContext(c: Context) {
    |c.kexRandom| == Ecdh384.RandomSize() && c.nonce6 != []
  }

  ghost predicate GoodEnv(env: Env, o: Owner) {
    env.platform == o.platform && env.Kex().Valid() && env.nonce7 != []
  }

  /** What both sides hold of the header that opened the session. */
  predicate Negotiated(env: Env, s: Session, h: Hello) {
    && s.kex.Some? && s.kex.value.suite == Ecdh384 && s.kex.value.Valid() && s.cipher == Some(CIPHER)
    && h.payload.aKeyExchange == GetPublic(env.platform.curve, s.kex.value)
    && s.nonce6 == Some(h.nonce6)
  }

  predicate Nonces(env: Env, s: Session, h: Hello) {
    s.nonce6 == Some(h.nonce6) && s.nonce7 == Some(env.nonce7)
  }

  /** What both sides agree on while the device has not ended. */
  ghost predicate Together(env: Env, o: Owner, j: Joint) {
    !j.device.phase.Ended? ==>
      && j.device.client.last == j.session.last && j.device.client.keys == j.session.keys
      && (j.device.phase.Greeting? ==> j.session == NEW_SESSION)
      && (!j.device.phase.Greeting? ==>
            j.session.guid == Some(env.guid) && j.device.client.kdf == Some(NonInteroperableHeader(o.interoperable)))
      && PhaseInStep(env, j.session, j.device.phase)
  }

  ghost predicate InStep(env: Env, o: Owner, j: Joint) {
    R.Inv(env, j.device) && S.SessionFields(j.session) && Together(env, o, j)
  }

  predicate PhaseInStep(env: Env, s: Session, phase: Phase) {
    match phase
    case Greeting => true
    case Collecting(h, _) => Negotiated(env, s, h)
    case Proving(h, _) => Negotiated(env, s, h)
    case Readying(h) => Nonces(env, s, h)
    case Informing(h, _, _) => Nonces(env, s, h)
    case Finishing(h, _) => Nonces(env, s, h)
    case Ended(_) => true
  }

  /** The reply the server gives, and that the device can read it. */
  predicate Understood(env: Env, o: Owner, j: Joint, e: Ending)
    requires !j.device.phase.Ended? && e.Accepted?
  {
    && e.reply.body.Type() == Expected(j.device.phase)
    && e.reply.keys == (if j.device.phase.Proving? then Some(j.device.phase.newKeys) else j.device.client.keys)
  }

  /** The device after a reply that it understands. */
  lemma {:induction false} UnderstoodIsAbsorbed(env: Env, o: Owner, c: Context, j: Joint)
    requires !j.device.phase.Ended? && R.ClientFits(j.device.client, j.device.phase)
    requires Served(env, o, c, j).Accepted? && Understood(env, o, j, Served(env, o, c, j))
    ensures
      var e := Served(env, o, c, j);
      var (st', r) := Exchanging(env, j.device, ToResponse(o, e));
      && r == Ok(e.reply.body) && R.Answered(env, j.device, st', e.reply.body)
      && Step(env, j.device, ToResponse(o, e)) == Absorb(env, st', e.reply.body)
      && JointStep(env, o, c, j) == Joint(Absorb(env, st', e.reply.body), e.session)
      && (j.device.client.kdf.None? ==> st'.client.kdf == Some(NonInteroperableHeader(o.interoperable)))
  {
    hide Serve, Absorb;
    R.NeverRefused(env, j.device);
    Reads(env, j.device, ToResponse(o, Served(env, o, c, j)));
    R.GoodExchange(env, j.device, ToResponse(o, Served(env, o, c, j)));
    hide Exchanging, Step, NextRequest, Served;
  }

  lemma {:induction false} Reads(env: Env, st: DeviceState, resp: Response)
    requires !st.phase.Ended?
    requires Refusal(st.client, NextRequest(env, st.phase).Type(), Expected(st.phase), SwitchedKeys(st.phase)).None?
    requires resp.Response? && resp.success && resp.header == Known(Expected(st.phase))
    requires resp.body.body.Type() == Expected(st.phase)
    requires resp.body.keys == (if st.phase.Proving? then Some(st.phase.newKeys) else st.client.keys)
    ensures Exchanging(env, st, resp).1 == Ok(resp.body.body)
    ensures st.client.kdf.None? ==> Exchanging(env, st, resp).0.client.kdf == Some(resp.nonInteroperable)
  {
    hide Refusal, NextRequest;
  }

  /** A refused request ends the run of the device, with the reported error. */
  lemma {:induction false} RefusedEnds(env: Env, o: Owner, c: Context, j: Joint)
    requires !j.device.phase.Ended? && R.ClientFits(j.device.client, j.device.phase) && !Served(env, o, c, j).Accepted?
    ensures JointStep(env, o, c, j).device.phase == Ended(Err(ErrorReported))
  {
    hide Serve, Absorb, NextRequest;
    R.NeverRefused(env, j.device);
  }

  // ------------------------------------------------- what the server does, phase by phase

  function WithHeader(env: Env, c: Context): Context {
    c.(nonInteroperableHeader := NonInteroperableHeader(env.interoperable))
  }

  /** The header payload a server sends for a voucher. */
  function HelloReply(env: Env, o: Owner, c: Context, header: Bytes, v: V.Voucher): OVHdrPayload {
    OVHdrPayload(header, |v.entries| % 0x1_0000, v.hmac, env.nonce5, Secp384r1, [],
                 GetPublic(o.platform.curve, KeyExchange(Ecdh384, c.kexSecret, c.kexRandom)))
  }

  lemma {:induction false} ServesHello(env: Env, o: Owner, c: Context, j: Joint)
    requires j == START
    ensures
      var e := Served(env, o, c, j);
      && (e.Accepted? <==> env.guid in c.vouchers && HeaderRaw(o.platform, c.vouchers[env.guid]).Ok?)
      && (e.Accepted? ==>
            var v := c.vouchers[env.guid];
            var payload := HelloReply(env, o, c, HeaderRaw(o.platform, v).value, v);
            && e.reply == Wire(None, ProveOVHdrMsg(o.platform.p.sign(o.ownerKey, o.platform.encodeOVHdr(payload), c.nonce6)))
            && e.session == NEW_SESSION.(last := Some(ProveOVHdr), guid := Some(env.guid), nonce6 := Some(c.nonce6),
                                         cipher := Some(CIPHER), kex := Some(KeyExchange(Ecdh384, c.kexSecret, c.kexRandom))))
  {
    hide HeaderRaw, GetPublic;
  }

  /** What the device reads in it. */
  lemma {:induction false} HelloUnderstood(env: Env, o: Owner, c: Context, payload: OVHdrPayload)
    requires GoodEnv(env, o) && GoodContext(c) && PlatformLaws(env.platform)
    ensures
      var signed := o.platform.p.sign(o.ownerKey, o.platform.encodeOVHdr(payload), c.nonce6);
      && HelloPayload(env.platform, signed) == Some(payload)
      && env.platform.unprotectedNonce(signed) == Some(c.nonce6)
      && env.platform.p.verify(env.platform.p.publicOf(o.ownerKey), signed)
      && (CheckHello(env, signed).Ok? ==> CheckHello(env, signed).value == Hello(signed, payload, c.nonce6))
  {
    hide CurveLaws, CodecLaws, CheckHmac, CheckManufacturer;
    assert env.platform.p.payloadOf(o.platform.p.sign(o.ownerKey, o.platform.encodeOVHdr(payload), c.nonce6))
        == Some(o.platform.encodeOVHdr(payload));
  }

  lemma {:induction false} ServesEntry(env: Env, o: Owner, c: Context, j: Joint)
    requires j.device.phase.Collecting? && GoodEnv(env, o) && j.session.guid == Some(env.guid)
    requires j.session.last == j.device.client.last == Some(if j.device.phase.got == [] then ProveOVHdr else OVNextEntry)
    requires j.device.client.keys.None? && j.session.keys.None?
    ensures
      var e, num := Served(env, o, c, j), |j.device.phase.got| % 256;
      && (e.Accepted? <==> env.guid in c.vouchers && num < |c.vouchers[env.guid].entries| &&
                           Reprint(o.platform, c.vouchers[env.guid].entries[num]).Ok?)
      && (e.Accepted? ==>
            && e.reply == Wire(None, OVNextEntryMsg(num, Reprint(o.platform, c.vouchers[env.guid].entries[num]).value))
            && e.session == j.session.(last := Some(OVNextEntry)))
  {
    hide V.DecodeSigned, V.EncodeSigned;
  }

  /** The claims of the device's token, as the server reads them. */
  lemma {:induction false} TokenReads(env: Env, o: Owner, h: Hello)
    requires GoodEnv(env, o) && PlatformLaws(env.platform)
    ensures
      var l, token := o.platform, ProveToken(env, h);
      && l.unprotectedNonce(token) == Some(env.nonce7) && l.p.verify(l.p.publicOf(env.sk), token)
      && forall key: nat :: VerifiedEat(l, token, key) ==
           if l.p.verify(key, token) then Some(Eat(h.nonce6, env.guid, Some(GetPublic(l.curve, env.Kex())))) else None
  {
    hide CurveLaws, CodecLaws, GetPublic;
  }

  /** The keys of the server, from the device's public parameter and header. */
  function ServerKeys(env: Env, o: Owner, s: Session): V.Result<Bytes>
    requires s.kex.Some?
  {
    match DeriveKey(o.platform.curve, s.kex.value, OwnerService, CIPHER, GetPublic(o.platform.curve, env.Kex()),
                    NonInteroperableHeader(env.interoperable), o.interoperable)
    case Ok(k) => Ok(k)
    case Err(_) => Err(V.Undecodable)
    case Panic(c) => Panic(c)
  }

  /** A request that fits is handed to its handler. */
  lemma {:induction false} FitsIsHandled(env: Env, o: Owner, c: Context, j: Joint)
    requires !j.device.phase.Ended? && R.ClientFits(j.device.client, j.device.phase)
    requires j.session.last == j.device.client.last && j.session.keys == j.device.client.keys
    ensures
      match Handle(o, WithHeader(env, c), j.session, NextRequest(env, j.device.phase))
      case Err(e) => Served(env, o, c, j) == Refused(Err(e))
      case Panic(cause) => Served(env, o, c, j) == Refused(Panic(cause))
      case Ok(r) =>
        var stored := r.1.(last := Some(r.0.Type()));
        EncryptionMet(r.0.Type(), stored.keys) ==> Served(env, o, c, j) == Accepted(Wire(stored.keys, r.0), stored)
  {
    RequestFits(j.device.client, env, j.device.phase);
    hide Handle, NextRequest, R.ClientFits;
  }

  lemma {:induction false} ServesProof(env: Env, o: Owner, c: Context, j: Joint)
    requires j.device.phase.Proving? && GoodEnv(env, o) && PlatformLaws(env.platform) && j.session.guid == Some(env.guid)
    requires j.session.last == j.device.client.last == Some(OVNextEntry) && j.device.client.keys.None? && j.session.keys.None?
    requires Negotiated(env, j.session, j.device.phase.hello)
    ensures
      var e := Served(env, o, c, j);
      && (e.Accepted? <==> env.guid in c.vouchers && ServerKeys(env, o, j.session).Ok? &&
                           DeviceKey(o.platform, c.vouchers[env.guid]).Some? &&
                           o.platform.p.verify(DeviceKey(o.platform, c.vouchers[env.guid]).value, ProveToken(env, j.device.phase.hello)))
      && (e.Accepted? ==>
            && e.reply.keys == Some(Keys(CIPHER, ServerKeys(env, o, j.session).value))
            && e.reply.body == SetupDeviceMsg(o.platform.p.sign(o.owner2Key, o.platform.encodeSetup(SetupPayload(c.newGuid, env.nonce7)), []))
            && e.session == j.session.(last := Some(SetupDevice), kex := None, cipher := None, nonce7 := Some(env.nonce7),
                                       proven := true, keys := e.reply.keys))
  {
    TokenReads(env, o, j.device.phase.hello);
    FitsIsHandled(env, o, c, j);
    hide DeriveKey, GetPublic, PlatformLaws, VerifiedEat, ProveToken, DeviceKey, Served;
  }

  /** Both sides have derived the same keys. */
  lemma {:induction false} SameKeys(env: Env, o: Owner, s: Session, h: Hello, keys: Keys)
    requires GoodEnv(env, o) && PlatformLaws(env.platform) && Negotiated(env, s, h)
    ensures R.KeysFrom(env, h.payload, Some(NonInteroperableHeader(o.interoperable)), keys) <==>
            ServerKeys(env, o, s).Ok? && keys == Keys(CIPHER, ServerKeys(env, o, s).value)
  {
    hide DeriveKey, GetPublic, Laws;
    KeysAgree(env.platform.curve, env.Kex(), s.kex.value, CIPHER, env.interoperable, o.interoperable);
  }

  lemma {:induction false} ServesRest(env: Env, o: Owner, c: Context, j: Joint)
    requires j.device.phase.Readying? || j.device.phase.Informing? || j.device.phase.Finishing?
    requires S.SessionFields(j.session) && j.session.last == j.device.client.last && R.ClientFits(j.device.client, j.device.phase)
    requires j.session.keys == j.device.client.keys && Nonces(env, j.session, j.device.phase.hello)
    ensures
      var e, s := Served(env, o, c, j), j.session;
      match j.device.phase
      case Readying(_) => e == Accepted(Wire(s.keys, OwnerServiceInfoReadyMsg), s.(last := Some(OwnerServiceInfoReady)))
      case Informing(_, loops, _) =>
        var served := if loops == 0 then 0 else s.loops.value;
        && (e.Accepted? <==> served <= MAX_SERVICE_INFO_LOOPS && (loops == 0 ==> c.serviceInfo.Some?))
        && (e.Accepted? ==>
              && e.session == s.(last := Some(OwnerServiceInfo), loops := Some(served + 1))
              && e.reply == Wire(s.keys, if loops == 0 then OwnerServiceInfoMsg(false, false, c.serviceInfo.value)
                                         else OwnerServiceInfoMsg(false, true, [])))
      case Finishing(_, _) =>
        e == Accepted(Wire(s.keys, Done2Msg(env.nonce7)), s.(last := Some(Done2), nonce7 := None))
      case _ => true
  {
  }

  // ------------------------------------------------- both stay in step

  /** The phase after the entries collected so far. */
  lemma {:induction false} CollectedPhase(env: Env, st: DeviceState, h: Hello, got: seq<Bytes>)
    ensures
      var next := Collect(env, st, h, got);
      && next == st.(phase := next.phase)
      && (next.phase.Ended? || (next.phase.Collecting? && next.phase.hello == h) || (next.phase.Proving? && next.phase.hello == h))
  {
    hide VerifyOwner, DeriveKeys;
  }

  /** The exchange went through; what is left is what both sides hold afterwards. */
  ghost predicate Advanced(env: Env, o: Owner, c: Context, j: Joint, st': DeviceState)
    requires !j.device.phase.Ended?
  {
    var e := Served(env, o, c, j);
    && e.Accepted? && R.Answered(env, j.device, st', e.reply.body)
    && JointStep(env, o, c, j) == Joint(Absorb(env, st', e.reply.body), e.session)
    && st'.client.keys == e.reply.keys
    && (j.device.client.kdf.None? ==> st'.client.kdf == Some(NonInteroperableHeader(o.interoperable)))
  }

  lemma {:induction false} HelloInStep(env: Env, o: Owner, c: Context, j: Joint, st': DeviceState)
    requires GoodEnv(env, o) && PlatformLaws(env.platform) && GoodContext(c) && j == START && Advanced(env, o, c, j, st')
    ensures Together(env, o, JointStep(env, o, c, j))
  {
    ServesHello(env, o, c, j);
    hide Served, JointStep, PlatformLaws, CheckHello, Collect, NextRequest;
    var v := c.vouchers[env.guid];
    var payload := HelloReply(env, o, c, HeaderRaw(o.platform, v).value, v);
    HelloUnderstood(env, o, c, payload);
    var signed := o.platform.p.sign(o.ownerKey, o.platform.encodeOVHdr(payload), c.nonce6);
    CollectedPhase(env, st', Hello(signed, payload, c.nonce6), []);
  }

  lemma {:induction false} EntryInStep(env: Env, o: Owner, c: Context, j: Joint, st': DeviceState)
    requires GoodEnv(env, o) && Together(env, o, j) && j.device.phase.Collecting? && R.ClientFits(j.device.client, j.device.phase)
    requires Advanced(env, o, c, j, st')
    ensures Together(env, o, JointStep(env, o, c, j))
  {
    ServesEntry(env, o, c, j);
    hide Served, JointStep, Reprint, Collect, NextRequest, Negotiated;
    var h, got := j.device.phase.hello, j.device.phase.got;
    SameNegotiated(env, j.session, Served(env, o, c, j).session, h);
    var entry := Reprint(env.platform, Served(env, o, c, j).reply.body.entry);
    if entry.Ok? {
      CollectedPhase(env, st', h, got + [entry.value]);
    }
  }

  lemma {:induction false} SameNegotiated(env: Env, s: Session, s': Session, h: Hello)
    requires Negotiated(env, s, h) && s'.kex == s.kex && s'.cipher == s.cipher && s'.nonce6 == s.nonce6
    ensures Negotiated(env, s', h)
  {
  }

  lemma {:induction false} ProofInStep(env: Env, o: Owner, c: Context, j: Joint, st': DeviceState)
    requires GoodEnv(env, o) && PlatformLaws(env.platform) && Together(env, o, j)
    requires j.device.phase.Proving? && R.ClientFits(j.device.client, j.device.phase) && Advanced(env, o, c, j, st')
    ensures Together(env, o, JointStep(env, o, c, j))
  {
    ServesProof(env, o, c, j);
    hide Served, JointStep, ServerKeys, DeviceKey, NextRequest, PlatformLaws, ProveToken;
  }

  /** The phase after a ServiceInfo reply. */
  lemma {:induction false} InformedPhase(env: Env, st: DeviceState, reply: Reply)
    requires st.phase.Informing? && reply.OwnerServiceInfoMsg?
    ensures
      var next, h := Absorb(env, st, reply), st.phase.hello;
      && next.client == st.client
      && (next.phase.Ended? || (next.phase.Informing? && next.phase.hello == h) || (next.phase.Finishing? && next.phase.hello == h))
  {
    hide I.Process, After;
  }

  /** What a served round leaves of the session. */
  lemma {:induction false} InfoSession(env: Env, o: Owner, c: Context, j: Joint)
    requires j.device.phase.Informing? && S.SessionFields(j.session) && R.ClientFits(j.device.client, j.device.phase)
    requires j.session.last == j.device.client.last && j.session.keys == j.device.client.keys && Nonces(env, j.session, j.device.phase.hello)
    requires Served(env, o, c, j).Accepted?
    ensures
      var e := Served(env, o, c, j);
      && e.session == j.session.(last := Some(OwnerServiceInfo), loops := e.session.loops) && e.reply.keys == j.session.keys
      && e.reply.body.OwnerServiceInfoMsg?
  {
    ServesRest(env, o, c, j);
    hide Served, S.SessionFields, R.ClientFits, Nonces;
  }

  lemma {:induction false} StillTogether(env: Env, o: Owner, j: Joint, next: Joint)
    requires Together(env, o, j) && j.device.phase.Informing?
    requires next.device.client.last == next.session.last && next.device.client.keys == j.device.client.keys == next.session.keys
    requires next.device.client.kdf == j.device.client.kdf
    requires next.session == j.session.(last := next.session.last, loops := next.session.loops)
    requires
      var phase, h := next.device.phase, j.device.phase.hello;
      phase.Ended? || (phase.Informing? && phase.hello == h) || (phase.Finishing? && phase.hello == h)
    ensures Together(env, o, next)
  {
  }

  lemma {:induction false} TogetherParts(env: Env, o: Owner, j: Joint)
    requires Together(env, o, j) && j.device.phase.Informing?
    ensures j.session.last == j.device.client.last && j.session.keys == j.device.client.keys
    ensures Nonces(env, j.session, j.device.phase.hello) && j.device.client.kdf.Some?
  {
    hide Nonces;
  }

  lemma {:induction false} InfoInStep(env: Env, o: Owner, c: Context, j: Joint, st': DeviceState)
    requires GoodEnv(env, o) && Together(env, o, j) && S.SessionFields(j.session) && j.device.phase.Informing?
    requires R.ClientFits(j.device.client, j.device.phase) && Advanced(env, o, c, j, st')
    ensures Together(env, o, JointStep(env, o, c, j))
  {
    hide *;
    TogetherParts(env, o, j);
    AdvancedFacts(env, o, c, j, st');
    InfoSession(env, o, c, j);
    InformedPhase(env, st', Served(env, o, c, j).reply.body);
    ExpectedInfo(j.device.phase);
    StillTogether(env, o, j, JointStep(env, o, c, j));
  }

  lemma {:induction false} ExpectedInfo(phase: Phase)
    ensures phase.Informing? ==> Expected(phase) == OwnerServiceInfo
  {
  }

  /** What an advance says about the device. */
  lemma {:induction false} AdvancedFacts(env: Env, o: Owner, c: Context, j: Joint, st': DeviceState)
    requires !j.device.phase.Ended? && Advanced(env, o, c, j, st')
    ensures
      var e := Served(env, o, c, j);
      && e.Accepted? && st' == j.device.(client := st'.client, sent := st'.sent, received := st'.received)
      && e.reply.body.Type() == Expected(j.device.phase) && st'.phase == j.device.phase
      && JointStep(env, o, c, j) == Joint(Absorb(env, st', e.reply.body), e.session)
      && st'.client.last == Some(Expected(j.device.phase)) && st'.client.keys == e.reply.keys
      && (j.device.client.kdf.Some? ==> st'.client.kdf == j.device.client.kdf)
      && (j.device.client.kdf.None? ==> st'.client.kdf == Some(NonInteroperableHeader(o.interoperable)))
  {
    hide Served, NextRequest, JointStep, Absorb;
  }

  lemma {:induction false} RestInStep(env: Env, o: Owner, c: Context, j: Joint, st': DeviceState)
    requires GoodEnv(env, o) && Together(env, o, j) && S.SessionFields(j.session)
    requires j.device.phase.Readying? || j.device.phase.Finishing?
    requires R.ClientFits(j.device.client, j.device.phase) && Advanced(env, o, c, j, st')
    ensures Together(env, o, JointStep(env, o, c, j))
  {
    ServesRest(env, o, c, j);
    hide Served, JointStep, NextRequest, AbsorbInfo, AbsorbHello, AbsorbEntry, S.SessionFields, R.ClientFits;
  }

  lemma {:induction false} AdvancedInStep(env: Env, o: Owner, c: Context, j: Joint, st': DeviceState)
    requires GoodEnv(env, o) && PlatformLaws(env.platform) && GoodContext(c)
    requires Together(env, o, j) && S.SessionFields(j.session) && (j.device.phase.Greeting? ==> j == START)
    requires !j.device.phase.Ended? && R.ClientFits(j.device.client, j.device.phase) && Advanced(env, o, c, j, st')
    ensures Together(env, o, JointStep(env, o, c, j))
  {
    hide Together, S.SessionFields, R.ClientFits, Advanced, PlatformLaws;
    match j.device.phase {
      case Greeting => HelloInStep(env, o, c, j, st');
      case Collecting(_, _) => EntryInStep(env, o, c, j, st');
      case Proving(_, _) => ProofInStep(env, o, c, j, st');
      case Informing(_, _, _) => InfoInStep(env, o, c, j, st');
      case _ => RestInStep(env, o, c, j, st');
    }
  }

  /** In step, what the server accepts the device can read: it is of the expected type, and sealed
      under the keys that the device reads it with. */
  lemma {:induction false} AcceptedIsUnderstood(env: Env, o: Owner, c: Context, j: Joint)
    requires GoodEnv(env, o) && PlatformLaws(env.platform) && InStep(env, o, j) && !j.device.phase.Ended?
    requires R.ClientFits(j.device.client, j.device.phase) && Served(env, o, c, j).Accepted?
    ensures Understood(env, o, j, Served(env, o, c, j))
  {
    hide Served, R.Inv, S.SessionFields, Negotiated, R.KeysFrom, ServerKeys, PlatformLaws, DeviceKey, HeaderRaw;
    match j.device.phase {
      case Greeting =>
        assert j == START by { GreetingIsStart(env, o, j); }
        ServesHello(env, o, c, j);
      case Collecting(_, _) => ServesEntry(env, o, c, j);
      case Proving(h, keys) =>
        ServesProof(env, o, c, j);
        KeysFromInv(env, j.device);
        SameKeys(env, o, j.session, h, keys);
      case _ => ServesRest(env, o, c, j);
    }
  }

  lemma {:induction false} GreetingIsStart(env: Env, o: Owner, j: Joint)
    requires InStep(env, o, j) && j.device.phase.Greeting?
    ensures j == START
  {
  }

  lemma {:induction false} KeysFromInv(env: Env, st: DeviceState)
    requires R.Inv(env, st) && st.phase.Proving?
    ensures R.KeysFrom(env, st.phase.hello.payload, st.client.kdf, st.phase.newKeys)
  {
    hide R.KeysFrom, R.ProvedAt;
  }

  lemma {:induction false} SessionStaysGood(env: Env, o: Owner, c: Context, j: Joint)
    requires S.SessionFields(j.session) && !j.device.phase.Ended?
    ensures !Served(env, o, c, j).StoredButRefused?
    ensures S.SessionFields(SessionAfter(j.session, Served(env, o, c, j)))
  {
    hide Serve, S.SessionFields, NextRequest;
    var m, c' := NextRequest(env, j.device.phase), WithHeader(env, c);
    S.SequenceCheckImpliesEncryption(o, c', j.session, m.Type(), Wire(j.device.client.keys, m));
    if Served(env, o, c, j).Accepted? {
      S.AcceptedFields(o, c', j.session, m.Type(), Wire(j.device.client.keys, m));
    }
  }

  lemma {:induction false} StepsTogether(env: Env, o: Owner, c: Context, j: Joint)
    requires GoodEnv(env, o) && PlatformLaws(env.platform) && GoodContext(c) && InStep(env, o, j) && !j.device.phase.Ended?
    ensures Together(env, o, JointStep(env, o, c, j))
    ensures JointStep(env, o, c, j).session == SessionAfter(j.session, Served(env, o, c, j))
  {
    R.InvFits(env, j.device);
    hide Served, R.Inv, S.SessionFields, PlatformLaws, Absorb, R.ClientFits, R.Answered, PhaseInStep;
    if Served(env, o, c, j).Accepted? {
      AcceptedIsUnderstood(env, o, c, j);
      UnderstoodIsAbsorbed(env, o, c, j);
      hide JointStep, InStep;
      InStepIsTogether(env, o, j);
      var st' := Exchanging(env, j.device, ToResponse(o, Served(env, o, c, j))).0;
      KeysAfter(env, o, c, j, st');
      AdvancedInStep(env, o, c, j, st');
    } else {
      RefusedEnds(env, o, c, j);
    }
  }

  lemma {:induction false} KeysAfter(env: Env, o: Owner, c: Context, j: Joint, st': DeviceState)
    requires !j.device.phase.Ended? && Served(env, o, c, j).Accepted? && Understood(env, o, j, Served(env, o, c, j))
    requires R.Answered(env, j.device, st', Served(env, o, c, j).reply.body)
    ensures st'.client.keys == Served(env, o, c, j).reply.keys
  {
    hide Served, NextRequest;
  }

  lemma {:induction false} InStepIsTogether(env: Env, o: Owner, j: Joint)
    requires InStep(env, o, j)
    ensures Together(env, o, j) && S.SessionFields(j.session) && R.Inv(env, j.device)
    ensures j.device.phase.Greeting? ==> j == START
  {
    hide S.SessionFields;
  }

  lemma {:induction false} StepKeepsInStep(env: Env, o: Owner, c: Context, j: Joint)
    requires GoodEnv(env, o) && PlatformLaws(env.platform) && GoodContext(c) && InStep(env, o, j)
    ensures InStep(env, o, JointStep(env, o, c, j))
  {
    hide Served, R.Inv, S.SessionFields, PlatformLaws, Step, PhaseInStep;
    if !j.device.phase.Ended? {
      SessionStaysGood(env, o, c, j);
      StepsTogether(env, o, c, j);
      R.StepKeepsInv(env, j.device, ToResponse(o, Served(env, o, c, j)));
    }
  }

  /** In every joint run, whatever the voucher store and the ServiceInfo server deliver, both sides
      stay in step: they agree on the last message, on the keys, and on what they have negotiated. */
  lemma {:induction false} EveryRunInStep(env: Env, o: Owner, contexts: nat -> Context, n: nat)
    requires GoodEnv(env, o) && PlatformLaws(env.platform) && forall k: nat :: GoodContext(contexts(k))
    ensures InStep(env, o, JointRun(env, o, contexts, n))
    decreases n
  {
    hide JointStep, InStep, PlatformLaws;
    if n == 0 {
      assert InStep(env, o, START) by { StartInStep(env, o); }
    } else {
      EveryRunInStep(env, o, contexts, n - 1);
      StepKeepsInStep(env, o, contexts(n - 1), JointRun(env, o, contexts, n - 1));
    }
  }

  lemma {:induction false} StartInStep(env: Env, o: Owner)
    ensures InStep(env, o, START)
  {
  }

  /** Lockstep: every request is opened under the keys it was sealed with and arrives in sequence,
      every accepted reply is opened under the keys it was sealed with, the server never stores a
      session without answering, and an exchange fails only where a handler reported an error. */
  lemma {:induction false} Lockstep(env: Env, o: Owner, contexts: nat -> Context, n: nat)
    requires GoodEnv(env, o) && PlatformLaws(env.platform) && forall k: nat :: GoodContext(contexts(k))
    requires !JointRun(env, o, contexts, n).device.phase.Ended?
    ensures
      var j := JointRun(env, o, contexts, n);
      var m, e := NextRequest(env, j.device.phase), Served(env, o, contexts(n), j);
      && Open(j.session.keys, Wire(j.device.client.keys, m)) == Some(m)
      && m.Type().ValidAfter(j.session.last) && EncryptionMet(m.Type(), j.session.keys)
      && (e.Accepted? ==> Understood(env, o, j, e) && e.reply.keys == e.session.keys)
      && !e.StoredButRefused?
      && Exchanging(env, j.device, ToResponse(o, e)).1 == (if e.Accepted? then Ok(e.reply.body) else Err(ErrorReported))
  {
    EveryRunInStep(env, o, contexts, n);
    hide JointRun, PlatformLaws;
    InStepLocks(env, o, contexts(n), JointRun(env, o, contexts, n));
  }

  lemma {:induction false} InStepLocks(env: Env, o: Owner, c: Context, j: Joint)
    requires GoodEnv(env, o) && PlatformLaws(env.platform) && InStep(env, o, j) && !j.device.phase.Ended?
    ensures
      var m, e := NextRequest(env, j.device.phase), Served(env, o, c, j);
      && Open(j.session.keys, Wire(j.device.client.keys, m)) == Some(m)
      && m.Type().ValidAfter(j.session.last) && EncryptionMet(m.Type(), j.session.keys)
      && (e.Accepted? ==> Understood(env, o, j, e) && e.reply.keys == e.session.keys)
      && !e.StoredButRefused?
      && Exchanging(env, j.device, ToResponse(o, e)).1 == (if e.Accepted? then Ok(e.reply.body) else Err(ErrorReported))
  {
    R.InvFits(env, j.device);
    InStepIsTogether(env, o, j);
    SessionStaysGood(env, o, c, j);
    RequestFits(j.device.client, env, j.device.phase);
    hide R.Inv, S.SessionFields, PlatformLaws, R.ClientFits, InStep, NextRequest, PhaseInStep;
    ReplyKeys(env, o, c, j);
    hide Served, Understood;
    var e := Served(env, o, c, j);
    if e.Accepted? {
      AcceptedIsUnderstood(env, o, c, j);
      UnderstoodIsAbsorbed(env, o, c, j);
    } else {
      Reported(env, o, c, j);
    }
  }

  lemma {:induction false} Reported(env: Env, o: Owner, c: Context, j: Joint)
    requires !j.device.phase.Ended? && R.ClientFits(j.device.client, j.device.phase) && !Served(env, o, c, j).Accepted?
    ensures Exchanging(env, j.device, ToResponse(o, Served(env, o, c, j))).1 == Err(ErrorReported)
  {
    R.NeverRefused(env, j.device);
    hide NextRequest, Refusal, Served;
  }

  lemma {:induction false} RequestFits(c: Client, env: Env, phase: Phase)
    requires R.ClientFits(c, phase) && !phase.Ended?
    ensures NextRequest(env, phase).Type().ValidAfter(c.last) && EncryptionMet(NextRequest(env, phase).Type(), c.keys)
  {
  }

  lemma {:induction false} ReplyKeys(env: Env, o: Owner, c: Context, j: Joint)
    requires !j.device.phase.Ended?
    ensures var e := Served(env, o, c, j); e.Accepted? ==> e.reply.keys == e.session.keys
  {
    hide Handle, NextRequest;
  }
}
