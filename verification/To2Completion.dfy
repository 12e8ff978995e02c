/** An honest run of TO2 succeeds: header, voucher, keys, ServiceInfo and the end, step by step. */
module To2Completion {
  import opened Outcomes
  import opened ByteStrings
  import opened Crypto
  import opened KeyExchanges
  import opened ServiceInfos
  import opened To2Messages
  import opened OwnerServers
  import opened DeviceClients
  import opened To2Runs
  import opened VoucherTransfers
  import opened ParsedArrays
  import opened CborRoundTrip
  import V = Vouchers
  import C = VoucherChain
  import I = DeviceInterpreter
  import R = ClientRuns
  import S = ServerRuns
  import VoucherObjects

  // ------------------------------------------------- the voucher, rebuilt

  /** A voucher as `new` and `extend` leave it: the cached fields are the parse of the raw elements,
      and the raw header, HMAC and entries are as this program prints them. */
  predicate AsBuilt(l: Platform, v: V.Voucher) {
    && C.Consistent(l.p, v) && |v.entries| <= 0xffff
    && HeaderRaw(l, v).Ok? && v.contents[1] == l.p.encode(BytesLeaf(HeaderRaw(l, v).value))
    && v.contents[2] == l.p.encode(HashLeaf(v.hmac))
    && forall i | 0 <= i < |v.entries| :: Reprint(l, v.entries[i]) == Ok(v.entries[i])
  }

  lemma {:induction false} BuiltIsPrinted(l: Platform, v: V.Voucher)
    requires AsBuilt(l, v)
    ensures Printable(l, v.entries) && Reprinted(l, v.entries) == v.entries
  {
    hide Reprint, HeaderRaw, C.Consistent;
  }

  lemma {:induction false} HeaderIsParsed(l: Platform, v: V.Voucher)
    requires AsBuilt(l, v)
    ensures V.DeserializeHeader(l.p, HeaderRaw(l, v).value) == Ok(v.header)
  {
    hide V.DeserializeHeader, Parse, Reprint;
  }

  lemma {:induction false} PartsOf(p: Primitives, header: Bytes, hmac: Hash, entries: seq<Bytes>, h: V.Header)
    requires |entries| <= 0xffff && V.DeserializeHeader(p, header) == Ok(h)
    ensures
      var r := V.FromParts(p, Version1_1, header, hmac, entries);
      && r.Ok? && r.value.header == h && r.value.entries == entries
      && r.value.contents[1] == p.encode(BytesLeaf(header)) && r.value.contents[2] == p.encode(HashLeaf(hmac))
  {
    hide V.DeserializeHeader, Serialize;
    SerializeSucceedsIff(ParsedArray(None, entries));
  }

  /** What the device puts together differs from the original only in what it never received. */
  lemma {:induction false} Rebuilt(l: Platform, v: V.Voucher) returns (w: V.Voucher)
    requires AsBuilt(l, v)
    ensures V.FromParts(l.p, Version1_1, HeaderRaw(l, v).value, v.hmac, v.entries) == Ok(w)
    ensures w.header == v.header && w.entries == v.entries && w.contents[1] == v.contents[1] && w.contents[2] == v.contents[2]
  {
    HeaderIsParsed(l, v);
    hide V.DeserializeHeader, V.FromParts, Reprint, C.Consistent, HeaderRaw;
    PartsOf(l.p, HeaderRaw(l, v).value, v.hmac, v.entries, v.header);
    w := V.FromParts(l.p, Version1_1, HeaderRaw(l, v).value, v.hmac, v.entries).value;
  }

  lemma {:induction false} SameEntries(p: Primitives, v: V.Voucher, w: V.Voucher, payloads: seq<EntryPayload>)
    requires C.EntryWise(p, v, payloads)
    requires w.header == v.header && w.entries == v.entries && w.contents[1] == v.contents[1] && w.contents[2] == v.contents[2]
    ensures C.EntryWise(p, w, payloads)
  {
    hide V.VerifyEntry, C.EntryWise;
    C.EachIffEntryWise(p, v, payloads);
    C.EachIffEntryWise(p, w, payloads);
    assert w.entries[..|v.entries|] == v.entries;
    forall i | 0 <= i < |w.entries|
      ensures V.VerifyEntry(p, w, i, C.SignerKey(w, payloads, i)) == Ok(payloads[i])
    {
      assert C.SignerKey(w, payloads, i) == C.SignerKey(v, payloads, i);
      C.VerifyEntryFrame(p, v, w, i, C.SignerKey(v, payloads, i));
    }
  }

  /** The owner as the voucher names it. */
  ghost predicate OwnedBy(env: Env, o: Owner, v: V.Voucher, payloads: seq<EntryPayload>) {
    && C.EntryWise(env.platform.p, v, payloads) && |v.entries| >= 1
    && payloads[|payloads| - 1].key.pkey == env.platform.p.publicOf(o.ownerKey)
    && env.platform.p.verify(env.platform.p.publicOf(o.ownerKey), env.to1d)
  }

  lemma {:induction false} LastIsOwner(p: Primitives, w: V.Voucher, payloads: seq<EntryPayload>)
    requires C.EntryWise(p, w, payloads) && payloads != []
    ensures V.LastYield(p, w) == Some(Ok(payloads[|payloads| - 1]))
  {
    hide C.EntryWise, C.Verified, V.LastYield;
    C.VerifiedIffEntryWise(p, w, payloads);
    VoucherObjects.LastIsOkIffVerified(p, w, payloads[|payloads| - 1]);
  }

  lemma {:induction false} OwnerIsVerified(env: Env, o: Owner, h: Hello, v: V.Voucher, payloads: seq<EntryPayload>)
    requires AsBuilt(env.platform, v) && OwnedBy(env, o, v, payloads)
    requires h.payload.header == HeaderRaw(env.platform, v).value && h.payload.hmac == v.hmac
    requires HelloPayload(env.platform, h.signed) == Some(h.payload)
    requires env.platform.p.verify(env.platform.p.publicOf(o.ownerKey), h.signed)
    ensures VerifyOwner(env, h, v.entries) == Ok(h.payload)
  {
    var w := Rebuilt(env.platform, v);
    SameEntries(env.platform.p, v, w, payloads);
    R.SameLength(env.platform.p, v, payloads);
    assert payloads != [];
    LastIsOwner(env.platform.p, w, payloads);
    VerifiesOwner(env, h, v.entries, w, payloads[|payloads| - 1]);
    hide *;
  }

  lemma {:induction false} VerifiesOwner(env: Env, h: Hello, entries: seq<Bytes>, w: V.Voucher, last: EntryPayload)
    requires V.FromParts(env.platform.p, Version1_1, h.payload.header, h.payload.hmac, entries) == Ok(w)
    requires V.LastYield(env.platform.p, w) == Some(Ok(last)) && HelloPayload(env.platform, h.signed) == Some(h.payload)
    requires env.platform.p.verify(last.key.pkey, h.signed) && env.platform.p.verify(last.key.pkey, env.to1d)
    ensures VerifyOwner(env, h, entries) == Ok(h.payload)
  {
    hide V.FromParts, V.LastYield, HelloPayload;
  }

  // ------------------------------------------------- an honest setting

  /** Owner and device share a secret. */
  predicate SharesSecret(env: Env, contexts: nat -> Context) {
    env.platform.curve.shared(Ecdh384, env.kexSecret, env.platform.curve.public(Ecdh384, contexts(0).kexSecret)).Some?
  }

  /** All that makes a run honest: the voucher of this device, owned by this owner, of at most 256
      entries; the device's key in its certificate; and a machine on which the ServiceInfo works. */
  ghost predicate Honest(env: Env, o: Owner, contexts: nat -> Context, v: V.Voucher, payloads: seq<EntryPayload>, info: ServiceInfo) {
    && Stored(env, o, contexts, v) && Recognised(env, o, v) && AsBuilt(env.platform, v)
    && OwnedBy(env, o, v, payloads) && |v.entries| <= 256
    && DeviceKey(env.platform, v) == Some(env.platform.p.publicOf(env.sk))
    && SharesSecret(env, contexts)
    && (forall k: nat :: contexts(k).serviceInfo == Some(info))
    && I.Process(After(env.machine, []), info).result.Ok? && env.markerWorks && env.deactivationWorks
  }

  // ------------------------------------------------- up to the keys

  lemma {:induction false} HelloIsSigned(env: Env, o: Owner, contexts: nat -> Context, v: V.Voucher)
    requires Stored(env, o, contexts, v) && HeaderRaw(o.platform, v).Ok?
    ensures
      var h := FirstHello(env, o, contexts, v);
      && HelloPayload(env.platform, h.signed) == Some(h.payload)
      && env.platform.p.verify(env.platform.p.publicOf(o.ownerKey), h.signed)
      && h.payload.header == HeaderRaw(env.platform, v).value && h.payload.hmac == v.hmac
  {
    HelloUnderstood(env, o, contexts(0), FirstPayload(env, o, contexts, v));
    hide PlatformLaws, HeaderRaw, HelloPayload, GetPublic, CheckHello;
  }

  lemma {:induction false} KeysAreDerived(env: Env, o: Owner, contexts: nat -> Context, payload: OVHdrPayload, kdf: bool)
    requires GoodEnv(env, o) && PlatformLaws(env.platform) && GoodContext(contexts(0)) && SharesSecret(env, contexts)
    requires payload.aKeyExchange == GetPublic(env.platform.curve, KeyExchange(Ecdh384, contexts(0).kexSecret, contexts(0).kexRandom))
    ensures DeriveKeys(env, Some(kdf), payload).Ok?
  {
    hide Laws, GetPublic, SharedSecret;
    SecretOf(env.platform.curve, env.Kex(), KeyExchange(Ecdh384, contexts(0).kexSecret, contexts(0).kexRandom), Device);
  }

  lemma {:induction false} AfterEntriesIs(env: Env, st: DeviceState, h: Hello, entries: seq<Bytes>)
    requires VerifyOwner(env, h, entries) == Ok(h.payload) && DeriveKeys(env, st.client.kdf, h.payload).Ok?
    ensures AfterEntries(env, st, h, entries) == st.(phase := Proving(h, DeriveKeys(env, st.client.kdf, h.payload).value))
  {
    hide VerifyOwner, DeriveKeys;
  }

  lemma {:induction false} AllCollected(env: Env, o: Owner, contexts: nat -> Context, v: V.Voucher, j: Joint)
    requires HeaderRaw(o.platform, v).Ok? && Printable(o.platform, v.entries) && Collected(env, o, contexts, v, j, |v.entries|)
    ensures j.device == AfterEntries(env, j.device.(phase := Greeting), FirstHello(env, o, contexts, v), Reprinted(o.platform, v.entries))
    ensures Untouched(j.device) && j.device.client.kdf == Some(NonInteroperableHeader(o.interoperable))
  {
    hide AfterEntries, FirstHello, HeaderRaw, Printable, Negotiated;
    assert Reprinted(o.platform, v.entries)[..|v.entries|] == Reprinted(o.platform, v.entries);
  }

  lemma {:induction false} HonestParts(env: Env, o: Owner, contexts: nat -> Context, v: V.Voucher, payloads: seq<EntryPayload>, info: ServiceInfo)
    requires Honest(env, o, contexts, v, payloads, info)
    ensures env.platform == o.platform && HeaderRaw(o.platform, v).Ok? && |v.entries| <= 256
    ensures GoodEnv(env, o) && PlatformLaws(env.platform) && forall k: nat :: GoodContext(contexts(k))
    ensures Stored(env, o, contexts, v) && Recognised(env, o, v) && AsBuilt(env.platform, v) && OwnedBy(env, o, v, payloads)
    ensures SharesSecret(env, contexts) && DeviceKey(env.platform, v) == Some(env.platform.p.publicOf(env.sk))
    ensures I.Process(After(env.machine, []), info).result.Ok? && env.markerWorks && env.deactivationWorks
    ensures forall k: nat ::
              contexts(k).serviceInfo == Some(info) && env.guid in contexts(k).vouchers && contexts(k).vouchers[env.guid] == v
  {
    hide PlatformLaws, AsBuilt, OwnedBy, SharesSecret, I.Process, HeaderRaw;
  }

  lemma {:induction false} FirstKeyExchange(env: Env, o: Owner, contexts: nat -> Context, v: V.Voucher)
    requires HeaderRaw(o.platform, v).Ok?
    ensures FirstHello(env, o, contexts, v).payload.aKeyExchange ==
            GetPublic(o.platform.curve, KeyExchange(Ecdh384, contexts(0).kexSecret, contexts(0).kexRandom))
  {
    hide GetPublic, HeaderRaw;
  }

  /** After the last entry the device is about to prove itself. */
  lemma {:induction false} ReadyToProve(env: Env, o: Owner, contexts: nat -> Context, v: V.Voucher, payloads: seq<EntryPayload>, info: ServiceInfo)
    requires Honest(env, o, contexts, v, payloads, info)
    ensures HeaderRaw(o.platform, v).Ok?
    ensures
      var st := JointRun(env, o, contexts, |v.entries| + 1).device;
      st.phase.Proving? && st.phase.hello == FirstHello(env, o, contexts, v) && Untouched(st)
  {
    hide *;
    HonestParts(env, o, contexts, v, payloads, info);
    BuiltIsPrinted(env.platform, v);
    Transfer(env, o, contexts, v, |v.entries|);
    var j := JointRun(env, o, contexts, |v.entries| + 1);
    AllCollected(env, o, contexts, v, j);
    var h := FirstHello(env, o, contexts, v);
    HelloIsSigned(env, o, contexts, v);
    OwnerIsVerified(env, o, h, v, payloads);
    FirstKeyExchange(env, o, contexts, v);
    KeysAreDerived(env, o, contexts, h.payload, NonInteroperableHeader(o.interoperable));
    AfterEntriesIs(env, j.device.(phase := Greeting), h, v.entries);
  }

  // ------------------------------------------------- from the proof to the end

  lemma {:induction false} RunMore(env: Env, o: Owner, contexts: nat -> Context, n: nat)
    ensures JointRun(env, o, contexts, n + 1) == JointStep(env, o, contexts(n), JointRun(env, o, contexts, n))
  {
    hide JointStep;
  }

  lemma {:induction false} ProvingFits(env: Env, o: Owner, j: Joint)
    requires InStep(env, o, j) && j.device.phase.Proving?
    ensures j.session.last == j.device.client.last == Some(OVNextEntry) && j.session.guid == Some(env.guid)
    ensures j.device.client.keys.None? && j.session.keys.None? && Negotiated(env, j.session, j.device.phase.hello)
    ensures R.KeysFrom(env, j.device.phase.hello.payload, Some(NonInteroperableHeader(o.interoperable)), j.device.phase.newKeys)
  {
    hide R.KeysFrom, R.ProvedAt, Negotiated, S.SessionFields;
  }

  lemma {:induction false} RestFits(env: Env, o: Owner, j: Joint)
    requires InStep(env, o, j) && (j.device.phase.Readying? || j.device.phase.Informing? || j.device.phase.Finishing?)
    ensures S.SessionFields(j.session) && j.session.last == j.device.client.last && R.ClientFits(j.device.client, j.device.phase)
    ensures j.session.keys == j.device.client.keys && Nonces(env, j.session, j.device.phase.hello)
  {
    R.InvFits(env, j.device);
    hide R.Inv, S.SessionFields, R.ClientFits;
  }

  /** What the replies of the last phases do to the device. */
  lemma {:induction false} LastAbsorbs(env: Env, st: DeviceState, reply: Reply)
    requires !st.phase.Ended? && reply.Type() == Expected(st.phase)
    ensures st.phase.Proving? ==> Absorb(env, st, reply) == st.(phase := Readying(st.phase.hello))
    ensures st.phase.Readying? ==> Absorb(env, st, reply) == st.(phase := Informing(st.phase.hello, 0, false))
    ensures st.phase.Informing? && reply.done && env.markerWorks && env.deactivationWorks ==>
              Absorb(env, st, reply) == st.(marked := true, deactivated := true, phase := Finishing(st.phase.hello, st.phase.reboot))
    ensures st.phase.Finishing? && reply.nonce7 == env.nonce7 ==> Absorb(env, st, reply) == Fail(st, Ok(st.phase.reboot))
  {
    hide AbsorbHello, AbsorbEntry, I.Process, After;
  }

  lemma {:induction false} FirstInfoAbsorbed(env: Env, st: DeviceState, h: Hello, info: ServiceInfo)
    requires st.phase == Informing(h, 0, false) && st.effects == []
    requires I.Process(After(env.machine, []), info).result.Ok?
    ensures
      var report := I.Process(After(env.machine, []), info);
      Absorb(env, st, OwnerServiceInfoMsg(false, false, info)) ==
        st.(effects := report.log, phase := Informing(h, 1, report.result.value))
  {
    hide I.Process, After, Complete;
    assert [] + I.Process(After(env.machine, []), info).log == I.Process(After(env.machine, []), info).log;
  }

  lemma {:induction false} ProofAccepted(env: Env, o: Owner, c: Context, j: Joint)
    requires GoodEnv(env, o) && PlatformLaws(env.platform) && InStep(env, o, j) && j.device.phase.Proving?
    requires env.guid in c.vouchers && DeviceKey(env.platform, c.vouchers[env.guid]) == Some(env.platform.p.publicOf(env.sk))
    ensures Served(env, o, c, j).Accepted?
  {
    hide *;
    ProvingFits(env, o, j);
    SamePlatform(env, o);
    TokenReads(env, o, j.device.phase.hello);
    SameKeys(env, o, j.session, j.device.phase.hello, j.device.phase.newKeys);
    ServesProof(env, o, c, j);
  }

  /** One accepted step: the device absorbs the reply. */
  lemma {:induction false} AcceptedStep(env: Env, o: Owner, contexts: nat -> Context, n: nat) returns (st': DeviceState)
    requires GoodEnv(env, o) && PlatformLaws(env.platform) && forall k: nat :: GoodContext(contexts(k))
    requires var j := JointRun(env, o, contexts, n); !j.device.phase.Ended? && Served(env, o, contexts(n), j).Accepted?
    ensures
      var j := JointRun(env, o, contexts, n);
      var e := Served(env, o, contexts(n), j);
      && e.reply.body.Type() == Expected(j.device.phase)
      && st' == j.device.(client := st'.client, sent := st'.sent, received := st'.received)
      && JointRun(env, o, contexts, n + 1) == Joint(Absorb(env, st', e.reply.body), e.session)
  {
    hide *;
    EveryRunInStep(env, o, contexts, n);
    var j := JointRun(env, o, contexts, n);
    st' := Advances(env, o, contexts(n), j);
    AdvancedFacts(env, o, contexts(n), j, st');
    RunMore(env, o, contexts, n);
  }

  /** The device has proved itself, and both sides are ready. */
  lemma {:induction false} ReadyToInform(env: Env, o: Owner, contexts: nat -> Context, v: V.Voucher, payloads: seq<EntryPayload>, info: ServiceInfo)
      returns (h: Hello)
    requires Honest(env, o, contexts, v, payloads, info)
    ensures
      var st := JointRun(env, o, contexts, |v.entries| + 3).device;
      st.phase == Informing(h, 0, false) && Untouched(st)
  {
    hide *;
    var n := |v.entries|;
    HonestParts(env, o, contexts, v, payloads, info);
    ReadyToProve(env, o, contexts, v, payloads, info);
    h := FirstHello(env, o, contexts, v);
    EveryRunInStep(env, o, contexts, n + 1);
    ProofAccepted(env, o, contexts(n + 1), JointRun(env, o, contexts, n + 1));
    var st1 := AcceptedStep(env, o, contexts, n + 1);
    LastAbsorbs(env, st1, Served(env, o, contexts(n + 1), JointRun(env, o, contexts, n + 1)).reply.body);
    var j2 := JointRun(env, o, contexts, n + 2);
    EveryRunInStep(env, o, contexts, n + 2);
    RestFits(env, o, j2);
    ServesRest(env, o, contexts(n + 2), j2);
    var st2 := AcceptedStep(env, o, contexts, n + 2);
    LastAbsorbs(env, st2, Served(env, o, contexts(n + 2), j2).reply.body);
    UntouchedSame(JointRun(env, o, contexts, n + 1).device, JointRun(env, o, contexts, n + 3).device);
  }

  /** The handler in the first two rounds. */
  lemma {:induction false} RoundHandled(c: Context, s: Session)
    requires S.SessionFields(s) && (s.last == Some(OwnerServiceInfoReady) || s.last == Some(OwnerServiceInfo))
    requires if s.last == Some(OwnerServiceInfoReady) then c.serviceInfo.Some? else s.loops == Some(1)
    ensures HandleServiceInfo(c, s) ==
      if s.last == Some(OwnerServiceInfoReady)
      then Ok((OwnerServiceInfoMsg(false, false, c.serviceInfo.value), s.(loops := Some(1))))
      else Ok((OwnerServiceInfoMsg(false, true, []), s.(loops := Some(2))))
  {
  }

  lemma {:induction false} InformingLast(st: DeviceState)
    requires st.phase.Informing? && R.ClientFits(st.client, st.phase)
    ensures st.client.last == Some(if st.phase.loops == 0 then OwnerServiceInfoReady else OwnerServiceInfo) && st.client.keys.Some?
  {
  }

  /** The request of a round, and what its handler is. */
  lemma {:induction false} RoundIs(env: Env, o: Owner, c: Context, s: Session, phase: Phase)
    requires phase.Informing?
    ensures Handle(o, WithHeader(env, c), s, NextRequest(env, phase)) == HandleServiceInfo(WithHeader(env, c), s)
    ensures WithHeader(env, c).serviceInfo == c.serviceInfo
  {
    hide HandleServiceInfo;
  }

  lemma {:induction false} SomeKeysMet(m: MessageType, keys: Option<Keys>)
    requires m == OwnerServiceInfo && keys.Some?
    ensures EncryptionMet(m, keys)
  {
  }

  /** The first two rounds of ServiceInfo are served. */
  lemma {:induction false} RoundServed(env: Env, o: Owner, c: Context, j: Joint, h: Hello, loops: nat, reboot: bool)
    requires InStep(env, o, j) && j.device.phase == Informing(h, loops, reboot)
    requires if loops == 0 then c.serviceInfo.Some? else j.session.loops == Some(1)
    ensures
      var e := Served(env, o, c, j);
      && e.Accepted? && e.session.loops == Some(if loops == 0 then 1 else 2)
      && e.reply.body == (if loops == 0 then OwnerServiceInfoMsg(false, false, c.serviceInfo.value) else OwnerServiceInfoMsg(false, true, []))
  {
    hide *;
    RestFits(env, o, j);
    InformingLast(j.device);
    RoundIs(env, o, c, j.session, j.device.phase);
    RoundHandled(WithHeader(env, c), j.session);
    FitsIsHandled(env, o, c, j);
    InfoType(if loops == 0 then OwnerServiceInfoMsg(false, false, c.serviceInfo.value) else OwnerServiceInfoMsg(false, true, []));
    SomeKeysMet(OwnerServiceInfo, j.session.keys);
  }

  lemma {:induction false} InfoType(reply: Reply)
    requires reply.OwnerServiceInfoMsg?
    ensures reply.Type() == OwnerServiceInfo
  {
  }

  lemma {:induction false} UntouchedSame(st: DeviceState, st': DeviceState)
    requires Untouched(st) && st'.effects == st.effects && st'.marked == st.marked && st'.deactivated == st.deactivated
    ensures Untouched(st')
  {
  }

  lemma {:induction false} UntouchedIs(st: DeviceState)
    requires Untouched(st)
    ensures st.effects == []
  {
  }

  /** An honest run completes: with `n` entries, after `n + 6` exchanges the device has performed
      exactly the effects of the server's ServiceInfo, left its marker, deactivated its credential
      and succeeded, and the session has ended. */
  lemma {:induction false} HonestRunCompletes(env: Env, o: Owner, contexts: nat -> Context, v: V.Voucher, payloads: seq<EntryPayload>,
                                             info: ServiceInfo)
    requires Honest(env, o, contexts, v, payloads, info)
    ensures
      var j := JointRun(env, o, contexts, |v.entries| + 6);
      var report := I.Process(After(env.machine, []), info);
      && report.result.Ok? && j.device.phase == Ended(Ok(report.result.value))
      && j.device.effects == report.log && j.device.marked && j.device.deactivated
      && j.session.last == Some(Done2)
  {
    hide *;
    var n := |v.entries|;
    HonestParts(env, o, contexts, v, payloads, info);
    var h := ReadyToInform(env, o, contexts, v, payloads, info);
    var j3 := JointRun(env, o, contexts, n + 3);
    EveryRunInStep(env, o, contexts, n + 3);
    UntouchedIs(j3.device);
    RoundServed(env, o, contexts(n + 3), j3, h, 0, false);
    var st3 := AcceptedStep(env, o, contexts, n + 3);
    FirstInfoAbsorbed(env, st3, h, info);
    var j4 := JointRun(env, o, contexts, n + 4);
    EveryRunInStep(env, o, contexts, n + 4);
    RoundServed(env, o, contexts(n + 4), j4, h, 1, j4.device.phase.reboot);
    var st4 := AcceptedStep(env, o, contexts, n + 4);
    LastAbsorbs(env, st4, Served(env, o, contexts(n + 4), j4).reply.body);
    var j5 := JointRun(env, o, contexts, n + 5);
    EveryRunInStep(env, o, contexts, n + 5);
    RestFits(env, o, j5);
    ServesRest(env, o, contexts(n + 5), j5);
    var st5 := AcceptedStep(env, o, contexts, n + 5);
    LastAbsorbs(env, st5, Served(env, o, contexts(n + 5), j5).reply.body);
    FailIs(st5, Ok(j5.device.phase.reboot));
  }

  lemma {:induction false} FailIs(st: DeviceState, r: To2Result<bool>)
    ensures Fail(st, r) == st.(phase := Ended(r))
  {
  }
}
