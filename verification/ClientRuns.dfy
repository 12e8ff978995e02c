/** Every run of the device, whatever the network answers: nothing happens to the machine before the
owner has proved itself. */
module ClientRuns {
  import opened Outcomes
  import opened ByteStrings
  import opened Crypto
  import opened KeyExchanges
  import opened ServiceInfos
  import opened To2Messages
  import opened DeviceClients
  import V = Vouchers
  import I = DeviceInterpreter
  import C = VoucherChain
  import VoucherObjects

  // ------------------------------------------------- what authentication means

  /** The device's own credential confirms the ProveOVHdr: it answers this run's nonce, and its
      header carries the device's HMAC and names the device's manufacturer. */
  ghost predicate FromOurManufacturer(env: Env, signed: seq<Bytes>, h: OVHdrPayload) {
    && HelloPayload(env.platform, signed) == Some(h)
    && h.nonce5 == env.nonce5
    && env.hmac(h.hmac.kind, h.header) == Some(h.hmac.value)
    && var header := V.DeserializeHeader(env.platform.p, h.header);
       header.Ok? && env.platform.p.digest(env.manufacturerHash.kind, header.value.raw[4]) == env.manufacturerHash.value
  }

  /** The chain of owners: complete, verified entry by entry from the manufacturer's key on, and its
      last owner signed both the ProveOVHdr and the address that led here. */
  ghost predicate OwnerProved(env: Env, signed: seq<Bytes>, h: OVHdrPayload, entries: seq<Bytes>,
                              v: V.Voucher, payloads: seq<EntryPayload>) {
    var p := env.platform.p;
    && |entries| == h.numEntries >= 1 && v.entries == entries
    && V.DeserializeHeader(p, h.header) == Ok(v.header)
    && v.contents[1] == p.encode(BytesLeaf(h.header)) && v.contents[2] == p.encode(HashLeaf(h.hmac))
    && C.EntryWise(p, v, payloads)
    && var owner := payloads[|payloads| - 1].key.pkey;
       p.verify(owner, signed) && p.verify(owner, env.to1d)
  }

  /** The messages that led to the proof: one header, then every entry under its number. */
  ghost predicate Transcript(env: Env, received: seq<Wire<Reply>>, signed: seq<Bytes>, entries: seq<Bytes>) {
    && |received| >= |entries| + 1 && received[0] == Wire(None, ProveOVHdrMsg(signed))
    && forall i | 0 <= i < |entries| :: IsEntry(env, received[i + 1], i, entries[i])
  }

  predicate IsEntry(env: Env, w: Wire<Reply>, num: nat, entry: Bytes) {
    w.keys.None? && w.body.OVNextEntryMsg? && w.body.num == num && Reprint(env.platform, w.body.entry) == Ok(entry)
  }

  /** All that has to be shown to exist. */
  datatype Evidence = Evidence(
    signed: seq<Bytes>,
    payload: OVHdrPayload,
    entries: seq<Bytes>,
    voucher: V.Voucher,
    payloads: seq<EntryPayload>)

  ghost predicate Proof(env: Env, received: seq<Wire<Reply>>, e: Evidence) {
    && Transcript(env, received, e.signed, e.entries)
    && FromOurManufacturer(env, e.signed, e.payload)
    && OwnerProved(env, e.signed, e.payload, e.entries, e.voucher, e.payloads)
  }

  /** The keys come from the verified payload. */
  predicate KeysFrom(env: Env, payload: OVHdrPayload, kdf: Option<bool>, keys: Keys) {
    kdf.Some? && keys.cipher == CIPHER &&
    DeriveKey(env.platform.curve, env.Kex(), Device, CIPHER, payload.aKeyExchange, kdf.value, env.interoperable) == Ok(keys.key)
  }

  /** The replies that were read under the session keys: all after the entries. */
  ghost predicate Sealed(received: seq<Wire<Reply>>, from: nat, keys: Keys) {
    forall i | from <= i < |received| :: received[i].keys == Some(keys)
  }

  /** The effects of a list of ServiceInfo messages, one after the other. */
  function Replay(d: I.Device, infos: seq<ServiceInfo>): seq<I.Effect> {
    if infos == [] then []
    else
      var before := Replay(d, infos[..|infos| - 1]);
      before + I.Process(After(d, before), infos[|infos| - 1]).log
  }

  /** The ServiceInfo messages that were processed, in the order they were received. */
  ghost predicate Processed(received: seq<Wire<Reply>>, from: nat, infos: seq<ServiceInfo>) {
    forall j | 0 <= j < |infos| ::
      from + j < |received| && IsInfo(received[from + j], infos[j])
  }

  predicate IsInfo(w: Wire<Reply>, info: ServiceInfo) {
    w.body == OwnerServiceInfoMsg(false, false, info)
  }

  /** The owner is authenticated, its keys are installed, and every effect so far comes from messages
      read under these keys. */
  ghost predicate Authenticated(env: Env, st: DeviceState, e: Evidence, infos: seq<ServiceInfo>) {
    && Proof(env, st.received, e)
    && st.client.keys.Some? && KeysFrom(env, e.payload, st.client.kdf, st.client.keys.value)
    && |st.received| >= |e.entries| + 2 && Sealed(st.received, |e.entries| + 1, st.client.keys.value)
    && Processed(st.received, |e.entries| + 3, infos)
    && st.effects == Replay(env.machine, infos)
  }

  predicate Touched(st: DeviceState) {
    st.effects != [] || st.marked || st.deactivated
  }

  // ------------------------------------------------- the invariant

  /** What is known of the hello held in a phase. */
  ghost predicate GoodHello(env: Env, h: Hello) {
    FromOurManufacturer(env, h.signed, h.payload)
  }

  /** Refusals of the client by itself. */
  predicate SelfRefusal(r: To2Result<bool>) {
    r.Err? && (r.error.InvalidSequenceRequest? || r.error.InvalidSequenceResponse? ||
               r.error.RequestEncryption? || r.error.ResponseEncryption? || r.error.NoKdfFlag?)
  }

  ghost predicate CollectingInv(env: Env, st: DeviceState, h: Hello, got: seq<Bytes>) {
    && GoodHello(env, h) && Transcript(env, st.received, h.signed, got) && |got| <= h.payload.numEntries
    && |st.received| == |got| + 1 && !Touched(st)
    && st.client.last == Some(if got == [] then ProveOVHdr else OVNextEntry) && st.client.keys.None? && st.client.kdf.Some?
  }

  ghost predicate ProvingInv(env: Env, st: DeviceState, h: Hello, keys: Keys) {
    && !Touched(st) && st.client.last == Some(OVNextEntry) && st.client.keys.None?
    && KeysFrom(env, h.payload, st.client.kdf, keys) && ProvedAt(env, st.received, h)
  }

  ghost predicate ProvedAt(env: Env, received: seq<Wire<Reply>>, h: Hello) {
    exists e: Evidence :: e.signed == h.signed && e.payload == h.payload && Proof(env, received, e) &&
                          |received| == |e.entries| + 1
  }

  ghost predicate InformingInv(env: Env, st: DeviceState, h: Hello, loops: nat) {
    && !st.marked && !st.deactivated && st.client.last == Some(if loops == 0 then OwnerServiceInfoReady else OwnerServiceInfo)
    && exists infos: seq<ServiceInfo> :: |infos| == loops && ReadyAt(env, st, h, 3 + loops, infos)
  }

  ghost predicate SomehowAuthenticated(env: Env, st: DeviceState) {
    exists e: Evidence, infos: seq<ServiceInfo> :: Authenticated(env, st, e, infos)
  }

  ghost predicate Inv(env: Env, st: DeviceState) {
    match st.phase
    case Greeting => st == INITIAL
    case Collecting(h, got) => CollectingInv(env, st, h, got) && |got| < h.payload.numEntries
    case Proving(h, keys) => ProvingInv(env, st, h, keys)
    case Readying(h) => !Touched(st) && st.client.last == Some(SetupDevice) && ReadyAt(env, st, h, 2, [])
    case Informing(h, loops, _) => InformingInv(env, st, h, loops) && loops < MAX_LOOPS
    case Finishing(h, _) =>
      st.client.last == Some(OwnerServiceInfo) && SomehowAuthenticated(env, st) && st.marked && st.deactivated
    case Ended(r) =>
      && !SelfRefusal(r) && (Touched(st) || r.Ok? ==> SomehowAuthenticated(env, st))
      && (r.Ok? ==> st.marked && st.deactivated)
  }

  /** Authenticated, with exactly so many replies after the entries. */
  ghost predicate ReadyAt(env: Env, st: DeviceState, h: Hello, extra: nat, infos: seq<ServiceInfo>) {
    exists e: Evidence :: e.signed == h.signed && e.payload == h.payload && Authenticated(env, st, e, infos) &&
                          |st.received| == |e.entries| + extra
  }

  // ------------------------------------------------- single checks

  lemma {:induction false} CheckedHello(env: Env, signed: seq<Bytes>)
    requires CheckHello(env, signed).Ok?
    ensures var h := CheckHello(env, signed).value; h.signed == signed && GoodHello(env, h)
    ensures
      var h := CheckHello(env, signed).value;
      h.payload.sigType == Secp384r1 && h.payload.sigInfo == [] && env.platform.unprotectedNonce(signed) == Some(h.nonce6)
  {
    hide V.DeserializeHeader;
  }

  /** What `VerifyOwner` has verified. */
  lemma {:induction false} VerifiedOwner(env: Env, h: Hello, entries: seq<Bytes>) returns (e: Evidence)
    requires GoodHello(env, h) && |entries| == h.payload.numEntries && VerifyOwner(env, h, entries).Ok?
    ensures VerifyOwner(env, h, entries).value == h.payload
    ensures e.signed == h.signed && e.payload == h.payload && e.entries == entries
    ensures OwnerProved(env, e.signed, e.payload, e.entries, e.voucher, e.payloads)
  {
    hide V.LastYield, C.Verified, C.EntryWise, V.DeserializeHeader;
    var p := env.platform.p;
    var v := V.FromParts(p, Version1_1, h.payload.header, h.payload.hmac, entries).value;
    PartsKeepEntries(p, h.payload.header, h.payload.hmac, entries);
    var last := V.LastYield(p, v).value.value;
    VoucherObjects.LastIsOkIffVerified(p, v, last);
    var payloads: seq<EntryPayload> :| C.Verified(p, v, payloads) && payloads != [] && payloads[|payloads| - 1] == last;
    C.VerifiedIffEntryWise(p, v, payloads);
    SameLength(p, v, payloads);
    e := Evidence(h.signed, h.payload, entries, v, payloads);
  }

  lemma {:induction false} SameLength(p: Primitives, v: V.Voucher, payloads: seq<EntryPayload>)
    requires C.EntryWise(p, v, payloads)
    ensures |payloads| == |v.entries|
  {
  }

  lemma {:induction false} PartsKeepEntries(p: Primitives, header: Bytes, hmac: Hash, entries: seq<Bytes>)
    requires V.FromParts(p, Version1_1, header, hmac, entries).Ok?
    ensures
      var v := V.FromParts(p, Version1_1, header, hmac, entries).value;
      && v.entries == entries && V.DeserializeHeader(p, header) == Ok(v.header)
      && v.contents[1] == p.encode(BytesLeaf(header)) && v.contents[2] == p.encode(HashLeaf(hmac))
  {
    hide V.DeserializeHeader;
  }

  // ------------------------------------------------- monotonicity

  lemma {:induction false} ProofGrows(env: Env, received: seq<Wire<Reply>>, w: Wire<Reply>, e: Evidence)
    requires Proof(env, received, e)
    ensures Proof(env, received + [w], e)
  {
    hide FromOurManufacturer, OwnerProved, IsEntry;
    var all := received + [w];
    assert all[0] == received[0];
    forall i | 0 <= i < |e.entries| ensures IsEntry(env, all[i + 1], i, e.entries[i]) {
      assert IsEntry(env, received[i + 1], i, e.entries[i]);
    }
  }

  lemma {:induction false} AuthenticatedSame(env: Env, st: DeviceState, st': DeviceState, e: Evidence, infos: seq<ServiceInfo>)
    requires Authenticated(env, st, e, infos)
    requires st'.client.keys == st.client.keys && st'.client.kdf == st.client.kdf
    requires st'.effects == st.effects && st'.received == st.received
    ensures Authenticated(env, st', e, infos)
  {
    hide Proof, Replay, KeysFrom, Sealed, Processed;
  }

  /** One more reply, opened under the same keys, changes nothing about authentication. */
  lemma {:induction false} AuthenticatedGrows(env: Env, st: DeviceState, st': DeviceState, e: Evidence, infos: seq<ServiceInfo>,
                                             w: Wire<Reply>)
    requires Authenticated(env, st, e, infos)
    requires st'.client.keys == st.client.keys && st'.client.kdf == st.client.kdf && st'.effects == st.effects
    requires st'.received == st.received + [w] && w.keys == st.client.keys
    ensures Authenticated(env, st', e, infos)
  {
    hide Proof, Replay, KeysFrom, Processed;
    ProofGrows(env, st.received, w, e);
    ProcessedGrows(st.received, |e.entries| + 3, infos, w);
  }

  lemma {:induction false} ProcessedGrows(received: seq<Wire<Reply>>, from: nat, infos: seq<ServiceInfo>, w: Wire<Reply>)
    requires Processed(received, from, infos)
    ensures Processed(received + [w], from, infos)
  {
    hide IsInfo;
    var all := received + [w];
    forall j | 0 <= j < |infos| ensures from + j < |all| && IsInfo(all[from + j], infos[j]) {
      var info := infos[j];
      assert all[from + j] == received[from + j];
    }
  }

  /** Processing one more ServiceInfo message. */
  lemma {:induction false} ReplayGrows(d: I.Device, infos: seq<ServiceInfo>, info: ServiceInfo)
    ensures Replay(d, infos + [info]) == Replay(d, infos) + I.Process(After(d, Replay(d, infos)), info).log
  {
    hide I.Process;
    assert (infos + [info])[..|infos + [info]| - 1] == infos;
  }

  // ------------------------------------------------- one step

  /** The last message type and the presence of keys, phase by phase. */
  predicate ClientFits(c: Client, phase: Phase) {
    match phase
    case Greeting => c.last.None? && c.keys.None?
    case Collecting(_, got) => c.last == Some(if got == [] then ProveOVHdr else OVNextEntry) && c.keys.None?
    case Proving(_, _) => c.last == Some(OVNextEntry) && c.keys.None?
    case Readying(_) => c.last == Some(SetupDevice) && c.keys.Some?
    case Informing(_, loops, _) => c.last == Some(if loops == 0 then OwnerServiceInfoReady else OwnerServiceInfo) && c.keys.Some?
    case Finishing(_, _) => c.last == Some(OwnerServiceInfo) && c.keys.Some?
    case Ended(_) => true
  }

  lemma {:induction false} InvFits(env: Env, st: DeviceState)
    requires Inv(env, st)
    ensures ClientFits(st.client, st.phase)
  {
    hide GoodHello, Transcript, KeysFrom, ProvedAt, ReadyAt, Authenticated;
    if st.phase.Readying? {
      HasKeys(env, st, st.phase.hello, 2, []);
    } else if st.phase.Informing? {
      var infos: seq<ServiceInfo> :| ReadyAt(env, st, st.phase.hello, 3 + st.phase.loops, infos);
      HasKeys(env, st, st.phase.hello, 3 + st.phase.loops, infos);
    } else if st.phase.Finishing? {
      var e: Evidence, infos: seq<ServiceInfo> :| Authenticated(env, st, e, infos);
      KeysOf(env, st, e, infos);
    }
  }

  /** The client never stands in its own way. */
  lemma {:induction false} NeverRefused(env: Env, st: DeviceState)
    requires ClientFits(st.client, st.phase) && !st.phase.Ended?
    ensures Refusal(st.client, NextRequest(env, st.phase).Type(), Expected(st.phase), SwitchedKeys(st.phase)).None?
  {
  }

  /** A failed exchange touches nothing. */
  lemma {:induction false} FailedExchange(env: Env, st: DeviceState, resp: Response)
    requires !st.phase.Ended? && !Exchanging(env, st, resp).1.Ok?
    requires Refusal(st.client, NextRequest(env, st.phase).Type(), Expected(st.phase), SwitchedKeys(st.phase)).None?
    ensures
      var (st', r) := Exchanging(env, st, resp);
      && r.Err? && !SelfRefusal(Err(r.error)) && Step(env, st, resp) == Fail(st', Err(r.error))
      && st'.effects == st.effects && st'.received == st.received
      && st'.marked == st.marked && st'.deactivated == st.deactivated
      && (st.client.kdf.Some? ==> st'.client.kdf == st.client.kdf)
      && (!st.phase.Proving? ==> st'.client.keys == st.client.keys)
  {
    hide Refusal, NextRequest;
  }

  /** The state `st'` is `st` after a successful exchange with this reply. */
  predicate Answered(env: Env, st: DeviceState, st': DeviceState, reply: Reply)
    requires !st.phase.Ended?
  {
    && reply.Type() == Expected(st.phase)
    && st' == st.(client := st'.client, sent := st'.sent, received := st.received + [Wire(st'.client.keys, reply)])
    && st'.client.last == Some(Expected(st.phase)) && st'.client.kdf.Some?
    && (st.client.kdf.Some? ==> st'.client.kdf == st.client.kdf)
    && st'.client.keys == (if st.phase.Proving? then Some(st.phase.newKeys) else st.client.keys)
    && st'.sent == st.sent + [Posted(st.client.token, Wire(st.client.keys, NextRequest(env, st.phase)))]
  }

  lemma {:induction false} GoodExchange(env: Env, st: DeviceState, resp: Response)
    requires !st.phase.Ended? && Exchanging(env, st, resp).1.Ok?
    ensures
      var (st', r) := Exchanging(env, st, resp);
      Answered(env, st, st', r.value) && Step(env, st, resp) == Absorb(env, st', r.value)
  {
    ExchangedReply(st.client, NextRequest(env, st.phase), Expected(st.phase), SwitchedKeys(st.phase), resp);
    hide NextRequest, Exchange, Absorb;
  }

  /** Asking for the next entry, or going on after the last one. */
  lemma {:induction false} CollectKeepsInv(env: Env, st: DeviceState, h: Hello, got: seq<Bytes>)
    requires CollectingInv(env, st, h, got)
    ensures Inv(env, Collect(env, st, h, got))
  {
    hide GoodHello, Transcript, AfterEntries;
    if |got| == h.payload.numEntries {
      AfterEntriesInv(env, st, h, got);
    }
  }

  lemma {:induction false} AfterEntriesInv(env: Env, st: DeviceState, h: Hello, got: seq<Bytes>)
    requires CollectingInv(env, st, h, got) && |got| == h.payload.numEntries
    ensures Inv(env, AfterEntries(env, st, h, got))
  {
    var r := VerifyOwner(env, h, got);
    NotSelfRefused(env, h, got);
    hide VerifyOwner, Transcript, GoodHello, DeriveKey, ProvedAt;
    if r.Ok? {
      EntriesWereProved(env, st, h, got);
    }
  }

  lemma {:induction false} NotSelfRefused(env: Env, h: Hello, got: seq<Bytes>)
    ensures var r := VerifyOwner(env, h, got); r.Err? ==> !SelfRefusal(Err(r.error))
  {
    hide V.FromParts, V.LastYield, HelloPayload;
  }

  lemma {:induction false} EntriesWereProved(env: Env, st: DeviceState, h: Hello, got: seq<Bytes>)
    requires CollectingInv(env, st, h, got) && |got| == h.payload.numEntries && VerifyOwner(env, h, got).Ok?
    ensures |got| >= 1 && ProvedAt(env, st.received, h) && VerifyOwner(env, h, got).value == h.payload
  {
    hide Transcript, FromOurManufacturer, VerifyOwner, OwnerProved;
    var e := VerifiedOwner(env, h, got);
    OneEntry(env, e);
    assert Proof(env, st.received, e);
  }

  lemma {:induction false} OneEntry(env: Env, e: Evidence)
    requires OwnerProved(env, e.signed, e.payload, e.entries, e.voucher, e.payloads)
    ensures |e.entries| >= 1
  {
  }

  lemma {:induction false} HelloKeepsInv(env: Env, st: DeviceState, st': DeviceState, reply: Reply)
    requires st == INITIAL && reply.ProveOVHdrMsg? && Answered(env, st, st', reply)
    ensures Inv(env, AbsorbHello(env, st', reply))
  {
    var r := CheckHello(env, reply.signed);
    hide GoodHello, Collect, Reprint, NextRequest;
    HelloErrors(env, reply.signed);
    hide CheckHello;
    if r.Ok? {
      CheckedHello(env, reply.signed);
      assert st'.received == [Wire(None, ProveOVHdrMsg(reply.signed))];
      CollectKeepsInv(env, st', r.value, []);
    }
  }

  lemma {:induction false} HelloErrors(env: Env, signed: seq<Bytes>)
    ensures var r := CheckHello(env, signed); r.Err? ==> !SelfRefusal(Err(r.error))
  {
    hide HelloPayload, V.DeserializeHeader, V.ManufacturerKeyHash, V.Compare;
  }

  lemma {:induction false} TranscriptGrows(env: Env, received: seq<Wire<Reply>>, signed: seq<Bytes>, got: seq<Bytes>, w: Wire<Reply>, b: Bytes)
    requires Transcript(env, received, signed, got) && |received| == |got| + 1
    requires w.keys.None? && w.body.OVNextEntryMsg? && w.body.num == |got| && Reprint(env.platform, w.body.entry) == Ok(b)
    ensures Transcript(env, received + [w], signed, got + [b])
  {
    hide Reprint;
    var all, more := received + [w], got + [b];
    forall i | 0 <= i < |more| ensures IsEntry(env, all[i + 1], i, more[i]) {
      if i < |got| {
        assert IsEntry(env, received[i + 1], i, got[i]);
      }
    }
  }

  lemma {:induction false} ReprintErrors(l: Platform, entry: Bytes)
    ensures var r := Reprint(l, entry); r.Err? ==> !SelfRefusal(Err(r.error))
  {
    hide V.DecodeSigned, V.EncodeSigned;
  }

  lemma {:induction false} EntryKeepsInv(env: Env, st: DeviceState, st': DeviceState, reply: Reply)
    requires st.phase.Collecting? && reply.OVNextEntryMsg? && Answered(env, st, st', reply)
    requires |st.phase.got| < st.phase.hello.payload.numEntries && CollectingInv(env, st, st.phase.hello, st.phase.got)
    ensures Inv(env, AbsorbEntry(env, st', st.phase.hello, st.phase.got, reply))
  {
    hide GoodHello, Collect, Transcript, Reprint, NextRequest;
    var h, got := st.phase.hello, st.phase.got;
    ReprintErrors(env.platform, reply.entry);
    var r := Reprint(env.platform, reply.entry);
    if r.Ok? && reply.num == |got| {
      TranscriptGrows(env, st.received, h.signed, got, Wire(st'.client.keys, reply), r.value);
      CollectKeepsInv(env, st', h, got + [r.value]);
    }
  }

  lemma {:induction false} ProvingKeepsInv(env: Env, st: DeviceState, st': DeviceState, reply: Reply)
    requires st.phase.Proving? && Answered(env, st, st', reply) && ProvingInv(env, st, st.phase.hello, st.phase.newKeys)
    ensures Inv(env, st'.(phase := Readying(st.phase.hello)))
  {
    hide Proof, KeysFrom, NextRequest;
    var h, next := st.phase.hello, st'.(phase := Readying(st.phase.hello));
    var e: Evidence :| e.signed == h.signed && e.payload == h.payload && Proof(env, st.received, e) &&
                       |st.received| == |e.entries| + 1;
    ProofGrows(env, st.received, Wire(st'.client.keys, reply), e);
    KdfOfKeys(env, h.payload, st.client.kdf, st.phase.newKeys);
    assert Authenticated(env, next, e, []);
    assert ReadyAt(env, next, h, 2, []);
  }

  lemma {:induction false} KdfOfKeys(env: Env, payload: OVHdrPayload, kdf: Option<bool>, keys: Keys)
    requires KeysFrom(env, payload, kdf, keys)
    ensures kdf.Some?
  {
  }

  /** Phases with an authenticated owner, after another good exchange. */
  lemma {:induction false} ReadyGrows(env: Env, st: DeviceState, st': DeviceState, h: Hello, extra: nat, infos: seq<ServiceInfo>,
                                     w: Wire<Reply>)
    requires ReadyAt(env, st, h, extra, infos)
    requires st'.client.keys == st.client.keys && st'.client.kdf == st.client.kdf && st'.effects == st.effects
    requires st'.received == st.received + [w] && w.keys == st.client.keys
    ensures ReadyAt(env, st', h, extra + 1, infos)
  {
    hide Authenticated;
    var e: Evidence :| e.signed == h.signed && e.payload == h.payload && Authenticated(env, st, e, infos) &&
                       |st.received| == |e.entries| + extra;
    AuthenticatedGrows(env, st, st', e, infos, w);
  }

  /** Only these parts of a state matter. */
  lemma {:induction false} ReadySame(env: Env, st: DeviceState, st': DeviceState, h: Hello, extra: nat, infos: seq<ServiceInfo>)
    requires ReadyAt(env, st, h, extra, infos)
    requires st'.client == st.client && st'.effects == st.effects && st'.received == st.received
    ensures ReadyAt(env, st', h, extra, infos)
  {
    hide Authenticated;
    var e: Evidence :| e.signed == h.signed && e.payload == h.payload && Authenticated(env, st, e, infos) &&
                       |st.received| == |e.entries| + extra;
    AuthenticatedSame(env, st, st', e, infos);
  }

  lemma {:induction false} HasKeys(env: Env, st: DeviceState, h: Hello, extra: nat, infos: seq<ServiceInfo>)
    requires ReadyAt(env, st, h, extra, infos)
    ensures st.client.kdf.Some? && st.client.keys.Some?
  {
    hide Authenticated;
    var e: Evidence :| e.signed == h.signed && Authenticated(env, st, e, infos);
    KeysOf(env, st, e, infos);
  }

  lemma {:induction false} KeysOf(env: Env, st: DeviceState, e: Evidence, infos: seq<ServiceInfo>)
    requires Authenticated(env, st, e, infos)
    ensures st.client.kdf.Some? && st.client.keys.Some?
  {
    hide Proof, Replay, DeriveKey, Sealed, Processed;
  }

  lemma {:induction false} ReadyingKeepsInv(env: Env, st: DeviceState, st': DeviceState, reply: Reply)
    requires Inv(env, st) && st.phase.Readying? && Answered(env, st, st', reply)
    ensures Inv(env, st'.(phase := Informing(st.phase.hello, 0, false)))
  {
    hide ReadyAt, NextRequest;
    var h := st.phase.hello;
    var next := st'.(phase := Informing(h, 0, false));
    HasKeys(env, st, h, 2, []);
    ReadyGrows(env, st, next, h, 2, [], Wire(st'.client.keys, reply));
  }

  /** A processed ServiceInfo message, seen from the authenticated state. */
  lemma {:induction false} AuthenticatedInfo(env: Env, st: DeviceState, st': DeviceState, e: Evidence, infos: seq<ServiceInfo>,
                                            info: ServiceInfo)
    requires Authenticated(env, st, e, infos) && |st.received| == |e.entries| + 3 + |infos| + 1
    requires IsInfo(st.received[|st.received| - 1], info)
    requires st'.client == st.client && st'.received == st.received
    requires st'.effects == st.effects + I.Process(After(env.machine, st.effects), info).log
    ensures Authenticated(env, st', e, infos + [info])
  {
    hide Proof, KeysFrom, I.Process, Sealed, After;
    ReplayGrows(env.machine, infos, info);
    hide Replay, Processed;
    OneMoreProcessed(st.received, |e.entries| + 3, infos, info);
  }

  lemma {:induction false} OneMoreProcessed(received: seq<Wire<Reply>>, from: nat, infos: seq<ServiceInfo>, info: ServiceInfo)
    requires Processed(received, from, infos) && from + |infos| < |received| && IsInfo(received[from + |infos|], info)
    ensures Processed(received, from, infos + [info])
  {
    hide IsInfo;
    var all := infos + [info];
    forall j | 0 <= j < |all| ensures from + j < |received| && IsInfo(received[from + j], all[j]) {
      if j < |infos| {
        var same := infos[j];
        assert all[j] == same;
      }
    }
  }

  lemma {:induction false} ReadyInfo(env: Env, st: DeviceState, st': DeviceState, h: Hello, infos: seq<ServiceInfo>, info: ServiceInfo)
    requires ReadyAt(env, st, h, 4 + |infos|, infos)
    requires |st.received| > 0 && IsInfo(st.received[|st.received| - 1], info)
    requires st'.client == st.client && st'.received == st.received
    requires st'.effects == st.effects + I.Process(After(env.machine, st.effects), info).log
    ensures ReadyAt(env, st', h, 4 + |infos|, infos + [info])
  {
    hide Authenticated, I.Process, After;
    var e: Evidence :| e.signed == h.signed && e.payload == h.payload && Authenticated(env, st, e, infos) &&
                       |st.received| == |e.entries| + (4 + |infos|);
    AuthenticatedInfo(env, st, st', e, infos, info);
  }

  lemma {:induction false} InfoKeepsInv(env: Env, st: DeviceState, st': DeviceState, reply: Reply)
    requires st.phase.Informing? && reply.OwnerServiceInfoMsg? && Answered(env, st, st', reply)
    requires InformingInv(env, st, st.phase.hello, st.phase.loops)
    ensures Inv(env, AbsorbInfo(env, st', st.phase.hello, st.phase.loops, st.phase.reboot, reply))
  {
    hide ReadyAt, I.Process, After, SomehowAuthenticated, NextRequest;
    var h, loops := st.phase.hello, st.phase.loops;
    var infos: seq<ServiceInfo> :| |infos| == loops && ReadyAt(env, st, h, 3 + loops, infos);
    HasKeys(env, st, h, 3 + loops, infos);
    ReadyGrows(env, st, st', h, 3 + loops, infos, Wire(st'.client.keys, reply));
    var next := AbsorbInfo(env, st', h, loops, st.phase.reboot, reply);
    if reply.done || reply.more {
      ReadySame(env, st', next, h, 4 + loops, infos);
      ReadyIsAuthenticated(env, next, h, 4 + loops, infos);
    } else {
      ReadyInfo(env, st', next, h, infos, reply.info);
      ReadyIsAuthenticated(env, next, h, 4 + loops, infos + [reply.info]);
      assert |infos + [reply.info]| == loops + 1;
    }
  }

  lemma {:induction false} ReadyIsAuthenticated(env: Env, st: DeviceState, h: Hello, extra: nat, infos: seq<ServiceInfo>)
    requires ReadyAt(env, st, h, extra, infos)
    ensures SomehowAuthenticated(env, st)
  {
    hide Authenticated;
  }

  lemma {:induction false} FinishingKeepsInv(env: Env, st: DeviceState, st': DeviceState, reply: Reply, r: To2Result<bool>)
    requires Inv(env, st) && st.phase.Finishing? && Answered(env, st, st', reply) && !SelfRefusal(r)
    ensures Inv(env, Fail(st', r))
  {
    hide Authenticated, NextRequest;
    var e: Evidence, infos: seq<ServiceInfo> :| Authenticated(env, st, e, infos);
    KeysOf(env, st, e, infos);
    AuthenticatedGrows(env, st, Fail(st', r), e, infos, Wire(st'.client.keys, reply));
  }

  lemma {:induction false} FailureKeepsInv(env: Env, st: DeviceState, resp: Response)
    requires Inv(env, st) && !st.phase.Ended? && !Exchanging(env, st, resp).1.Ok?
    ensures Inv(env, Step(env, st, resp))
  {
    InvFits(env, st);
    NeverRefused(env, st);
    FailedExchange(env, st, resp);
    hide Inv, Exchanging, Step, SomehowAuthenticated, NextRequest, Refusal, ClientFits;
    var (st', r) := Exchanging(env, st, resp);
    if Touched(st) {
      TouchedIsAuthenticated(env, st);
      SomehowSame(env, st, Fail(st', Err(r.error)));
    }
    FailInv(env, st', Err(r.error));
  }

  lemma {:induction false} SomehowSame(env: Env, st: DeviceState, st': DeviceState)
    requires SomehowAuthenticated(env, st)
    requires st'.client.keys == st.client.keys && (st.client.kdf.Some? ==> st'.client.kdf == st.client.kdf)
    requires st'.effects == st.effects && st'.received == st.received
    ensures SomehowAuthenticated(env, st')
  {
    hide Authenticated;
    var e: Evidence, infos: seq<ServiceInfo> :| Authenticated(env, st, e, infos);
    KeysOf(env, st, e, infos);
    AuthenticatedSame(env, st, st', e, infos);
  }

  lemma {:induction false} FailInv(env: Env, st: DeviceState, r: To2Result<bool>)
    requires !SelfRefusal(r) && !r.Ok? && (Touched(st) ==> SomehowAuthenticated(env, Fail(st, r)))
    ensures Inv(env, Fail(st, r))
  {
    hide Authenticated;
  }

  lemma {:induction false} TouchedIsAuthenticated(env: Env, st: DeviceState)
    requires Inv(env, st) && (Touched(st) || (st.phase.Ended? && st.phase.result.Ok?))
    ensures SomehowAuthenticated(env, st) && !st.phase.Proving?
  {
    hide ReadyAt, GoodHello, Transcript, KeysFrom, ProvedAt, SomehowAuthenticated;
    if st.phase.Informing? {
      var infos: seq<ServiceInfo> :| ReadyAt(env, st, st.phase.hello, 3 + st.phase.loops, infos);
      ReadyIsAuthenticated(env, st, st.phase.hello, 3 + st.phase.loops, infos);
    }
  }

  lemma {:induction false} AbsorbKeepsInv(env: Env, st: DeviceState, st': DeviceState, reply: Reply)
    requires Inv(env, st) && !st.phase.Ended? && Answered(env, st, st', reply)
    ensures Inv(env, Absorb(env, st', reply))
  {
    hide Answered, CollectingInv, ProvingInv, InformingInv, ReadyAt, SomehowAuthenticated, AbsorbHello, AbsorbEntry, AbsorbInfo;
    SamePhase(env, st, st', reply);
    match st.phase {
      case Greeting => HelloKeepsInv(env, st, st', reply);
      case Collecting(_, _) => EntryKeepsInv(env, st, st', reply);
      case Proving(_, _) => ProvingKeepsInv(env, st, st', reply);
      case Readying(_) => ReadyingKeepsInv(env, st, st', reply);
      case Informing(_, _, _) => InfoKeepsInv(env, st, st', reply);
      case Finishing(_, reboot) =>
        FinishingKeepsInv(env, st, st', reply, if reply.nonce7 == env.nonce7 then Ok(reboot) else Err(WrongNonce7));
    }
  }

  lemma {:induction false} SamePhase(env: Env, st: DeviceState, st': DeviceState, reply: Reply)
    requires !st.phase.Ended? && Answered(env, st, st', reply)
    ensures st'.phase == st.phase && reply.Type() == Expected(st.phase)
    ensures st.phase.Greeting? ==> reply.ProveOVHdrMsg?
    ensures st.phase.Collecting? ==> reply.OVNextEntryMsg?
    ensures st.phase.Informing? ==> reply.OwnerServiceInfoMsg?
  {
  }

  lemma {:induction false} StepKeepsInv(env: Env, st: DeviceState, resp: Response)
    requires Inv(env, st)
    ensures Inv(env, Step(env, st, resp))
  {
    if !st.phase.Ended? {
      hide Inv, Exchanging, Step, Answered, Absorb;
      var (st', r) := Exchanging(env, st, resp);
      if r.Ok? {
        GoodExchange(env, st, resp);
        SamePhase(env, st, st', r.value);
        AbsorbKeepsInv(env, st, st', r.value);
      } else {
        FailureKeepsInv(env, st, resp);
      }
    }
  }

  // ------------------------------------------------- all runs

  lemma {:induction false} EveryRunKeepsInv(env: Env, network: nat -> Response, n: nat)
    ensures Inv(env, RunDevice(env, network, n))
    decreases n
  {
    hide Step, Inv;
    if n == 0 {
      assert Inv(env, INITIAL) by { InitialInv(env); }
    } else {
      EveryRunKeepsInv(env, network, n - 1);
      StepKeepsInv(env, RunDevice(env, network, n - 1), network(n - 1));
    }
  }

  lemma {:induction false} InitialInv(env: Env)
    ensures Inv(env, INITIAL)
  {
  }

  /** The main result: whatever the network answers, once anything at all has happened to the machine
      - an effect, the marker, the deactivation - or the device reports success, the whole chain of
      checks has succeeded, the session keys come from the verified header, and the effects are
      those of ServiceInfo messages read under these keys, in order. */
  lemma {:induction false} NothingBeforeAuthentication(env: Env, network: nat -> Response, n: nat)
      returns (e: Evidence, infos: seq<ServiceInfo>)
    requires
      var st := RunDevice(env, network, n);
      Touched(st) || (st.phase.Ended? && st.phase.result.Ok?)
    ensures Authenticated(env, RunDevice(env, network, n), e, infos)
  {
    hide RunDevice, Authenticated, Inv;
    EveryRunKeepsInv(env, network, n);
    TouchedIsAuthenticated(env, RunDevice(env, network, n));
    e, infos :| Authenticated(env, RunDevice(env, network, n), e, infos);
  }

  /** The client's own checks of sequence and encryption never stop it. */
  lemma {:induction false} NoSelfRefusal(env: Env, network: nat -> Response, n: nat)
    ensures var st := RunDevice(env, network, n); st.phase.Ended? ==> !SelfRefusal(st.phase.result)
  {
    hide RunDevice, SomehowAuthenticated, CollectingInv, ProvingInv, InformingInv, ReadyAt;
    EveryRunKeepsInv(env, network, n);
  }
}
