/** The voucher travels entry by entry: the device rebuilds exactly what the server stores, or, when
the eight-bit index wraps, nothing at all. */
module VoucherTransfers {
  import opened Outcomes
  import opened ByteStrings
  import opened Crypto
  import opened KeyExchanges
  import opened To2Messages
  import opened OwnerServers
  import opened DeviceClients
  import opened To2Runs
  import V = Vouchers
  import C = VoucherChain
  import R = ClientRuns
  import S = ServerRuns

  // ------------------------------------------------- what arrives

  predicate Printable(l: Platform, entries: seq<Bytes>) {
    forall i | 0 <= i < |entries| :: Reprint(l, entries[i]).Ok?
  }

  /** The entries, each parsed and printed. */
  function Reprinted(l: Platform, entries: seq<Bytes>): (r: seq<Bytes>)
    requires Printable(l, entries)
    ensures |r| == |entries|
  {
    seq(|entries|, i requires 0 <= i < |entries| => Reprint(l, entries[i]).value)
  }

  /** Printing again changes nothing: the server's print and the device's print are the same. */
  lemma {:induction false} ReprintTwice(l: Platform, entry: Bytes)
    requires Reprint(l, entry).Ok?
    ensures Reprint(l, Reprint(l, entry).value) == Reprint(l, entry)
  {
    C.SignedRoundTrip(l.p, entry);
    hide V.DecodeSigned, V.EncodeSigned;
  }

  // ------------------------------------------------- the run

  /** The server keeps this voucher for the device all along. */
  ghost predicate Stored(env: Env, o: Owner, contexts: nat -> Context, v: V.Voucher) {
    && GoodEnv(env, o) && PlatformLaws(env.platform) && |v.entries| < 0x1_0000
    && forall k: nat ::
         GoodContext(contexts(k)) && env.guid in contexts(k).vouchers && contexts(k).vouchers[env.guid] == v
  }

  /** The header message that opens the run. */
  function FirstPayload(env: Env, o: Owner, contexts: nat -> Context, v: V.Voucher): OVHdrPayload
    requires HeaderRaw(o.platform, v).Ok?
  {
    HelloReply(env, o, contexts(0), HeaderRaw(o.platform, v).value, v)
  }

  function FirstHello(env: Env, o: Owner, contexts: nat -> Context, v: V.Voucher): Hello
    requires HeaderRaw(o.platform, v).Ok?
  {
    var payload := FirstPayload(env, o, contexts, v);
    Hello(o.platform.p.sign(o.ownerKey, o.platform.encodeOVHdr(payload), contexts(0).nonce6), payload, contexts(0).nonce6)
  }

  /** The device recognises the header as its own. */
  predicate Recognised(env: Env, o: Owner, v: V.Voucher) {
    && HeaderRaw(o.platform, v).Ok?
    && env.hmac(v.hmac.kind, HeaderRaw(o.platform, v).value) == Some(v.hmac.value)
    && CheckManufacturer(env, HeaderRaw(o.platform, v).value).Ok?
  }

  /** An accepted request advances both sides. */
  lemma {:induction false} Advances(env: Env, o: Owner, c: Context, j: Joint) returns (st': DeviceState)
    requires GoodEnv(env, o) && PlatformLaws(env.platform) && InStep(env, o, j) && !j.device.phase.Ended?
    requires Served(env, o, c, j).Accepted?
    ensures Advanced(env, o, c, j, st')
  {
    R.InvFits(env, j.device);
    hide Served, R.Inv, S.SessionFields, PlatformLaws, JointStep, R.Answered, InStep, R.ClientFits;
    AcceptedIsUnderstood(env, o, c, j);
    UnderstoodIsAbsorbed(env, o, c, j);
    st' := Exchanging(env, j.device, ToResponse(o, Served(env, o, c, j))).0;
    KeysAfter(env, o, c, j, st');
  }

  /** Nothing but the messages and the phase. */
  predicate Untouched(st: DeviceState) {
    st.effects == [] && !st.marked && !st.deactivated
  }

  /** After the hello and `k` entries. */
  ghost predicate Collected(env: Env, o: Owner, contexts: nat -> Context, v: V.Voucher, j: Joint, k: nat)
    requires HeaderRaw(o.platform, v).Ok? && k <= |v.entries| && Printable(o.platform, v.entries)
  {
    var got := Reprinted(o.platform, v.entries)[..k];
    && Untouched(j.device) && j.device.client.kdf == Some(NonInteroperableHeader(o.interoperable))
    && j.session.guid == Some(env.guid) && Negotiated(env, j.session, FirstHello(env, o, contexts, v))
    && (k < |v.entries| ==> j.device.phase == Collecting(FirstHello(env, o, contexts, v), got))
    && (k == |v.entries| ==>
          j.device == AfterEntries(env, j.device.(phase := Greeting), FirstHello(env, o, contexts, v), got))
  }

  lemma {:induction false} CollectIsCollected(env: Env, st: DeviceState, h: Hello, got: seq<Bytes>)
    requires |got| <= h.payload.numEntries
    ensures
      var next := Collect(env, st, h, got);
      && next == st.(phase := next.phase)
      && (|got| < h.payload.numEntries ==> next.phase == Collecting(h, got))
      && (|got| == h.payload.numEntries ==> next == AfterEntries(env, next.(phase := Greeting), h, got))
  {
    hide VerifyOwner, DeriveKeys;
  }

  /** The checks on a header, passed one by one. */
  lemma {:induction false} HelloPasses(env: Env, signed: seq<Bytes>, h: OVHdrPayload, nonce6: Nonce)
    requires HelloPayload(env.platform, signed) == Some(h) && env.platform.unprotectedNonce(signed) == Some(nonce6)
    requires h.nonce5 == env.nonce5 && h.sigType == Secp384r1 && h.sigInfo == []
    requires env.hmac(h.hmac.kind, h.header) == Some(h.hmac.value) && CheckManufacturer(env, h.header).Ok?
    ensures CheckHello(env, signed) == Ok(Hello(signed, h, nonce6))
  {
    hide HelloPayload, CheckManufacturer;
  }

  lemma {:induction false} RecognisedHello(env: Env, o: Owner, contexts: nat -> Context, v: V.Voucher)
    requires Stored(env, o, contexts, v) && Recognised(env, o, v)
    ensures
      var h := FirstHello(env, o, contexts, v);
      CheckHello(env, h.signed) == Ok(h) && h.payload.numEntries == |v.entries|
  {
    hide PlatformLaws, CheckManufacturer, HeaderRaw, CheckHello, HelloPayload, GetPublic;
    var h := FirstHello(env, o, contexts, v);
    HelloUnderstood(env, o, contexts(0), h.payload);
    HelloPasses(env, h.signed, h.payload, h.nonce6);
  }

  lemma {:induction false} Greeted(env: Env, o: Owner, contexts: nat -> Context, v: V.Voucher)
    requires Stored(env, o, contexts, v) && Recognised(env, o, v) && Printable(o.platform, v.entries)
    ensures Collected(env, o, contexts, v, JointRun(env, o, contexts, 1), 0)
  {
    hide PlatformLaws, CheckHello, Recognised, CheckManufacturer, HeaderRaw, Collect, AfterEntries, Printable;
    assert JointRun(env, o, contexts, 0) == START;
    StartInStep(env, o);
    RecognisedHello(env, o, contexts, v);
    ServesHello(env, o, contexts(0), START);
    hide InStep, Served, NextRequest;
    assert HeaderRaw(o.platform, v).Ok? by { IsRecognised(env, o, v); }
    var st' := Advances(env, o, contexts(0), START);
    var h := FirstHello(env, o, contexts, v);
    CollectIsCollected(env, st', h, []);
    assert JointRun(env, o, contexts, 1) == JointStep(env, o, contexts(0), START);
    assert Reprinted(o.platform, v.entries)[..0] == [];
    hide JointStep, JointRun;
  }

  lemma {:induction false} IsRecognised(env: Env, o: Owner, v: V.Voucher)
    requires Recognised(env, o, v)
    ensures HeaderRaw(o.platform, v).Ok?
  {
  }

  lemma {:induction false} EntryAbsorbed(env: Env, st: DeviceState, h: Hello, got: seq<Bytes>, reply: Reply, entry: Bytes)
    requires st.phase == Collecting(h, got) && reply.OVNextEntryMsg? && Reprint(env.platform, reply.entry) == Ok(entry)
    ensures Absorb(env, st, reply) == if reply.num == |got| then Collect(env, st, h, got + [entry]) else Fail(st, Err(WrongEntry))
  {
    hide Reprint, Collect;
  }

  /** One exchange for an entry: the requested one comes back, printed. */
  lemma {:induction false} EntryExchanged(env: Env, o: Owner, v: V.Voucher, c: Context, j: Joint, h: Hello, got: seq<Bytes>)
      returns (st': DeviceState)
    requires GoodEnv(env, o) && PlatformLaws(env.platform) && InStep(env, o, j)
    requires GoodContext(c) && env.guid in c.vouchers && c.vouchers[env.guid] == v
    requires j.device.phase == Collecting(h, got) && j.session.guid == Some(env.guid)
    requires |got| % 256 < |v.entries| && Reprint(o.platform, v.entries[|got| % 256]).Ok?
    ensures
      var next, entry := JointStep(env, o, c, j), Reprint(o.platform, v.entries[|got| % 256]).value;
      && next.session == j.session.(last := Some(OVNextEntry))
      && st' == j.device.(client := st'.client, sent := st'.sent, received := st'.received)
      && st'.client.kdf == j.device.client.kdf
      && next.device == (if |got| < 256 then Collect(env, st', h, got + [entry]) else Fail(st', Err(WrongEntry)))
  {
    hide *;
    CollectingFits(env, o, j);
    ServesEntry(env, o, c, j);
    ReprintTwice(o.platform, v.entries[|got| % 256]);
    st' := Advances(env, o, c, j);
    AdvancedFacts(env, o, c, j, st');
    assert GoodEnv(env, o) ==> env.platform == o.platform by { SamePlatform(env, o); }
    EntryAbsorbed(env, st', h, got, Served(env, o, c, j).reply.body, Reprint(o.platform, v.entries[|got| % 256]).value);
  }

  lemma {:induction false} SamePlatform(env: Env, o: Owner)
    requires GoodEnv(env, o)
    ensures env.platform == o.platform
  {
  }

  lemma {:induction false} CollectingFits(env: Env, o: Owner, j: Joint)
    requires InStep(env, o, j) && j.device.phase.Collecting?
    ensures j.session.last == j.device.client.last == Some(if j.device.phase.got == [] then ProveOVHdr else OVNextEntry)
    ensures j.device.client.keys.None? && j.session.keys.None? && j.device.client.kdf.Some?
  {
    hide R.GoodHello, R.Transcript, S.SessionFields, PhaseInStep;
  }

  /** One more entry, below the wrap of the index. */
  lemma {:induction false} EntryArrives(env: Env, o: Owner, contexts: nat -> Context, v: V.Voucher, c: Context, j: Joint, k: nat)
    requires Stored(env, o, contexts, v) && HeaderRaw(o.platform, v).Ok? && Printable(o.platform, v.entries)
    requires GoodContext(c) && env.guid in c.vouchers && c.vouchers[env.guid] == v
    requires k < |v.entries| && k < 256 && InStep(env, o, j) && Collected(env, o, contexts, v, j, k)
    ensures Collected(env, o, contexts, v, JointStep(env, o, c, j), k + 1)
  {
    hide PlatformLaws, HeaderRaw, Collect, AfterEntries, Negotiated, Printable, Reprint, JointStep, InStep, FirstHello;
    var h, got := FirstHello(env, o, contexts, v), Reprinted(o.platform, v.entries)[..k];
    PrintableAt(o.platform, v.entries, k);
    var entry := Reprint(o.platform, v.entries[k]).value;
    var st' := EntryExchanged(env, o, v, c, j, h, got);
    assert Reprinted(o.platform, v.entries)[..k + 1] == got + [entry];
    CountOf(env, o, contexts, v);
    CollectIsCollected(env, st', h, got + [entry]);
    SameNegotiated(env, j.session, JointStep(env, o, c, j).session, h);
  }

  lemma {:induction false} CountOf(env: Env, o: Owner, contexts: nat -> Context, v: V.Voucher)
    requires HeaderRaw(o.platform, v).Ok? && |v.entries| < 0x1_0000
    ensures FirstHello(env, o, contexts, v).payload.numEntries == |v.entries|
  {
    hide HeaderRaw;
  }

  lemma {:induction false} PrintableAt(l: Platform, entries: seq<Bytes>, k: nat)
    requires Printable(l, entries) && k < |entries|
    ensures Reprint(l, entries[k]).Ok?
  {
  }

  /** Voucher transfer: after the hello and `k` more exchanges, `k` at most 256, the device holds
      exactly the first `k` entries of the server's voucher, printed. */
  lemma {:induction false} Transfer(env: Env, o: Owner, contexts: nat -> Context, v: V.Voucher, k: nat)
    requires Stored(env, o, contexts, v) && Recognised(env, o, v) && Printable(o.platform, v.entries)
    requires k <= |v.entries| && k <= 256
    ensures Collected(env, o, contexts, v, JointRun(env, o, contexts, k + 1), k)
    decreases k
  {
    hide Collected, PlatformLaws, Recognised, JointStep, InStep, Printable;
    if k == 0 {
      Greeted(env, o, contexts, v);
    } else {
      IsRecognised(env, o, v);
      Transfer(env, o, contexts, v, k - 1);
      EveryRunInStep(env, o, contexts, k);
      EntryArrives(env, o, contexts, v, contexts(k), JointRun(env, o, contexts, k), k - 1);
    }
  }

  /** With more than 256 entries the index wraps: the device asks for entry 0 where it expects entry
      256, and stops with nothing done. */
  lemma {:induction false} LongVouchersFail(env: Env, o: Owner, contexts: nat -> Context, v: V.Voucher)
    requires Stored(env, o, contexts, v) && Recognised(env, o, v) && Printable(o.platform, v.entries)
    requires |v.entries| > 256
    ensures var st := JointRun(env, o, contexts, 258).device; st.phase == Ended(Err(WrongEntry)) && Untouched(st)
  {
    IsRecognised(env, o, v);
    Transfer(env, o, contexts, v, 256);
    EveryRunInStep(env, o, contexts, 257);
    assert JointRun(env, o, contexts, 258) == JointStep(env, o, contexts(257), JointRun(env, o, contexts, 257));
    hide JointRun, Recognised;
    IndexWraps(env, o, contexts, v, contexts(257), JointRun(env, o, contexts, 257));
  }

  lemma {:induction false} IndexWraps(env: Env, o: Owner, contexts: nat -> Context, v: V.Voucher, c: Context, j: Joint)
    requires Stored(env, o, contexts, v) && HeaderRaw(o.platform, v).Ok? && Printable(o.platform, v.entries)
    requires GoodContext(c) && env.guid in c.vouchers && c.vouchers[env.guid] == v
    requires |v.entries| > 256 && InStep(env, o, j) && Collected(env, o, contexts, v, j, 256)
    ensures var st := JointStep(env, o, c, j).device; st.phase == Ended(Err(WrongEntry)) && Untouched(st)
  {
    hide PlatformLaws, HeaderRaw, Collect, AfterEntries, Negotiated, Printable, Reprint, JointStep, InStep, FirstHello;
    PrintableAt(o.platform, v.entries, 0);
    var st' := EntryExchanged(env, o, v, c, j, FirstHello(env, o, contexts, v), Reprinted(o.platform, v.entries)[..256]);
  }
}
