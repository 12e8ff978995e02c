/** From the factory to the owner: initialisation, any number of sales, and onboarding, end to end. */
module FactoryToOwner {
  import opened Outcomes
  import opened ByteStrings
  import opened Crypto
  import opened KeyExchanges
  import opened To2Messages
  import opened OwnerServers
  import opened DeviceClients
  import opened To2Runs
  import opened VoucherTransfers
  import opened To2Completion
  import opened DeviceInits
  import ServiceInfos
  import ServiceInfoApi
  import E = OnboardingEffects
  import V = Vouchers
  import C = VoucherChain
  import I = DeviceInterpreter

  /** The manufacture of one device. */
  datatype Manufacture = Manufacture(m: Manufacturer, deviceInfo: string, chain: Bytes, chainDer: Bytes, credential: Credential)

  function MadeHeader(env: Env, f: Manufacture): V.Header {
    DeviceHeader(env.platform.p, f.m, env.guid, f.deviceInfo, f.chainDer)
  }

  /** The device went through initialisation with this manufacturer, and `v` is its voucher after
      the sales `ts`. */
  ghost predicate MadeAndSold(env: Env, f: Manufacture, ts: seq<C.Transfer>, v: V.Voucher) {
    var p := env.platform.p;
    var sent := V.SerializeHeader(MadeHeader(env, f));
    && sent.Ok? && PerformDi(p, env.hmac, sent.value) == Ok(f.credential)
    && env.manufacturerHash == f.credential.manufacturerHash
    && env.platform.leafKey(f.chain) == Some(p.publicOf(env.sk))
    && var first := NewDeviceVoucher(p, f.m, MadeHeader(env, f), f.credential.hmac, f.chain);
       first.Ok? && C.ExtendAll(p, first.value, ts) == Ok(v)
  }

  /** All sales, with the one at the factory. */
  function AllSales(m: Manufacturer, ts: seq<C.Transfer>): seq<C.Transfer> {
    if m.key.Some? && m.ownerCertificate.Some? then [C.Transfer(m.key.value, None, m.ownerCertificate.value)] + ts else ts
  }

  lemma {:induction false} SoldFromNew(env: Env, f: Manufacture, ts: seq<C.Transfer>, v: V.Voucher)
    requires MadeAndSold(env, f, ts, v)
    ensures
      var made := V.NewVoucher(env.platform.p, MadeHeader(env, f), f.credential.hmac, Some(f.chain));
      made.Ok? && C.ExtendAll(env.platform.p, made.value, AllSales(f.m, ts)) == Ok(v)
  {
    hide V.Extend, V.NewVoucher, V.SerializeHeader, PerformDi, DeviceHeader;
    var all := AllSales(f.m, ts);
    if f.m.key.Some? {
      assert all[0] == C.Transfer(f.m.key.value, None, f.m.ownerCertificate.value) && all[1..] == ts;
    }
  }

  /** The printable device information is part of a made header. */
  lemma {:induction false} MadeIsPrintable(env: Env, f: Manufacture, ts: seq<C.Transfer>, v: V.Voucher)
    requires MadeAndSold(env, f, ts, v) && CodecLaws(env.platform.p)
    ensures V.AcceptableInfo(f.deviceInfo)
  {
    HeaderSentIff(env.platform.p, f.m, env.guid, f.deviceInfo, f.chainDer);
    hide V.SerializeHeader, PerformDi, CodecLaws, NewDeviceVoucher, DeviceHeader;
  }

  lemma {:induction false} SoldIsPristine(env: Env, f: Manufacture, ts: seq<C.Transfer>, v: V.Voucher)
    requires MadeAndSold(env, f, ts, v) && Laws(env.platform.p)
    ensures
      Pristine(env.platform, v, MadeHeader(env, f), V.SerializeHeader(MadeHeader(env, f)).value, f.credential.hmac, f.chain)
    ensures C.GoodHeader(env.platform.p, MadeHeader(env, f))
  {
    MadeIsPrintable(env, f, ts, v);
    SoldFromNew(env, f, ts, v);
    DeviceHeaderIsGood(env.platform.p, f.m, env.guid, f.deviceInfo, f.chainDer);
    SentOk(env, f, ts, v);
    hide MadeAndSold, C.ExtendAll, V.NewVoucher, Pristine, V.SerializeHeader, C.GoodHeader, DeviceHeader;
    var header := MadeHeader(env, f);
    var bytes := V.SerializeHeader(header).value;
    NewIsPristine(env.platform, header, bytes, f.credential.hmac, f.chain);
    ExtendsStayPristine(env.platform, V.NewVoucher(env.platform.p, header, f.credential.hmac, Some(f.chain)).value,
                        header, bytes, f.credential.hmac, f.chain, AllSales(f.m, ts));
  }

  lemma {:induction false} SentOk(env: Env, f: Manufacture, ts: seq<C.Transfer>, v: V.Voucher)
    requires MadeAndSold(env, f, ts, v)
    ensures var sent := V.SerializeHeader(MadeHeader(env, f));
            sent.Ok? && PerformDi(env.platform.p, env.hmac, sent.value) == Ok(f.credential)
    ensures env.manufacturerHash == f.credential.manufacturerHash
    ensures env.platform.leafKey(f.chain) == Some(env.platform.p.publicOf(env.sk))
  {
    hide V.SerializeHeader, PerformDi, NewDeviceVoucher, DeviceHeader, C.ExtendAll;
  }

  // ------------------------------------------------- what the owner has

  /** The owner's server keeps the voucher as it was stored, and delivers the ServiceInfo compiled
      from a configuration. */
  ghost predicate Serves(env: Env, o: Owner, contexts: nat -> Context, v: V.Voucher, info: ServiceInfos.ServiceInfo) {
    && GoodEnv(env, o) && PlatformLaws(env.platform) && V.SerializeVoucher(v).Ok?
    && forall k: nat ::
         && GoodContext(contexts(k)) && contexts(k).serviceInfo == Some(info) && env.guid in contexts(k).vouchers
         && V.DeserializeVoucher(env.platform.p, V.SerializeVoucher(v).value) == Ok(contexts(k).vouchers[env.guid])
  }

  lemma {:induction false} ServesStored(env: Env, o: Owner, contexts: nat -> Context, v: V.Voucher, info: ServiceInfos.ServiceInfo)
    requires Serves(env, o, contexts, v, info) && |v.entries| < 0x1_0000
    requires V.DeserializeVoucher(env.platform.p, V.SerializeVoucher(v).value) == Ok(v)
    ensures Stored(env, o, contexts, v) && forall k: nat :: contexts(k).serviceInfo == Some(info)
  {
    hide PlatformLaws, V.SerializeVoucher, V.DeserializeVoucher, GoodContext;
  }

  /** The last buyer is this owner. */
  ghost predicate SoldTo(env: Env, o: Owner, sales: seq<C.Transfer>) {
    && |sales| >= 1 && sales[|sales| - 1].next.pkey == env.platform.p.publicOf(o.ownerKey)
    && env.platform.p.verify(env.platform.p.publicOf(o.ownerKey), env.to1d)
  }

  lemma {:induction false} SoldIsOwned(env: Env, f: Manufacture, o: Owner, ts: seq<C.Transfer>, v: V.Voucher)
      returns (payloads: seq<EntryPayload>)
    requires Laws(env.platform.p) && MadeAndSold(env, f, ts, v) && SoldTo(env, o, AllSales(f.m, ts))
    ensures OwnedBy(env, o, v, payloads) && |v.entries| == |AllSales(f.m, ts)|
  {
    SoldIsPristine(env, f, ts, v);
    SoldFromNew(env, f, ts, v);
    hide *;
    payloads := C.BuiltVouchersVerify(env.platform.p, MadeHeader(env, f), f.credential.hmac, Some(f.chain), AllSales(f.m, ts));
    C.VerifiedIffEntryWise(env.platform.p, v, payloads);
    LastBuyerOwns(env, o, v, payloads, AllSales(f.m, ts));
  }

  lemma {:induction false} LastBuyerOwns(env: Env, o: Owner, v: V.Voucher, payloads: seq<EntryPayload>, sales: seq<C.Transfer>)
    requires C.EntryWise(env.platform.p, v, payloads) && |payloads| == |sales| && SoldTo(env, o, sales)
    requires forall i | 0 <= i < |sales| :: payloads[i].key == sales[i].next && payloads[i].extra == sales[i].extra
    ensures OwnedBy(env, o, v, payloads) && |v.entries| == |sales|
  {
    hide C.EntryWise;
    Counted(env.platform.p, v, payloads);
  }

  lemma {:induction false} Counted(p: Primitives, v: V.Voucher, payloads: seq<EntryPayload>)
    requires C.EntryWise(p, v, payloads)
    ensures |payloads| == |v.entries|
  {
  }

  /** The configuration can be carried out on this machine. */
  ghost predicate Feasible(env: Env, cfg: ServiceInfoApi.Configuration, modules: set<ServiceInfos.Module>) {
    var d := After(env.machine, []);
    && ServiceInfos.ValueLaw(d.codec) && E.DigestLaw(d.digest) && E.Applicable(cfg, modules)
    && E.Execute(d, [], E.Configured(d, cfg, modules)).1
    && env.markerWorks && env.deactivationWorks
  }

  /** What the API server's answer becomes on its way to the device. */
  function ConfiguredInfo(env: Env, cfg: ServiceInfoApi.Configuration, modules: set<ServiceInfos.Module>): Option<ServiceInfos.ServiceInfo> {
    var d := After(env.machine, []);
    match ServiceInfoApi.Messages(ServiceInfoApi.Compile(d.digest, cfg, modules))
    case Ok(messages) => Some(ServiceInfos.AddAll(d.codec, [], messages))
    case _ => None
  }

  /** What the owner's server keeps is what the device expects. */
  lemma {:induction false} SoldIsReady(env: Env, o: Owner, f: Manufacture, ts: seq<C.Transfer>, v: V.Voucher, contexts: nat -> Context,
                                      info: ServiceInfos.ServiceInfo) returns (payloads: seq<EntryPayload>)
    requires MadeAndSold(env, f, ts, v) && SoldTo(env, o, AllSales(f.m, ts)) && Serves(env, o, contexts, v, info)
    ensures Stored(env, o, contexts, v) && Recognised(env, o, v) && AsBuilt(env.platform, v) && OwnedBy(env, o, v, payloads)
    ensures DeviceKey(env.platform, v) == Some(env.platform.p.publicOf(env.sk)) && |v.entries| == |AllSales(f.m, ts)|
    ensures forall k: nat :: contexts(k).serviceInfo == Some(info)
  {
    hide *;
    ServesParts(env, o, contexts, v, info);
    SoldIsPristine(env, f, ts, v);
    SentOk(env, f, ts, v);
    MadeIsPrintable(env, f, ts, v);
    var header := MadeHeader(env, f);
    var bytes := V.SerializeHeader(header).value;
    MadeHeaderIs(env, f);
    HonestDeviceAccepts(env, o, f.m, f.deviceInfo, f.chainDer, f.credential, v, f.chain);
    PristineIsStored(env.platform, v, header, bytes, f.credential.hmac, f.chain);
    PristineIsBuilt(env.platform, v, header, bytes, f.credential.hmac, f.chain);
    BuiltCount(env.platform, v);
    payloads := SoldIsOwned(env, f, o, ts, v);
    ServesStored(env, o, contexts, v, info);
    ChainKey(env.platform, v, header, bytes, f.credential.hmac, f.chain);
  }

  /** The whole way: a device initialised by its manufacturer, sold any number of times up to 256, the
      last time to this owner, and onboarded by the owner's server with any applicable configuration,
      ends up configured exactly as configured, and knows it. */
  lemma {:induction false} DeviceIsOnboarded(env: Env, o: Owner, f: Manufacture, ts: seq<C.Transfer>, v: V.Voucher,
                                            contexts: nat -> Context, cfg: ServiceInfoApi.Configuration,
                                            modules: set<ServiceInfos.Module>)
    requires MadeAndSold(env, f, ts, v) && SoldTo(env, o, AllSales(f.m, ts)) && |AllSales(f.m, ts)| <= 256
    requires Feasible(env, cfg, modules) && ConfiguredInfo(env, cfg, modules).Some?
    requires Serves(env, o, contexts, v, ConfiguredInfo(env, cfg, modules).value) && SharesSecret(env, contexts)
    ensures
      var j := JointRun(env, o, contexts, |v.entries| + 6);
      var d := After(env.machine, []);
      && j.device.phase == Ended(Ok(E.ConfiguredReboot(cfg, modules)))
      && E.Applicable(cfg, modules) && j.device.effects == E.Execute(d, [], E.Configured(d, cfg, modules)).0
      && j.device.marked && j.device.deactivated && j.session.last == Some(Done2)
  {
    hide *;
    var info := ConfiguredInfo(env, cfg, modules).value;
    FeasibleParts(env, cfg, modules);
    var payloads := SoldIsReady(env, o, f, ts, v, contexts, info);
    HonestFromParts(env, o, contexts, v, payloads, info);
    HonestRunCompletes(env, o, contexts, v, payloads, info);
  }

  /** Once the device has ended, it stays as it is. */
  lemma {:induction false} EndedStays(env: Env, o: Owner, contexts: nat -> Context, k: nat, n: nat)
    requires k <= n && JointRun(env, o, contexts, k).device.phase.Ended?
    ensures JointRun(env, o, contexts, n) == JointRun(env, o, contexts, k)
    decreases n
  {
    hide Served, Step;
    if k < n {
      EndedStays(env, o, contexts, k, n - 1);
    }
  }

  /** The exact condition of success: such a device is ever onboarded if and only if it was sold at most
      256 times. After more sales it gives up untouched. */
  lemma {:induction false} OnboardedIffSoldAtMost256(env: Env, o: Owner, f: Manufacture, ts: seq<C.Transfer>, v: V.Voucher,
                                                    contexts: nat -> Context, cfg: ServiceInfoApi.Configuration,
                                                    modules: set<ServiceInfos.Module>)
    requires MadeAndSold(env, f, ts, v) && SoldTo(env, o, AllSales(f.m, ts))
    requires Feasible(env, cfg, modules) && ConfiguredInfo(env, cfg, modules).Some?
    requires Serves(env, o, contexts, v, ConfiguredInfo(env, cfg, modules).value) && SharesSecret(env, contexts)
    ensures (exists n: nat :: Succeeded(JointRun(env, o, contexts, n).device)) <==> |AllSales(f.m, ts)| <= 256
    ensures |AllSales(f.m, ts)| > 256 ==> Untouched(JointRun(env, o, contexts, 258).device)
  {
    hide *;
    if |AllSales(f.m, ts)| <= 256 {
      DeviceIsOnboarded(env, o, f, ts, v, contexts, cfg, modules);
      SucceededIs(JointRun(env, o, contexts, |v.entries| + 6).device);
    } else {
      var payloads := SoldIsReady(env, o, f, ts, v, contexts, ConfiguredInfo(env, cfg, modules).value);
      ServesParts(env, o, contexts, v, ConfiguredInfo(env, cfg, modules).value);
      BuiltIsPrinted(env.platform, v);
      LongVouchersFail(env, o, contexts, v);
      SucceededIs(JointRun(env, o, contexts, 258).device);
      if n: nat :| Succeeded(JointRun(env, o, contexts, n).device) {
        SucceededIs(JointRun(env, o, contexts, n).device);
        if n <= 258 {
          EndedStays(env, o, contexts, n, 258);
        } else {
          EndedStays(env, o, contexts, 258, n);
        }
      }
    }
  }

  predicate Succeeded(st: DeviceState) {
    st.phase.Ended? && st.phase.result.Ok?
  }

  lemma {:induction false} SucceededIs(st: DeviceState)
    ensures Succeeded(st) <==> st.phase.Ended? && st.phase.result.Ok?
  {
  }

  lemma {:induction false} BuiltCount(l: Platform, v: V.Voucher)
    requires AsBuilt(l, v)
    ensures |v.entries| < 0x1_0000
  {
    hide C.Consistent, HeaderRaw, Reprint;
  }

  lemma {:induction false} MadeHeaderIs(env: Env, f: Manufacture)
    ensures MadeHeader(env, f) == DeviceHeader(env.platform.p, f.m, env.guid, f.deviceInfo, f.chainDer)
  {
    hide DeviceHeader;
  }

  lemma {:induction false} ChainKey(l: Platform, v: V.Voucher, header: V.Header, bytes: Bytes, hmac: Hash, chain: Bytes)
    requires Pristine(l, v, header, bytes, hmac, chain)
    ensures DeviceKey(l, v) == l.leafKey(chain)
  {
    hide C.Good, Reprint, HeaderRaw;
  }

  lemma {:induction false} ServesParts(env: Env, o: Owner, contexts: nat -> Context, v: V.Voucher, info: ServiceInfos.ServiceInfo)
    requires Serves(env, o, contexts, v, info)
    ensures GoodEnv(env, o) && env.platform == o.platform && PlatformLaws(env.platform) && Laws(env.platform.p) && CodecLaws(env.platform.p)
  {
    hide V.SerializeVoucher, V.DeserializeVoucher, CodecLaws, SignLaws, CurveLaws;
  }

  lemma {:induction false} FeasibleParts(env: Env, cfg: ServiceInfoApi.Configuration, modules: set<ServiceInfos.Module>)
    requires Feasible(env, cfg, modules) && ConfiguredInfo(env, cfg, modules).Some?
    ensures E.Applicable(cfg, modules) && env.markerWorks && env.deactivationWorks
    ensures
      var d := After(env.machine, []);
      I.Process(d, ConfiguredInfo(env, cfg, modules).value) ==
        I.Report(E.Execute(d, [], E.Configured(d, cfg, modules)).0, Ok(E.ConfiguredReboot(cfg, modules)))
  {
    var d := After(env.machine, []);
    E.ConfigurationTakesEffect(d, cfg, modules);
    hide I.Process, E.Execute, E.Configured, E.ConfiguredReboot, E.Applicable, After, ServiceInfoApi.Messages,
         ServiceInfoApi.Compile, ServiceInfos.AddAll, ServiceInfos.ValueLaw, E.DigestLaw;
  }

  lemma {:induction false} HonestFromParts(env: Env, o: Owner, contexts: nat -> Context, v: V.Voucher, payloads: seq<EntryPayload>,
                                          info: ServiceInfos.ServiceInfo)
    requires Stored(env, o, contexts, v) && Recognised(env, o, v) && AsBuilt(env.platform, v)
    requires OwnedBy(env, o, v, payloads) && |v.entries| <= 256
    requires DeviceKey(env.platform, v) == Some(env.platform.p.publicOf(env.sk)) && SharesSecret(env, contexts)
    requires forall k: nat :: contexts(k).serviceInfo == Some(info)
    requires I.Process(After(env.machine, []), info).result.Ok? && env.markerWorks && env.deactivationWorks
    ensures Honest(env, o, contexts, v, payloads, info)
  {
    hide Stored, Recognised, AsBuilt, OwnedBy, DeviceKey, SharesSecret, I.Process, After;
  }
}
