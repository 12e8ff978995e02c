/** The premises of the end-to-end theorems can be met, for every number of sales that fits into a
voucher: a device is made, sold and onboarded, or sold too often. */
module Scenario {
  import opened Outcomes
  import opened ByteStrings
  import opened Crypto
  import opened KeyExchanges
  import opened To2Messages
  import opened OwnerServers
  import opened DeviceClients
  import opened To2Runs
  import opened To2Completion
  import opened DeviceInits
  import opened FactoryToOwner
  import opened Consistency
  import ServiceInfos
  import ServiceInfoApi
  import E = OnboardingEffects
  import V = Vouchers
  import C = VoucherChain
  import I = DeviceInterpreter

  const MAKER: PrivateKey := 1
  const OWNER: PrivateKey := 2
  const DEVICE: PrivateKey := 7

  const FACTORY := Manufacturer([], PublicKey([], MAKER), None, None)
  const NOTHING := ServiceInfoApi.Configuration(None, None, None, None, None)

  function Zeros(n: nat): (r: Bytes)
    ensures |r| == n
  {
    seq(n, _ => 0)
  }

  /** A machine on which everything works. */
  ghost function Machine(): I.Device {
    I.Device(ServiceInfos.ValueCodec(VALUE, (b: Bytes) => Inverse(VALUE, b)), (k: HashType, b: Bytes) => Zeros(k.DigestSize()), None,
             (log: seq<I.Effect>, e: I.Effect) => I.Succeeded)
  }

  ghost function Device(secret: (HashType, Bytes) -> Option<Bytes>, manufacturerHash: Hash): Env {
    Env(Toy(DEVICE), [1], secret, manufacturerHash, DEVICE, true, Sign(OWNER, [], []), [3], [4], 0,
        Zeros(48), [], Machine(), true, true)
  }

  lemma {:induction false} NothingIsFeasible(env: Env)
    requires env.machine == Machine() && env.markerWorks && env.deactivationWorks
    ensures Feasible(env, NOTHING, {}) && ConfiguredInfo(env, NOTHING, {}).Some?
  {
    LawsAreConsistent(DEVICE);
    var d := After(env.machine, []);
    assert E.Configured(d, NOTHING, {}) == [];
    hide Toy, Inverse, PlatformLaws, I.Process;
    E.ConfigurationTakesEffect(d, NOTHING, {});
  }

  lemma {:induction false} ToyFacts(leafKey: nat)
    ensures Laws(Toy(leafKey).p) && CodecLaws(Toy(leafKey).p)
    ensures forall sk: PrivateKey :: Toy(leafKey).p.publicOf(sk) == sk
    ensures forall chain: Bytes :: Toy(leafKey).leafKey(chain) == Some(leafKey)
    ensures forall sk: PrivateKey :: Toy(leafKey).p.verify(sk, Sign(sk, [], []))
  {
    LawsAreConsistent(leafKey);
    hide Wrap, Inverse, SignLaws, CodecLaws;
  }

  const SALE := C.Transfer(MAKER, None, PublicKey([], OWNER))
  const RESALE := C.Transfer(OWNER, None, PublicKey([], OWNER))

  /** Sold to the owner, who sells to itself any number of times. */
  function Sales(n: nat): seq<C.Transfer>
    requires n >= 1
  {
    [SALE] + Resales(n - 1)
  }

  function Resales(n: nat): (r: seq<C.Transfer>)
    ensures |r| == n
  {
    if n == 0 then [] else [RESALE] + Resales(n - 1)
  }

  lemma {:induction false} LastSale(n: nat)
    requires n >= 1
    ensures |Sales(n)| == n && Sales(n)[n - 1].next == PublicKey([], OWNER)
  {
    ResalesAre(n - 1);
  }

  lemma {:induction false} ResalesAre(n: nat)
    ensures forall i | 0 <= i < n :: Resales(n)[i] == RESALE
  {
    if n > 0 {
      ResalesAre(n - 1);
    }
  }

  /** Whoever owns a voucher can sell it, up to the last entry it has room for. */
  lemma {:induction false} CanBeResold(p: Primitives, v: V.Voucher, payloads: seq<EntryPayload>, n: nat)
    requires Laws(p) && C.Good(p, v) && C.Verified(p, v, payloads) && |payloads| + n <= 0xffff
    requires |payloads| == |v.entries| && C.SignerKey(v, payloads, |payloads|).pkey == p.publicOf(OWNER) == OWNER
    ensures C.ExtendAll(p, v, Resales(n)).Ok?
    decreases n
  {
    hide V.Extend, C.Good, C.Verified, Laws;
    if n > 0 {
      var w := SoldOn(p, v, payloads, OWNER);
      var added := V.NextPayload(p, v, OWNER, None, PublicKey([], OWNER)).value;
      CanBeResold(p, w, payloads + [added], n - 1);
      assert Resales(n)[1..] == Resales(n - 1);
    }
  }

  /** One sale to the owner. */
  lemma {:induction false} SoldOn(p: Primitives, v: V.Voucher, payloads: seq<EntryPayload>, sk: PrivateKey) returns (w: V.Voucher)
    requires Laws(p) && C.Good(p, v) && C.Verified(p, v, payloads) && |payloads| == |v.entries| < 0xffff
    requires C.SignerKey(v, payloads, |payloads|).pkey == p.publicOf(sk) && p.publicOf(OWNER) == OWNER
    ensures V.Extend(p, v, sk, None, PublicKey([], OWNER)) == Ok(w) && V.NextPayload(p, v, sk, None, PublicKey([], OWNER)).Ok?
    ensures
      var more := payloads + [V.NextPayload(p, v, sk, None, PublicKey([], OWNER)).value];
      && C.Good(p, w) && C.Verified(p, w, more) && |more| == |w.entries|
      && C.SignerKey(w, more, |more|).pkey == p.publicOf(OWNER)
  {
    hide V.Extend, V.NextPayload, C.Good, C.Verified, Laws;
    C.ExtendSucceedsIff(p, v, payloads, sk, None, PublicKey([], OWNER));
    w := V.Extend(p, v, sk, None, PublicKey([], OWNER)).value;
    C.ExtendIsGood(p, v, sk, None, PublicKey([], OWNER));
    C.ExtendVerifies(p, v, payloads, sk, None, PublicKey([], OWNER));
    C.LengthOf(p, w, payloads + [V.NextPayload(p, v, sk, None, PublicKey([], OWNER)).value]);
  }

  /** The fresh voucher belongs to its maker, who can sell it, and so on. */
  lemma {:induction false} CanBeSold(p: Primitives, header: V.Header, hmac: Hash, n: nat)
    requires Laws(p) && C.GoodHeader(p, header) && header.manufacturerKey.pkey == p.publicOf(MAKER) && p.publicOf(OWNER) == OWNER
    requires 1 <= n <= 0xffff
    ensures V.NewVoucher(p, header, hmac, Some([9])).Ok?
    ensures C.ExtendAll(p, V.NewVoucher(p, header, hmac, Some([9])).value, Sales(n)).Ok?
  {
    C.NewIsGood(p, header, hmac, Some([9]));
    FirstOwner(p, header, hmac, [9]);
    var first := V.NewVoucher(p, header, hmac, Some([9])).value;
    hide V.Extend, V.NewVoucher, C.Good, C.GoodHeader, C.Verified, Laws;
    var w := SoldOn(p, first, [], MAKER);
    CanBeResold(p, w, [] + [V.NextPayload(p, first, MAKER, None, PublicKey([], OWNER)).value], n - 1);
    assert Sales(n)[1..] == Resales(n - 1);
  }

  lemma {:induction false} FirstOwner(p: Primitives, header: V.Header, hmac: Hash, chain: Bytes)
    requires V.NewVoucher(p, header, hmac, Some(chain)).Ok?
    ensures
      var v := V.NewVoucher(p, header, hmac, Some(chain)).value;
      C.Verified(p, v, []) && C.SignerKey(v, [], 0) == header.manufacturerKey && v.entries == [] && v.version == Version1_1
  {
  }

  lemma {:induction false} MadeFromParts(env: Env, f: Manufacture, v: V.Voucher, ts: seq<C.Transfer>)
    requires f.m.key.None? && f.chain == [9] && env.platform.leafKey(f.chain) == Some(env.platform.p.publicOf(env.sk))
    requires
      var sent := V.SerializeHeader(MadeHeader(env, f));
      sent.Ok? && PerformDi(env.platform.p, env.hmac, sent.value) == Ok(f.credential)
    requires env.manufacturerHash == f.credential.manufacturerHash
    requires
      var first := V.NewVoucher(env.platform.p, MadeHeader(env, f), f.credential.hmac, Some([9]));
      first.Ok? && C.ExtendAll(env.platform.p, first.value, ts) == Ok(v)
    ensures MadeAndSold(env, f, ts, v)
  {
    hide V.SerializeHeader, PerformDi, V.NewVoucher, C.ExtendAll, DeviceHeader;
  }

  lemma {:induction false} MakerKey(p: Primitives, guid: Guid)
    ensures DeviceHeader(p, FACTORY, guid, "", []).manufacturerKey.pkey == MAKER
  {
  }

  /** A made device, and its voucher after `n` sales. */
  lemma {:induction false} SoldTimes(env: Env, f: Manufacture, n: nat) returns (v: V.Voucher)
    requires env.platform == Toy(DEVICE) && env.sk == DEVICE && env.manufacturerHash == f.credential.manufacturerHash
    requires f == Manufacture(FACTORY, "", [9], [], f.credential) && FACTORY.key.None? && 1 <= n <= 0xffff
    requires
      var sent := V.SerializeHeader(MadeHeader(env, f));
      sent.Ok? && PerformDi(env.platform.p, env.hmac, sent.value) == Ok(f.credential)
    ensures MadeAndSold(env, f, Sales(n), v)
  {
    hide *;
    ToyFacts(DEVICE);
    var p, header := env.platform.p, MadeHeader(env, f);
    MadeHeaderIs(env, f);
    assert V.AcceptableInfo("") by { EmptyInfo(); }
    DeviceHeaderIsGood(p, FACTORY, env.guid, "", []);
    MakerKey(p, env.guid);
    CanBeSold(p, header, f.credential.hmac, n);
    v := C.ExtendAll(p, V.NewVoucher(p, header, f.credential.hmac, Some([9])).value, Sales(n)).value;
    MadeFromParts(env, f, v, Sales(n));
  }

  lemma {:induction false} EmptyInfo()
    ensures V.AcceptableInfo("")
  {
  }

  ghost function Keeping(guid: Guid, v: V.Voucher, info: ServiceInfos.ServiceInfo): nat -> Context {
    (k: nat) => Context(map[guid := v], false, [5], 0, Zeros(48), [2], Some(info))
  }

  lemma {:induction false} OwnerServes(env: Env, o: Owner, v: V.Voucher, info: ServiceInfos.ServiceInfo)
    requires env.platform == o.platform && PlatformLaws(env.platform) && env.kexRandom == Zeros(48) && env.nonce7 != []
    requires V.SerializeVoucher(v).Ok? && V.DeserializeVoucher(env.platform.p, V.SerializeVoucher(v).value) == Ok(v)
    ensures Serves(env, o, Keeping(env.guid, v, info), v, info)
  {
    hide PlatformLaws, V.SerializeVoucher, V.DeserializeVoucher;
  }

  lemma {:induction false} ToyShares(env: Env, contexts: nat -> Context)
    requires env.platform == Toy(DEVICE)
    ensures SharesSecret(env, contexts)
  {
    hide Inverse, Wrap;
  }

  lemma {:induction false} SoldToOwner(env: Env, o: Owner, n: nat)
    requires env.platform == Toy(DEVICE) && env.to1d == Sign(OWNER, [], []) && o.ownerKey == OWNER && n >= 1
    ensures SoldTo(env, o, AllSales(FACTORY, Sales(n))) && AllSales(FACTORY, Sales(n)) == Sales(n) && |Sales(n)| == n
  {
    ToyFacts(DEVICE);
    LastSale(n);
    hide Toy, Sign, Laws, Sales;
  }

  /** The credential that initialisation leaves on the device. */
  lemma {:induction false} Initialised(secret: (HashType, Bytes) -> Option<Bytes>) returns (credential: Credential)
    requires forall b: Bytes :: secret(HmacSha384, b).Some?
    ensures
      var sent := V.SerializeHeader(DeviceHeader(Toy(DEVICE).p, FACTORY, [1], "", []));
      sent.Ok? && PerformDi(Toy(DEVICE).p, secret, sent.value) == Ok(credential)
  {
    hide *;
    ToyFacts(DEVICE);
    EmptyInfo();
    var p := Toy(DEVICE).p;
    DeviceHashesWhatWasSent(p, FACTORY, [1], "", [], secret);
    credential := PerformDi(p, secret, V.SerializeHeader(DeviceHeader(p, FACTORY, [1], "", [])).value).value;
  }

  /** All premises of the end-to-end theorems at once, with `n` sales: up to 256 the device can be
      onboarded, and for every larger number there is a voucher that cannot be transferred. */
  lemma {:induction false} DevicesCanBeSold(n: nat)
      returns (env: Env, o: Owner, f: Manufacture, ts: seq<C.Transfer>, v: V.Voucher, contexts: nat -> Context)
    requires 1 <= n <= 0xffff
    ensures MadeAndSold(env, f, ts, v) && SoldTo(env, o, AllSales(f.m, ts)) && |AllSales(f.m, ts)| == n
    ensures Feasible(env, NOTHING, {}) && ConfiguredInfo(env, NOTHING, {}).Some?
    ensures Serves(env, o, contexts, v, ConfiguredInfo(env, NOTHING, {}).value) && SharesSecret(env, contexts)
  {
    var secret := (k: HashType, b: Bytes) => Some([]);
    var credential := Initialised(secret);
    env := Device(secret, credential.manufacturerHash);
    o := OwnerServers.Owner(Toy(DEVICE), OWNER, 3, true);
    f := Manufacture(FACTORY, "", [9], [], credential);
    ts := Sales(n);
    assert FACTORY.key.None? && env.guid == [1] && env.platform == Toy(DEVICE) && env.hmac == secret && env.sk == DEVICE;
    assert env.to1d == Sign(OWNER, [], []) && env.machine == Machine() && env.markerWorks && env.deactivationWorks;
    assert env.kexRandom == Zeros(48) && env.nonce7 != [] && env.manufacturerHash == f.credential.manufacturerHash;
    hide *;
    MadeHeaderIs(env, f);
    v := SoldTimes(env, f, n);
    SoldToOwner(env, o, n);
    NothingIsFeasible(env);
    LawsAreConsistent(DEVICE);
    ToyFacts(DEVICE);
    SoldIsPristine(env, f, ts, v);
    PristineIsStored(env.platform, v, MadeHeader(env, f), V.SerializeHeader(MadeHeader(env, f)).value, credential.hmac, [9]);
    var info := ConfiguredInfo(env, NOTHING, {}).value;
    contexts := Keeping(env.guid, v, info);
    OwnerServes(env, o, v, info);
    ToyShares(env, contexts);
  }
}
