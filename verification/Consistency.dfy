/** The laws that the other files require of the libraries can all hold at once: here is a toy
implementation. Values become lists of numbers, lists become well-formed items. */
module Consistency {
  import opened Outcomes
  import opened ByteStrings
  import opened CborGrammar
  import opened CborRoundTrip
  import opened Crypto
  import opened KeyExchanges
  import opened To2Messages
  import ServiceInfos

  // ------------------------------------------------- a list of numbers as one item

  /** Nested tags: a number is as many tags 1, and a tag 0 ends it. */
  function Wrap(ns: seq<nat>): Bytes
    decreases |ns|, if ns == [] then 0 else ns[0]
  {
    if ns == [] then [0]
    else if ns[0] == 0 then [0xc0] + Wrap(ns[1..])
    else [0xc1] + Wrap([ns[0] - 1] + ns[1..])
  }

  lemma {:induction false} TaggedItem(b: Bytes, minor: nat)
    requires IsItem(b) && minor <= 1
    ensures IsItem([0xc0 + minor] + b)
  {
    var t: Item :| WellFormed(t) && Spell(t) == b;
    var tagged := Tag(Arg(minor, []), t);
    assert WellFormed(tagged);
    assert Spell(tagged) == [0xc0 + minor] + [] + b == [0xc0 + minor] + b;
  }

  lemma {:induction false} ZeroIsItem()
    ensures IsItem([0])
  {
    assert WellFormed(Int(false, Arg(0, []))) && Spell(Int(false, Arg(0, []))) == [0];
  }

  lemma {:induction false} WrapIsItem(ns: seq<nat>)
    ensures IsItem(Wrap(ns))
    decreases |ns|, if ns == [] then 0 else ns[0]
  {
    hide IsItem;
    if ns == [] {
      ZeroIsItem();
    } else {
      var rest := if ns[0] == 0 then ns[1..] else [ns[0] - 1] + ns[1..];
      WrapIsItem(rest);
      TaggedItem(Wrap(rest), if ns[0] == 0 then 0 else 1);
    }
  }

  lemma {:induction false} WrapInjective(a: seq<nat>, b: seq<nat>)
    requires Wrap(a) == Wrap(b)
    ensures a == b
    decreases |a|, if a == [] then 0 else a[0]
  {
    if a != [] {
      assert Wrap(a)[0] == Wrap(b)[0];
      assert b != [];
      assert Wrap(a)[1..] == Wrap(b)[1..];
      if a[0] == 0 {
        WrapInjective(a[1..], b[1..]);
      } else {
        WrapInjective([a[0] - 1] + a[1..], [b[0] - 1] + b[1..]);
        assert a[1..] == ([a[0] - 1] + a[1..])[1..] == ([b[0] - 1] + b[1..])[1..] == b[1..];
      }
      assert a == [a[0]] + a[1..] && b == [b[0]] + b[1..];
    }
  }

  /** Lists of lists as one list. */
  function Pack(xs: seq<seq<nat>>): seq<nat> {
    if xs == [] then [] else [|xs[0]|] + xs[0] + Pack(xs[1..])
  }

  lemma {:induction false} PackInjective(xs: seq<seq<nat>>, ys: seq<seq<nat>>)
    requires Pack(xs) == Pack(ys)
    ensures xs == ys
  {
    if xs != [] {
      assert ys != [] && Pack(xs)[0] == Pack(ys)[0];
      var n := |xs[0]|;
      assert xs[0] == Pack(xs)[1..n + 1] == Pack(ys)[1..n + 1] == ys[0];
      assert Pack(xs[1..]) == Pack(xs)[n + 1..] == Pack(ys)[n + 1..] == Pack(ys[1..]);
      PackInjective(xs[1..], ys[1..]);
      assert xs == [xs[0]] + xs[1..] && ys == [ys[0]] + ys[1..];
    }
  }

  function Nats(b: Bytes): (r: seq<nat>)
    ensures |r| == |b| && forall i | 0 <= i < |b| :: r[i] == b[i]
  {
    seq(|b|, i requires 0 <= i < |b| => b[i])
  }

  function Codes(s: string): (r: seq<nat>)
    ensures |r| == |s| && forall i | 0 <= i < |s| :: r[i] == s[i] as nat
  {
    seq(|s|, i requires 0 <= i < |s| => s[i] as nat)
  }

  lemma {:induction false} NatsInjective(a: Bytes, b: Bytes)
    ensures Nats(a) == Nats(b) ==> a == b
  {
    if Nats(a) == Nats(b) {
      assert forall i | 0 <= i < |a| :: a[i] == Nats(a)[i] == Nats(b)[i] == b[i];
    }
  }

  lemma {:induction false} CodesInjective(a: string, b: string)
    ensures Codes(a) == Codes(b) ==> a == b
  {
    if Codes(a) == Codes(b) {
      assert forall i | 0 <= i < |a| :: a[i] as nat == Codes(a)[i] == Codes(b)[i] == b[i] as nat;
    }
  }

  // ------------------------------------------------- decoding by choice

  ghost predicate Injective<T(!new)>(enc: T -> Bytes) {
    forall x: T, y: T :: enc(x) == enc(y) ==> x == y
  }

  ghost function Inverse<T(!new)>(enc: T -> Bytes, b: Bytes): Option<T> {
    if exists x: T :: enc(x) == b then var x: T :| enc(x) == b; Some(x) else None
  }

  lemma {:induction false} InverseOf<T(!new)>(enc: T -> Bytes, x: T)
    requires Injective(enc)
    ensures Inverse(enc, enc(x)) == Some(x)
  {
  }

  // ------------------------------------------------- leaves and payloads

  function KindCode(k: HashType): nat {
    match k
    case Sha256 => 0
    case Sha384 => 1
    case HmacSha256 => 2
    case HmacSha384 => 3
  }

  function LeafParts(l: Leaf): seq<seq<nat>> {
    match l
    case VersionLeaf(v) => [[0, if v.Version1_0? then 0 else 1], []]
    case BytesLeaf(b) => [[1], Nats(b)]
    case TextLeaf(s) => [[2], Codes(s)]
    case HashLeaf(h) => [[3, KindCode(h.kind)], Nats(h.value)]
    case MaybeHashLeaf(None) => [[4], []]
    case MaybeHashLeaf(Some(h)) => [[4, KindCode(h.kind)], Nats(h.value)]
    case KeyLeaf(k) => [[5, k.pkey], Nats(k.encoded)]
    case MaybeChainLeaf(None) => [[6], []]
    case MaybeChainLeaf(Some(b)) => [[6, 1], Nats(b)]
  }

  lemma {:induction false} LeafPartsInjective(x: Leaf, y: Leaf)
    requires LeafParts(x) == LeafParts(y)
    ensures x == y
  {
    hide Nats, Codes;
    var a, b := LeafParts(x), LeafParts(y);
    assert a[0][0] == b[0][0] && |a[0]| == |b[0]| && a[1] == b[1];
    assert |a[0]| > 1 ==> a[0][1] == b[0][1];
    match x {
      case BytesLeaf(u) => NatsInjective(u, y.bytes);
      case TextLeaf(u) => CodesInjective(u, y.text);
      case HashLeaf(h) => NatsInjective(h.value, y.hash.value);
      case MaybeHashLeaf(Some(h)) => NatsInjective(h.value, y.maybeHash.value.value);
      case KeyLeaf(k) => NatsInjective(k.encoded, y.key.encoded);
      case MaybeChainLeaf(Some(u)) => NatsInjective(u, y.chain.value);
      case _ =>
    }
  }

  function MaybeNats(b: Option<Bytes>): seq<nat> {
    if b.None? then [] else [1] + Nats(b.value)
  }

  lemma {:induction false} MaybeNatsInjective(a: Option<Bytes>, b: Option<Bytes>)
    ensures MaybeNats(a) == MaybeNats(b) ==> a == b
  {
    if MaybeNats(a) == MaybeNats(b) && a.Some? && b.Some? {
      assert Nats(a.value) == MaybeNats(a)[1..] == MaybeNats(b)[1..] == Nats(b.value);
      NatsInjective(a.value, b.value);
    }
  }

  function EntryParts(e: EntryPayload): seq<seq<nat>> {
    [[KindCode(e.previous.kind), KindCode(e.headerInfo.kind), e.key.pkey], Nats(e.previous.value), Nats(e.headerInfo.value),
     MaybeNats(e.extra), Nats(e.key.encoded)]
  }

  lemma {:induction false} EntryPartsInjective(x: EntryPayload, y: EntryPayload)
    requires EntryParts(x) == EntryParts(y)
    ensures x == y
  {
    hide Nats, MaybeNats;
    var a, b := EntryParts(x), EntryParts(y);
    assert a[0][0] == b[0][0] && a[0][1] == b[0][1] && a[0][2] == b[0][2];
    assert a[1] == b[1] && a[2] == b[2] && a[3] == b[3] && a[4] == b[4];
    NatsInjective(x.previous.value, y.previous.value);
    NatsInjective(x.headerInfo.value, y.headerInfo.value);
    MaybeNatsInjective(x.extra, y.extra);
    NatsInjective(x.key.encoded, y.key.encoded);
  }

  function SigCode(s: SigType): nat {
    match s
    case Secp256r1 => 0
    case Secp384r1 => 1
    case OtherSignature => 2
  }

  function HdrParts(h: OVHdrPayload): seq<seq<nat>> {
    [[h.numEntries, KindCode(h.hmac.kind), SigCode(h.sigType)], Nats(h.header), Nats(h.hmac.value), Nats(h.nonce5),
     Nats(h.sigInfo), Nats(h.aKeyExchange)]
  }

  lemma {:induction false} HdrPartsInjective(x: OVHdrPayload, y: OVHdrPayload)
    requires HdrParts(x) == HdrParts(y)
    ensures x == y
  {
    hide Nats;
    var a, b := HdrParts(x), HdrParts(y);
    assert a[0][0] == b[0][0] && a[0][1] == b[0][1] && a[0][2] == b[0][2];
    assert a[1] == b[1] && a[2] == b[2] && a[3] == b[3] && a[4] == b[4] && a[5] == b[5];
    NatsInjective(x.header, y.header);
    NatsInjective(x.hmac.value, y.hmac.value);
    NatsInjective(x.nonce5, y.nonce5);
    NatsInjective(x.sigInfo, y.sigInfo);
    NatsInjective(x.aKeyExchange, y.aKeyExchange);
  }

  function EatParts(e: Eat): seq<seq<nat>> {
    [Nats(e.nonce), Nats(e.guid), MaybeNats(e.bKeyExchange)]
  }

  lemma {:induction false} EatPartsInjective(x: Eat, y: Eat)
    requires EatParts(x) == EatParts(y)
    ensures x == y
  {
    hide Nats, MaybeNats;
    var a, b := EatParts(x), EatParts(y);
    assert a[0] == b[0] && a[1] == b[1] && a[2] == b[2];
    NatsInjective(x.nonce, y.nonce);
    NatsInjective(x.guid, y.guid);
    MaybeNatsInjective(x.bKeyExchange, y.bKeyExchange);
  }

  function ValueParts(v: ServiceInfos.Value): seq<seq<nat>> {
    match v
    case Bool(b) => [[0, if b then 1 else 0]]
    case Text(s) => [[1], Codes(s)]
    case Blob(b) => [[2], Nats(b)]
    case Number(n) => [[3], if n >= 0 then [0, n] else [1, -n]]
    case Array(vs) => [[4]] + seq(|vs|, i requires 0 <= i < |vs| => Pack(ValueParts(vs[i])))
    case Null => [[5]]
    case OtherValue => [[6]]
  }

  lemma {:induction false} ValuePartsInjective(x: ServiceInfos.Value, y: ServiceInfos.Value)
    requires ValueParts(x) == ValueParts(y)
    ensures x == y
  {
    hide Nats, Codes, Pack;
    var a, b := ValueParts(x), ValueParts(y);
    assert a[0] == b[0] && a[0][0] == b[0][0];
    match x {
      case Bool(_) => assert a[0][1] == b[0][1];
      case Text(u) =>
        assert a[1] == b[1];
        CodesInjective(u, y.text);
      case Blob(u) =>
        assert a[1] == b[1];
        NatsInjective(u, y.blob);
      case Number(_) => assert a[1] == b[1] && a[1][0] == b[1][0] && a[1][1] == b[1][1];
      case Array(vs) =>
        var ws := y.elements;
        assert |vs| == |ws|;
        forall i | 0 <= i < |vs| ensures vs[i] == ws[i] {
          assert a[i + 1] == Pack(ValueParts(vs[i])) && b[i + 1] == Pack(ValueParts(ws[i]));
          PackInjective(ValueParts(vs[i]), ValueParts(ws[i]));
          ValuePartsInjective(vs[i], ws[i]);
        }
      case _ =>
    }
  }

  // ------------------------------------------------- the toy libraries

  const LEAF: Leaf -> Bytes := (l: Leaf) => Wrap(Pack(LeafParts(l)))
  const ENTRY: EntryPayload -> Bytes := (e: EntryPayload) => Wrap(Pack(EntryParts(e)))
  const HEADER: OVHdrPayload -> Bytes := (h: OVHdrPayload) => Wrap(Pack(HdrParts(h)))
  const EAT: Eat -> Bytes := (e: Eat) => Wrap(Pack(EatParts(e)))
  const VALUE: ServiceInfos.Value -> Bytes := (v: ServiceInfos.Value) => Wrap(Pack(ValueParts(v)))
  const BYTES: Bytes -> Bytes := (b: Bytes) => Wrap(Nats(b))

  lemma {:induction false} EncodersAreInjective()
    ensures Injective(LEAF) && Injective(ENTRY) && Injective(HEADER) && Injective(EAT) && Injective(VALUE) && Injective(BYTES)
  {
    hide Wrap, Pack, LeafParts, EntryParts, HdrParts, EatParts, ValueParts, Nats;
    forall x: Leaf, y: Leaf | LEAF(x) == LEAF(y) ensures x == y {
      WrapInjective(Pack(LeafParts(x)), Pack(LeafParts(y)));
      PackInjective(LeafParts(x), LeafParts(y));
      LeafPartsInjective(x, y);
    }
    forall x: EntryPayload, y: EntryPayload | ENTRY(x) == ENTRY(y) ensures x == y {
      WrapInjective(Pack(EntryParts(x)), Pack(EntryParts(y)));
      PackInjective(EntryParts(x), EntryParts(y));
      EntryPartsInjective(x, y);
    }
    forall x: OVHdrPayload, y: OVHdrPayload | HEADER(x) == HEADER(y) ensures x == y {
      WrapInjective(Pack(HdrParts(x)), Pack(HdrParts(y)));
      PackInjective(HdrParts(x), HdrParts(y));
      HdrPartsInjective(x, y);
    }
    forall x: Eat, y: Eat | EAT(x) == EAT(y) ensures x == y {
      WrapInjective(Pack(EatParts(x)), Pack(EatParts(y)));
      PackInjective(EatParts(x), EatParts(y));
      EatPartsInjective(x, y);
    }
    forall x: ServiceInfos.Value, y: ServiceInfos.Value | VALUE(x) == VALUE(y) ensures x == y {
      WrapInjective(Pack(ValueParts(x)), Pack(ValueParts(y)));
      PackInjective(ValueParts(x), ValueParts(y));
      ValuePartsInjective(x, y);
    }
    forall x: Bytes, y: Bytes | BYTES(x) == BYTES(y) ensures x == y {
      WrapInjective(Nats(x), Nats(y));
      NatsInjective(x, y);
    }
  }

  /** A signature is the signer's key in clear: it verifies under that key and under no other. */
  function Sign(sk: PrivateKey, payload: Bytes, header: Bytes): seq<Bytes> {
    [Wrap([sk]), Wrap([]), Wrap(Nats(payload)), Wrap(Nats(header))]
  }

  ghost function DecodeLeaf(k: Kind, b: Bytes): Option<Leaf> {
    var l := Inverse(LEAF, b);
    if l.Some? && l.value.KindOf() == k then l else None
  }

  ghost function Toy(leafKey: nat): Platform {
    var p := Primitives(
      (kind: HashType, b) => seq(kind.DigestSize(), _ => 0),
      (sk: PrivateKey) => sk,
      Sign,
      (key: nat, m: seq<Bytes>) => |m| == 4 && m[0] == Wrap([key]),
      (m: seq<Bytes>) => if |m| == 4 then Inverse(BYTES, m[2]) else None,
      LEAF, DecodeLeaf, ENTRY, (b: Bytes) => Inverse(ENTRY, b),
      (s: string) => []);
    var curve := Curve((s, k) => ([], []), (s, k, pt) => Some([]), (s, pt) => true, (v, n, x) => []);
    Platform(p, curve, HEADER, (b: Bytes) => Inverse(HEADER, b), EAT, (b: Bytes) => Inverse(EAT, b), (s: SetupPayload) => [],
             (m: seq<Bytes>) => if |m| == 4 && Inverse(BYTES, m[3]).Some? && Inverse(BYTES, m[3]).value != [] then Inverse(BYTES, m[3]) else None,
             (b: Bytes) => Some(leafKey))
  }

  lemma {:induction false} SignedItems(sk: PrivateKey, payload: Bytes, header: Bytes)
    ensures
      var m := Sign(sk, payload, header);
      |m| == 4 && (forall i | 0 <= i < 4 :: IsItem(m[i])) && m[0] == Wrap([sk]) && m[2] == BYTES(payload) && m[3] == BYTES(header)
  {
    hide Wrap, IsItem, Nats;
    WrapIsItem([sk]);
    WrapIsItem([]);
    WrapIsItem(Nats(payload));
    WrapIsItem(Nats(header));
  }

  lemma {:induction false} ToySigns(leafKey: nat)
    ensures SignLaws(Toy(leafKey).p)
  {
    hide Wrap, Inverse, Injective, IsItem, Sign;
    EncodersAreInjective();
    forall sk: PrivateKey, payload: Bytes, header: Bytes
      ensures
        var p := Toy(leafKey).p;
        var m := p.sign(sk, payload, header);
        |m| == 4 && (forall i | 0 <= i < 4 :: IsItem(m[i])) && p.payloadOf(m) == Some(payload) && p.verify(p.publicOf(sk), m)
    {
      SignedItems(sk, payload, header);
      InverseOf(BYTES, payload);
    }
  }

  lemma {:induction false} ToyEncodes(leafKey: nat)
    ensures CodecLaws(Toy(leafKey).p)
  {
    hide Wrap, Inverse, Injective, IsItem, LeafParts, EntryParts;
    EncodersAreInjective();
    var p := Toy(leafKey).p;
    forall l: Leaf ensures p.decode(l.KindOf(), p.encode(l)) == Some(l) && IsItem(p.encode(l)) {
      InverseOf(LEAF, l);
      WrapIsItem(Pack(LeafParts(l)));
    }
    forall e: EntryPayload ensures p.decodeEntry(p.encodeEntry(e)) == Some(e) {
      InverseOf(ENTRY, e);
    }
  }

  /** All laws hold of the toy. */
  lemma {:induction false} LawsAreConsistent(leafKey: nat)
    ensures PlatformLaws(Toy(leafKey))
    ensures ServiceInfos.ValueLaw(ServiceInfos.ValueCodec(VALUE, (b: Bytes) => Inverse(VALUE, b)))
  {
    hide Wrap, Inverse, Injective, SignLaws, CodecLaws;
    EncodersAreInjective();
    ToySigns(leafKey);
    ToyEncodes(leafKey);
    var l := Toy(leafKey);
    forall h: OVHdrPayload ensures l.decodeOVHdr(l.encodeOVHdr(h)) == Some(h) {
      InverseOf(HEADER, h);
    }
    forall e: Eat ensures l.decodeEat(l.encodeEat(e)) == Some(e) {
      InverseOf(EAT, e);
    }
    forall sk: PrivateKey, b: Bytes, n: Bytes ensures l.unprotectedNonce(l.p.sign(sk, b, n)) == if n == [] then None else Some(n) {
      InverseOf(BYTES, n);
    }
    forall v: ServiceInfos.Value ensures Inverse(VALUE, VALUE(v)) == Some(v) {
      InverseOf(VALUE, v);
    }
  }
}
