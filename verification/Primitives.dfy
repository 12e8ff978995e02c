/** Cryptography and leaf encodings, as parameters.

Hashing, signing, key derivation and the CBOR encoding of leaf values are done by
libraries. A `Primitives` value stands for those libraries; the laws say what the
program relies on. Nothing is assumed about a `Primitives` value unless a lemma
requires the laws by name. */
module Crypto {
  import opened Outcomes
  import opened ByteStrings
  import opened CborRoundTrip

  datatype HashType = Sha256 | Sha384 | HmacSha256 | HmacSha384 {

    /** The hash under an HMAC. */
    function InnerHash(): HashType {
      match this
      case HmacSha256 => Sha256
      case HmacSha384 => Sha384
      case other => other
    }

    function DigestSize(): nat {
      if Sha256? || HmacSha256? then 32 else 48
    }
  }

  datatype Hash = Hash(kind: HashType, value: Bytes)

  datatype ProtocolVersion = Version1_0 | Version1_1

  /** A public key with the encoding it was received in; only `pkey` takes part in cryptography. */
  datatype PublicKey = PublicKey(encoded: Bytes, pkey: nat)

  type PrivateKey = nat

  /** The values that become single elements of a `ParsedArray`. */
  datatype Leaf =
    | VersionLeaf(version: ProtocolVersion)
    | BytesLeaf(bytes: Bytes)
    | TextLeaf(text: string)
    | HashLeaf(hash: Hash)
    | MaybeHashLeaf(maybeHash: Option<Hash>)
    | KeyLeaf(key: PublicKey)
    | MaybeChainLeaf(chain: Option<Bytes>)
  {
    /** Absent values are encoded as null, which the array parser rejects. */
    predicate Null() {
      (MaybeHashLeaf? && maybeHash.None?) || (MaybeChainLeaf? && chain.None?)
    }

    function KindOf(): Kind {
      match this
      case VersionLeaf(_) => KVersion
      case BytesLeaf(_) => KBytes
      case TextLeaf(_) => KText
      case HashLeaf(_) => KHash
      case MaybeHashLeaf(_) => KMaybeHash
      case KeyLeaf(_) => KKey
      case MaybeChainLeaf(_) => KMaybeChain
    }
  }

  datatype Kind = KVersion | KBytes | KText | KHash | KMaybeHash | KKey | KMaybeChain

  /** What an ownership voucher entry signs. */
  datatype EntryPayload = EntryPayload(previous: Hash, headerInfo: Hash, extra: Option<Bytes>, key: PublicKey)

  datatype Primitives = Primitives(
    digest: (HashType, Bytes) -> Bytes,
    publicOf: PrivateKey -> nat,
    sign: (PrivateKey, Bytes, Bytes) -> seq<Bytes>,    // key, payload, unprotected header: the four elements of a signed message
    verify: (nat, seq<Bytes>) -> bool,
    payloadOf: seq<Bytes> -> Option<Bytes>,            // the payload of a signed message that parses as one
    encode: Leaf -> Bytes,
    decode: (Kind, Bytes) -> Option<Leaf>,
    encodeEntry: EntryPayload -> Bytes,
    decodeEntry: Bytes -> Option<EntryPayload>,
    utf8: string -> Bytes)

  /** A signed message has four elements, gives its payload back and verifies under the signer's key. */
  ghost predicate SignLaws(p: Primitives) {
    forall sk: PrivateKey, payload: Bytes, header: Bytes ::
      var m := p.sign(sk, payload, header);
      && |m| == 4 && (forall i | 0 <= i < 4 :: IsItem(m[i]))
      && p.payloadOf(m) == Some(payload) && p.verify(p.publicOf(sk), m)
  }

  /** A leaf decodes back to itself, and unless it is null it is one well-formed item. */
  ghost predicate CodecLaws(p: Primitives) {
    && (forall l: Leaf :: p.decode(l.KindOf(), p.encode(l)) == Some(l))
    && (forall l: Leaf :: !l.Null() ==> IsItem(p.encode(l)))
    && (forall e: EntryPayload :: p.decodeEntry(p.encodeEntry(e)) == Some(e))
    && (forall k: Kind, b: Bytes :: p.decode(k, b).Some? ==> p.decode(k, b).value.KindOf() == k)
  }

  ghost predicate Laws(p: Primitives) {
    SignLaws(p) && CodecLaws(p)
  }

  /** Two different inputs with the same digest. */
  ghost predicate Collision(p: Primitives, kind: HashType, x: Bytes, y: Bytes) {
    x != y && p.digest(kind, x) == p.digest(kind, y)
  }
}
