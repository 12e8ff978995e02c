/** The messages of TO2 (section 5.5 of the FIDO Device Onboard Specification 1.1):
data-formats/src/messages/v11/to2.rs. */
module To2Messages {
  import opened Outcomes
  import opened ByteStrings
  import opened Crypto
  import opened KeyExchanges
  import opened ServiceInfos

  datatype MessageType =
    | HelloDevice | ProveOVHdr | GetOVNextEntry | OVNextEntry | ProveDevice | SetupDevice
    | DeviceServiceInfoReady | OwnerServiceInfoReady | DeviceServiceInfo | OwnerServiceInfo | Done | Done2
  {
    function Code(): nat {
      match this
      case HelloDevice => 60
      case ProveOVHdr => 61
      case GetOVNextEntry => 62
      case OVNextEntry => 63
      case ProveDevice => 64
      case SetupDevice => 65
      case DeviceServiceInfoReady => 66
      case OwnerServiceInfoReady => 67
      case DeviceServiceInfo => 68
      case OwnerServiceInfo => 69
      case Done => 70
      case Done2 => 71
    }

    /** `is_valid_previous_message`. */
    predicate ValidAfter(last: Option<MessageType>) {
      match this
      case HelloDevice => last.None?
      case ProveOVHdr => last == Some(HelloDevice)
      case GetOVNextEntry => last == Some(ProveOVHdr) || last == Some(OVNextEntry)
      case OVNextEntry => last == Some(GetOVNextEntry)
      case ProveDevice => last == Some(OVNextEntry)
      case SetupDevice => last == Some(ProveDevice)
      case DeviceServiceInfoReady => last == Some(SetupDevice)
      case OwnerServiceInfoReady => last == Some(DeviceServiceInfoReady)
      case DeviceServiceInfo => last == Some(OwnerServiceInfoReady) || last == Some(OwnerServiceInfo)
      case OwnerServiceInfo => last == Some(DeviceServiceInfo)
      case Done => last == Some(OwnerServiceInfo)
      case Done2 => last == Some(Done)
    }

    /** `encryption_requirement`: everything from SetupDevice on must be encrypted, nothing before may be. */
    predicate MustBeEncrypted() {
      match this
      case HelloDevice => false
      case ProveOVHdr => false
      case GetOVNextEntry => false
      case OVNextEntry => false
      case ProveDevice => false
      case _ => true
    }
  }

  type Guid = Bytes
  type Nonce = Bytes

  datatype SigType = Secp256r1 | Secp384r1 | OtherSignature

  datatype Request =
    | HelloDeviceMsg(guid: Guid, nonce5: Nonce, suite: Suite, cipher: Cipher, sigType: SigType, sigInfo: Bytes)
    | GetOVNextEntryMsg(entryNum: nat)
    | ProveDeviceMsg(token: seq<Bytes>)
    | DeviceServiceInfoReadyMsg
    | DeviceServiceInfoMsg(info: ServiceInfo)
    | DoneMsg(nonce6: Nonce)
  {
    function Type(): MessageType {
      match this
      case HelloDeviceMsg(_, _, _, _, _, _) => HelloDevice
      case GetOVNextEntryMsg(_) => GetOVNextEntry
      case ProveDeviceMsg(_) => ProveDevice
      case DeviceServiceInfoReadyMsg => DeviceServiceInfoReady
      case DeviceServiceInfoMsg(_) => DeviceServiceInfo
      case DoneMsg(_) => Done
    }
  }

  datatype Reply =
    | ProveOVHdrMsg(signed: seq<Bytes>)
    | OVNextEntryMsg(num: nat, entry: Bytes)
    | SetupDeviceMsg(signed: seq<Bytes>)
    | OwnerServiceInfoReadyMsg
    | OwnerServiceInfoMsg(more: bool, done: bool, info: ServiceInfo)
    | Done2Msg(nonce7: Nonce)
  {
    function Type(): MessageType {
      match this
      case ProveOVHdrMsg(_) => ProveOVHdr
      case OVNextEntryMsg(_, _) => OVNextEntry
      case SetupDeviceMsg(_) => SetupDevice
      case OwnerServiceInfoReadyMsg => OwnerServiceInfoReady
      case OwnerServiceInfoMsg(_, _, _) => OwnerServiceInfo
      case Done2Msg(_) => Done2
    }
  }

  /** Session keys. */
  datatype Keys = Keys(cipher: Cipher, key: Bytes)

  /** A message on the wire, encrypted under some keys or not at all. Ideal encryption: it opens
      under those keys and no others. */
  datatype Wire<T> = Wire(keys: Option<Keys>, body: T)

  function Open<T>(keys: Option<Keys>, w: Wire<T>): Option<T> {
    if w.keys == keys then Some(w.body) else None
  }

  /** The requirement check of both ends. */
  predicate EncryptionMet(m: MessageType, keys: Option<Keys>) {
    m.MustBeEncrypted() <==> keys.Some?
  }

  // ------------------------------------------------- payloads

  datatype OVHdrPayload = OVHdrPayload(
    header: Bytes, numEntries: nat, hmac: Hash, nonce5: Nonce, sigType: SigType, sigInfo: Bytes, aKeyExchange: Bytes)

  datatype Eat = Eat(nonce: Nonce, guid: Guid, bKeyExchange: Option<Bytes>)

  datatype SetupPayload = SetupPayload(guid: Guid, nonce7: Nonce)

  /** The libraries as TO2 uses them. */
  datatype Platform = Platform(
    p: Primitives,
    curve: Curve,
    encodeOVHdr: OVHdrPayload -> Bytes,
    decodeOVHdr: Bytes -> Option<OVHdrPayload>,
    encodeEat: Eat -> Bytes,
    decodeEat: Bytes -> Option<Eat>,
    encodeSetup: SetupPayload -> Bytes,
    unprotectedNonce: seq<Bytes> -> Option<Nonce>,       // the nonce in the unprotected header of a signed message
    leafKey: Bytes -> Option<nat>)                       // the key in the leaf certificate of a chain

  ghost predicate PlatformLaws(l: Platform) {
    && Laws(l.p) && CurveLaws(l.curve)
    && (forall h: OVHdrPayload :: l.decodeOVHdr(l.encodeOVHdr(h)) == Some(h))
    && (forall e: Eat :: l.decodeEat(l.encodeEat(e)) == Some(e))
    && (forall sk: PrivateKey, b: Bytes, n: Bytes ::
          l.unprotectedNonce(l.p.sign(sk, b, n)) == if n == [] then None else Some(n))
  }
}
