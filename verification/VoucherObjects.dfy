/** The two mutable objects of data-formats/src/ownershipvoucher.rs: a voucher that is extended
in place, and the iterator that verifies its entries one by one. */
module VoucherObjects {
  import opened Outcomes
  import opened ByteStrings
  import opened Crypto
  import opened ParsedArrays
  import opened CborRoundTrip
  import V = Vouchers
  import opened VoucherChain

  class OwnershipVoucher {
    var contents: V.Five
    var version: ProtocolVersion
    var header: V.Header
    var hmac: Hash
    var chain: Option<Bytes>
    var entries: seq<Bytes>

    function State(): V.Voucher
      reads this
    {
      V.Voucher(contents, version, header, hmac, chain, entries)
    }

    constructor (v: V.Voucher)
      ensures State() == v
    {
      contents, version, header := v.contents, v.version, v.header;
      hmac, chain, entries := v.hmac, v.chain, v.entries;
    }

    /** `extend`. An error leaves the voucher as it was. A panic while the longer list of entries
        is printed leaves the cached list one entry ahead of the raw array. */
    method Extend(p: Primitives, sk: PrivateKey, extra: Option<Bytes>, next: PublicKey) returns (r: V.Result<()>)
      modifies this
      ensures V.Extend(p, old(State()), sk, extra, next).Ok? ==>
                r == Ok(()) && State() == V.Extend(p, old(State()), sk, extra, next).value
      ensures V.Extend(p, old(State()), sk, extra, next).Err? ==>
                r == Err(V.Extend(p, old(State()), sk, extra, next).error) && State() == old(State())
      ensures V.Extend(p, old(State()), sk, extra, next).Panic? ==>
                r == Panic(V.Extend(p, old(State()), sk, extra, next).cause) &&
                contents == old(contents) && old(entries) <= entries
    {
      hide V.NextPayload, V.EncodeSigned, Serialize;
      var payload := V.NextPayload(p, State(), sk, extra, next);
      if !payload.Ok? {
        return payload.PropagateFailure();
      }
      var entry := V.EncodeSigned(p.sign(sk, p.encodeEntry(payload.value), []));
      if !entry.Ok? {
        return V.FromParse(entry).PropagateFailure();
      }
      entries := entries + [entry.value];
      var raw := Serialize(ParsedArray(None, entries));
      if !raw.Ok? {
        SerializeSucceedsIff(ParsedArray(None, entries));
        return Panic(ShortBuffer);
      }
      contents := contents[4 := raw.value];
      r := Ok(());
    }
  }

  class EntryIter {
    const p: Primitives
    const voucher: V.Voucher
    var index: nat
    var errored: bool
    var lastKey: PublicKey

    constructor (p: Primitives, voucher: V.Voucher)
      ensures this.p == p && this.voucher == voucher
      ensures Remaining() == V.Yields(p, voucher, 0, voucher.header.manufacturerKey)
    {
      this.p, this.voucher := p, voucher;
      index, errored, lastKey := 0, false, voucher.header.manufacturerKey;
    }

    /** What the iterator will still yield. */
    ghost function Remaining(): seq<V.Result<EntryPayload>>
      reads this
    {
      if errored then [] else V.Yields(p, voucher, index, lastKey)
    }

    /** `next`: the first of the remaining results; after a failure there is none. */
    method Next() returns (r: Option<V.Result<EntryPayload>>)
      modifies this
      ensures old(Remaining()) == [] ==> r == None && Remaining() == []
      ensures old(Remaining()) != [] ==> r == Some(old(Remaining())[0]) && Remaining() == old(Remaining())[1..]
    {
      hide V.DecodeSigned, V.ProcessElement;
      if errored || index >= |voucher.entries| {
        return None;
      }
      var entry := V.DecodeSigned(p, voucher.entries[index]);
      if !entry.Ok? {
        errored := true;
        return Some(entry.PropagateFailure());
      }
      var element := V.ProcessElement(p, voucher, index, lastKey, entry.value);
      assert element == V.VerifyEntry(p, voucher, index, lastKey);
      if element.Ok? {
        lastKey := element.value.key;
      } else {
        errored := true;
      }
      index := index + 1;
      r := Some(element);
    }

    /** `last`: drains the iterator. On a fresh iterator the result is good exactly when the voucher
        has entries and every one of them verifies. */
    method Last() returns (r: Option<V.Result<EntryPayload>>)
      modifies this
      ensures Remaining() == []
      ensures r == if old(Remaining()) == [] then None else Some(old(Remaining())[|old(Remaining())| - 1])
    {
      hide V.Yields;
      ghost var all := Remaining();
      r := None;
      ghost var done: seq<V.Result<EntryPayload>> := [];
      while true
        invariant done + Remaining() == all
        invariant r == if done == [] then None else Some(done[|done| - 1])
        decreases |Remaining()|
      {
        ghost var before := Remaining();
        var item := Next();
        if item.None? {
          assert before == [];
          break;
        }
        assert done + before == (done + [before[0]]) + before[1..];
        done := done + [before[0]];
        r := item;
      }
    }
  }

  /** The last result is good exactly when there are entries and all of them verify; it is then the
      payload of the last entry. */
  lemma {:induction false} LastIsOkIffVerified(p: Primitives, v: V.Voucher, payload: EntryPayload)
    ensures V.LastYield(p, v) == Some(Ok(payload)) <==>
            exists payloads: seq<EntryPayload> ::
              Verified(p, v, payloads) && payloads != [] && payloads[|payloads| - 1] == payload
  {
    hide V.Yields;
    if V.LastYield(p, v) == Some(Ok(payload)) {
      var payloads := PayloadsOf(p, v, 0, v.header.manufacturerKey);
      assert AllOk(payloads)[|payloads| - 1] == Ok(payload);
      assert Verified(p, v, payloads);
    }
    if payloads: seq<EntryPayload> :|
         Verified(p, v, payloads) && payloads != [] && payloads[|payloads| - 1] == payload {
      assert AllOk(payloads)[|payloads| - 1] == Ok(payload);
    }
  }

  /** If the last result is good, so is every one before it, and no entry is skipped. */
  lemma {:induction false} PayloadsOf(p: Primitives, v: V.Voucher, i: nat, key: PublicKey) returns (payloads: seq<EntryPayload>)
    requires i <= |v.entries|
    requires var all := V.Yields(p, v, i, key); all != [] ==> all[|all| - 1].Ok?
    ensures |payloads| == |v.entries| - i && V.Yields(p, v, i, key) == AllOk(payloads)
    decreases |v.entries| - i
  {
    hide V.VerifyEntry;
    if i == |v.entries| {
      payloads := [];
    } else {
      var r := V.VerifyEntry(p, v, i, key);
      assert r.Ok?;
      var all := V.Yields(p, v, i, key);
      var others := V.Yields(p, v, i + 1, r.value.key);
      assert all == [r] + others;
      assert others != [] ==> others[|others| - 1] == all[|all| - 1];
      var tail := PayloadsOf(p, v, i + 1, r.value.key);
      payloads := [r.value] + tail;
      assert AllOk(payloads) == [r] + AllOk(tail);
    }
  }
}
