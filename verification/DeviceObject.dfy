/** `perform_to2` as the program it is: a mutable client, the loop that collects the voucher and the
loop over ServiceInfo. It does exactly what the machine of DeviceClients does. */
module DeviceObjects {
  import opened Outcomes
  import opened ByteStrings
  import opened Crypto
  import opened KeyExchanges
  import opened ServiceInfos
  import opened To2Messages
  import opened DeviceClients
  import V = Vouchers
  import I = DeviceInterpreter
  import R = ClientRuns
  import VoucherObjects

  /** A failure, as the result of the whole run. */
  function Failure<T>(r: To2Result<T>): To2Result<bool>
    requires !r.Ok?
  {
    match r
    case Err(e) => Err(e)
    case Panic(c) => Panic(c)
  }

  lemma {:induction false} FailedStep(env: Env, st: DeviceState, resp: Response)
    requires !st.phase.Ended? && !Exchanging(env, st, resp).1.Ok?
    ensures Step(env, st, resp) == Fail(Exchanging(env, st, resp).0, Failure(Exchanging(env, st, resp).1))
  {
    hide Exchanging;
  }

  lemma {:induction false} GoodStep(env: Env, st: DeviceState, resp: Response)
    requires !st.phase.Ended? && Exchanging(env, st, resp).1.Ok?
    ensures
      var (st', r) := Exchanging(env, st, resp);
      r.value.Type() == Expected(st.phase) && st'.phase == st.phase && Step(env, st, resp) == Absorb(env, st', r.value)
  {
    R.GoodExchange(env, st, resp);
    hide Exchanging, Step, Absorb, NextRequest;
  }

  lemma {:induction false} RunOneMore(env: Env, network: nat -> Response, n: nat)
    ensures RunDevice(env, network, n + 1) == Step(env, RunDevice(env, network, n), network(n))
  {
    hide Step;
  }

  /** Collecting does not look at the phase. */
  lemma {:induction false} CollectAnyPhase(env: Env, st: DeviceState, phase: Phase, h: Hello, got: seq<Bytes>)
    ensures Collect(env, st.(phase := phase), h, got) == Collect(env, st, h, got)
  {
    hide VerifyOwner, DeriveKeys;
  }

  lemma {:induction false} CompleteAnyPhase(env: Env, st: DeviceState, phase: Phase, h: Hello, reboot: bool)
    ensures Complete(env, st.(phase := phase), h, reboot) == Complete(env, st, h, reboot)
  {
  }

  class To2Device {
    const env: Env
    const network: nat -> Response
    var last: Option<MessageType>
    var keys: Option<Keys>
    var token: Option<nat>
    var kdf: Option<bool>
    var effects: seq<I.Effect>
    var marked: bool
    var deactivated: bool
    var exchanges: nat
    ghost var sent: seq<Posted>
    ghost var received: seq<Wire<Reply>>

    /** The state of the device, in a given phase. */
    ghost function In(phase: Phase): DeviceState
      reads this
    {
      DeviceState(Client(last, keys, token, kdf), phase, sent, received, effects, marked, deactivated)
    }

    /** The machine, after as many responses. */
    ghost function Machine(): DeviceState
      reads this
    {
      RunDevice(env, network, exchanges)
    }

    constructor (env: Env, network: nat -> Response)
      ensures this.env == env && this.network == network && exchanges == 0
      ensures In(Greeting) == INITIAL && Machine() == INITIAL
    {
      this.env, this.network := env, network;
      last, keys, token, kdf := None, None, None, None;
      effects, marked, deactivated := [], false, false;
      exchanges, sent, received := 0, [], [];
    }

    /** `send_request`. */
    method SendRequest(m: Request, expected: MessageType, newKeys: Option<Keys>, resp: Response) returns (r: To2Result<Reply>)
      modifies this`last, this`keys, this`token, this`kdf
      ensures
        var x := Exchange(old(Client(last, keys, token, kdf)), m, expected, newKeys, resp);
        Client(last, keys, token, kdf) == x.client && r == x.result
    {
      hide ReadResponse;
      if !m.Type().ValidAfter(last) {
        return Err(InvalidSequenceRequest);
      }
      if !expected.ValidAfter(Some(m.Type())) {
        return Err(InvalidSequenceResponse);
      }
      last := Some(expected);
      if !EncryptionMet(m.Type(), keys) {
        return Err(RequestEncryption);
      }
      if expected.MustBeEncrypted() != (keys.Some? || newKeys.Some?) {
        return Err(ResponseEncryption);
      }
      if newKeys.Some? {
        keys := newKeys;
      }
      if resp.NoResponse? {
        return Err(Transport);
      }
      r := ReadReply(expected, resp);
    }

    method ReadReply(expected: MessageType, resp: Response) returns (r: To2Result<Reply>)
      requires resp.Response?
      modifies this`token, this`kdf
      ensures (Client(last, keys, token, kdf), r) == ReadResponse(old(Client(last, keys, token, kdf)), expected, resp)
    {
      if kdf.None? {
        kdf := Some(resp.nonInteroperable);
      }
      if resp.header.Malformed? || (resp.header.Absent? && resp.success) {
        return Err(BadTypeHeader);
      }
      if resp.token.Some? {
        token := resp.token;
      }
      if !resp.success {
        return Err(if resp.header.Known? then WrongMessage else ErrorReported);
      }
      if resp.header != Known(expected) {
        return Err(WrongMessage);
      }
      var body := Open(keys, resp.body);
      if body.None? {
        return Err(Undecryptable);
      }
      r := if body.value.Type() == expected then Ok(body.value) else Err(Unparsable);
    }

    /** The request of a phase: one exchange, one step of the machine. */
    method Ask(phase: Phase) returns (r: To2Result<Reply>)
      requires !phase.Ended? && Machine() == In(phase)
      modifies this`last, this`keys, this`token, this`kdf, this`exchanges, this`sent, this`received
      ensures exchanges == old(exchanges) + 1
      ensures !r.Ok? ==> Machine() == In(Ended(Failure(r)))
      ensures r.Ok? ==> r.value.Type() == Expected(phase) && Machine() == Absorb(env, In(phase), r.value)
    {
      hide Exchange, RunDevice, Step, Absorb;
      ghost var st := In(phase);
      var resp := network(exchanges);
      r := SendRequest(NextRequest(env, phase), Expected(phase), SwitchedKeys(phase), resp);
      ghost var x := Exchange(st.client, NextRequest(env, phase), Expected(phase), SwitchedKeys(phase), resp);
      sent := if x.sent.Some? then sent + [x.sent.value] else sent;
      received := if x.result.Ok? && resp.Response? then received + [resp.body] else received;
      assert (In(phase), r) == Exchanging(env, st, resp);
      RunOneMore(env, network, exchanges);
      exchanges := exchanges + 1;
      if r.Ok? {
        GoodStep(env, st, resp);
      } else {
        FailedStep(env, st, resp);
      }
    }

    /** `perform_hellodevice` and `get_nonce6`. */
    method PerformHello() returns (r: To2Result<Hello>)
      requires Machine() == In(Greeting)
      modifies this`last, this`keys, this`token, this`kdf, this`exchanges, this`sent, this`received
      ensures exchanges == old(exchanges) + 1
      ensures !r.Ok? ==> Machine() == In(Ended(Failure(r)))
      ensures r.Ok? ==> Machine() == Collect(env, In(Greeting), r.value, [])
      ensures r.Ok? ==>
        && R.FromOurManufacturer(env, r.value.signed, r.value.payload)
        && r.value.payload.sigType == Secp384r1 && r.value.payload.sigInfo == []
        && env.platform.unprotectedNonce(r.value.signed) == Some(r.value.nonce6)
    {
      hide RunDevice, CheckHello, Collect, AbsorbEntry, AbsorbInfo, R.FromOurManufacturer;
      var reply := Ask(Greeting);
      if !reply.Ok? {
        return reply.PropagateFailure();
      }
      r := CheckHello(env, reply.value.signed);
      if r.Ok? {
        R.CheckedHello(env, reply.value.signed);
      }
    }

    /** `get_ov_entries`. */
    method GetOvEntries(h: Hello) returns (r: To2Result<seq<Bytes>>)
      requires Machine() == Collect(env, In(Greeting), h, [])
      modifies this`last, this`keys, this`token, this`kdf, this`exchanges, this`sent, this`received
      ensures !r.Ok? ==> Machine() == In(Ended(Failure(r)))
      ensures r.Ok? ==> Machine() == AfterEntries(env, In(Greeting), h, r.value)
    {
      hide RunDevice, AfterEntries, Reprint, AbsorbHello, AbsorbInfo;
      var entries: seq<Bytes> := [];
      while |entries| < h.payload.numEntries
        invariant Machine() == Collect(env, In(Greeting), h, entries)
        invariant |entries| <= h.payload.numEntries
      {
        var reply := Ask(Collecting(h, entries));
        if !reply.Ok? {
          return reply.PropagateFailure();
        }
        var entry := Reprint(env.platform, reply.value.entry);
        if !entry.Ok? {
          return entry.PropagateFailure();
        }
        if reply.value.num != |entries| {
          return Err(WrongEntry);
        }
        CollectAnyPhase(env, In(Greeting), Collecting(h, entries), h, entries + [entry.value]);
        entries := entries + [entry.value];
      }
      r := Ok(entries);
    }

    /** The rest of `get_and_verify_ov_header_signature`: the verifying iterator is drained, and its
        last result names the owner. */
    method GetVerifiedPayload(h: Hello, entries: seq<Bytes>) returns (r: To2Result<OVHdrPayload>)
      ensures r == VerifyOwner(env, h, entries)
    {
      hide V.FromParts, V.Yields, HelloPayload;
      var p := env.platform.p;
      var voucher := V.FromParts(p, Version1_1, h.payload.header, h.payload.hmac, entries);
      if !voucher.Ok? {
        return if voucher.Err? then Err(BadVoucher(voucher.error)) else Panic(voucher.cause);
      }
      var iter := new VoucherObjects.EntryIter(p, voucher.value);
      var owner := iter.Last();
      if owner.None? {
        return Err(NoEntries);
      }
      if !owner.value.Ok? {
        return if owner.value.Err? then Err(BadVoucher(owner.value.error)) else Panic(owner.value.cause);
      }
      if !p.verify(owner.value.value.key.pkey, h.signed) {
        return Err(BadOwnerSignature);
      }
      var payload := HelloPayload(env.platform, h.signed);
      if payload.None? {
        return Err(BadOwnerSignature);
      }
      r := if p.verify(owner.value.value.key.pkey, env.to1d) then Ok(payload.value) else Err(BadTo1d);
    }

    /** Everything up to the first ServiceInfo message. */
    method Authenticate() returns (r: To2Result<Hello>)
      requires Machine() == In(Greeting)
      modifies this`last, this`keys, this`token, this`kdf, this`exchanges, this`sent, this`received
      ensures !r.Ok? ==> Machine() == In(Ended(Failure(r)))
      ensures r.Ok? ==> Machine() == In(Informing(r.value, 0, false))
    {
      hide RunDevice, VerifyOwner, DeriveKeys, Collect, AbsorbHello, AbsorbEntry, AbsorbInfo, R.FromOurManufacturer;
      var hello := PerformHello();
      if !hello.Ok? {
        return hello;
      }
      var h := hello.value;
      var entries := GetOvEntries(h);
      if !entries.Ok? {
        return entries.PropagateFailure();
      }
      var payload := GetVerifiedPayload(h, entries.value);
      if !payload.Ok? {
        return payload.PropagateFailure();
      }
      var newKeys := DeriveKeys(env, kdf, payload.value);
      if !newKeys.Ok? {
        return newKeys.PropagateFailure();
      }
      var proved := Ask(Proving(h, newKeys.value));
      if !proved.Ok? {
        return proved.PropagateFailure();
      }
      var ready := Ask(Readying(h));
      if !ready.Ok? {
        return ready.PropagateFailure();
      }
      r := hello;
    }

    /** `perform_to2_serviceinfos`. */
    method PerformServiceInfos(h: Hello) returns (r: To2Result<bool>)
      requires Machine() == In(Informing(h, 0, false))
      modifies this`last, this`keys, this`token, this`kdf, this`exchanges, this`sent, this`received, this`effects
      ensures !r.Ok? ==> Machine() == In(Ended(Failure(r)))
      ensures r.Ok? ==> Machine() == Complete(env, In(Greeting), h, r.value)
    {
      hide RunDevice, I.Process, After, Complete, AbsorbHello, AbsorbEntry;
      var loops, reboot := 0, false;
      while loops < MAX_LOOPS
        invariant Machine() == In(if loops < MAX_LOOPS then Informing(h, loops, reboot) else Ended(Err(TooManyLoops)))
        invariant loops <= MAX_LOOPS
      {
        var reply := Ask(Informing(h, loops, reboot));
        if !reply.Ok? {
          return reply.PropagateFailure();
        }
        if reply.value.done {
          CompleteAnyPhase(env, In(Greeting), Informing(h, loops, reboot), h, reboot);
          return Ok(reboot);
        }
        if reply.value.more {
          return Err(MoreServiceInfo);
        }
        var report := I.ProcessServiceInfo(After(env.machine, effects), reply.value.info);
        effects := effects + report.log;
        if !report.result.Ok? {
          return if report.result.Err? then Err(ServiceInfoFailed(report.result.error)) else Panic(report.result.cause);
        }
        reboot := reboot || report.result.value;
        loops := loops + 1;
      }
      r := Err(TooManyLoops);
    }

    /** `perform_to2`: the result and the whole state are those of the machine. Hence what holds of
        every run of the machine holds here. */
    method PerformTo2() returns (r: To2Result<bool>)
      requires exchanges == 0 && In(Greeting) == INITIAL
      modifies this
      ensures Machine() == In(Ended(r))
      ensures effects != [] || marked || deactivated || r.Ok? ==>
                exists e: R.Evidence, infos: seq<ServiceInfo> :: R.Authenticated(env, In(Ended(r)), e, infos)
      ensures r.Ok? ==> marked && deactivated
    {
      hide RunDevice, R.Authenticated, R.CollectingInv, R.ProvingInv, R.InformingInv, R.ReadyAt;
      assert Machine() == INITIAL by { RunFromStart(env, network); }
      r := Perform();
      R.EveryRunKeepsInv(env, network, exchanges);
      assert R.Inv(env, In(Ended(r)));
    }

    method Perform() returns (r: To2Result<bool>)
      requires Machine() == In(Greeting) && !marked && !deactivated
      modifies this
      ensures Machine() == In(Ended(r))
    {
      hide RunDevice, AbsorbHello, AbsorbEntry, AbsorbInfo;
      var hello := Authenticate();
      if !hello.Ok? {
        return hello.PropagateFailure();
      }
      var h := hello.value;
      var reboot := PerformServiceInfos(h);
      if !reboot.Ok? {
        return reboot;
      }
      marked := true;
      if !env.markerWorks {
        return Err(MarkerFailed);
      }
      deactivated := true;
      if !env.deactivationWorks {
        return Err(DeactivationFailed);
      }
      var done := Ask(Finishing(h, reboot.value));
      if !done.Ok? {
        return done.PropagateFailure();
      }
      r := if done.value.nonce7 == env.nonce7 then reboot else Err(WrongNonce7);
    }
  }

  lemma {:induction false} RunFromStart(env: Env, network: nat -> Response)
    ensures RunDevice(env, network, 0) == INITIAL
  {
  }
}
