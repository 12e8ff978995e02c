/** Every run of the device, as a function of what it received: what it posts, under which keys and
with which token, what is done to its machine, and how it ends. */
module ClientTranscripts {
  import opened Outcomes
  import opened ByteStrings
  import opened Crypto
  import opened KeyExchanges
  import opened ServiceInfos
  import opened To2Messages
  import opened DeviceClients
  import opened ClientRuns
  import I = DeviceInterpreter
  import M = InterpreterMeaning

  // ------------------------------------------------- what is posted

  /** The hello that the first reply carries. */
  predicate Opens(env: Env, received: seq<Wire<Reply>>, h: Hello) {
    && received != [] && received[0] == Wire(None, ProveOVHdrMsg(h.signed))
    && HelloPayload(env.platform, h.signed) == Some(h.payload)
    && env.platform.unprotectedNonce(h.signed) == Some(h.nonce6)
  }

  predicate IsDone(w: Wire<Reply>) {
    w.body.OwnerServiceInfoMsg? && w.body.done
  }

  /** Request `i` of a run: the hello, one request per voucher entry with its number cut to eight
      bits, the proof, readiness, the ServiceInfo rounds - the device describes itself in the first -
      and, when the owner is done, Done. All after the proof is sealed. */
  function Planned(env: Env, h: Hello, keys: Option<Keys>, received: seq<Wire<Reply>>, i: nat): Wire<Request>
    requires i <= |received|
  {
    var m := h.payload.numEntries;
    if i == 0 then Wire(None, HelloDeviceMsg(env.guid, env.nonce5, Ecdh384, A256Gcm, Secp384r1, []))
    else if i <= m then Wire(None, GetOVNextEntryMsg((i - 1) % 0x100))
    else if i == m + 1 then
      var share := GetPublic(env.platform.curve, KeyExchange(Ecdh384, env.kexSecret, env.kexRandom));
      Wire(None, ProveDeviceMsg(env.platform.p.sign(env.sk, env.platform.encodeEat(Eat(h.nonce6, env.guid, Some(share))), env.nonce7)))
    else if i == m + 2 then Wire(keys, DeviceServiceInfoReadyMsg)
    else if IsDone(received[i - 1]) then Wire(keys, DoneMsg(h.nonce6))
    else Wire(keys, DeviceServiceInfoMsg(if i == m + 3 then env.devmod else []))
  }

  predicate PostedAsPlanned(env: Env, st: DeviceState, h: Hello) {
    |st.sent| <= |st.received| + 1 &&
    forall i | 0 <= i < |st.sent| :: st.sent[i].message == Planned(env, h, st.client.keys, st.received, i)
  }

  /** The requests are as planned; one is without a reply at most, and there are at most 1000 rounds. */
  predicate Follows(env: Env, st: DeviceState, h: Hello) {
    && |st.received| <= |st.sent| <= h.payload.numEntries + 3 + 1000 + 1
    && (|st.sent| > 1 ==> Opens(env, st.received, h))
    && PostedAsPlanned(env, st, h)
  }

  /** How many replies have come in a phase. */
  predicate At(phase: Phase, k: nat) {
    match phase
    case Greeting => k == 0
    case Collecting(h, got) => k == |got| + 1 <= h.payload.numEntries
    case Proving(h, _) => k == h.payload.numEntries + 1
    case Readying(h) => k == h.payload.numEntries + 2
    case Informing(h, loops, _) => k == h.payload.numEntries + 3 + loops && loops < 1000
    case Finishing(h, _) => h.payload.numEntries + 4 <= k <= h.payload.numEntries + 1003
    case Ended(_) => true
  }

  /** The last reply was a last round exactly if only Done is left. */
  predicate LastFits(phase: Phase, received: seq<Wire<Reply>>) {
    && (phase.Finishing? ==> received != [] && IsDone(received[|received| - 1]))
    && (phase.Informing? ==> received != [] && !IsDone(received[|received| - 1]))
  }

  ghost predicate Script(env: Env, st: DeviceState) {
    if st.phase.Ended? then exists h: Hello :: Follows(env, st, h)
    else
      && |st.sent| == |st.received| && At(st.phase, |st.received|) && LastFits(st.phase, st.received)
      && (!st.phase.Greeting? ==> Opens(env, st.received, st.phase.hello) && Follows(env, st, st.phase.hello))
  }

  lemma {:induction false} PlannedGrows(env: Env, h: Hello, keys: Option<Keys>, keys': Option<Keys>,
                                        received: seq<Wire<Reply>>, w: Wire<Reply>, i: nat)
    requires i <= |received| && (keys' == keys || i <= h.payload.numEntries + 1)
    ensures Planned(env, h, keys', received + [w], i) == Planned(env, h, keys, received, i)
  {
    hide GetPublic, IsDone;
  }

  /** The next request is the planned one. */
  lemma {:induction false} NextIsPlanned(env: Env, st: DeviceState, h: Hello)
    requires !st.phase.Ended? && At(st.phase, |st.received|) && LastFits(st.phase, st.received)
    requires ClientFits(st.client, st.phase) && (!st.phase.Greeting? ==> h == st.phase.hello)
    ensures Wire(st.client.keys, NextRequest(env, st.phase)) == Planned(env, h, st.client.keys, st.received, |st.received|)
  {
    hide GetPublic, IsDone;
  }

  /** One more request, whether or not it is answered. */
  lemma {:induction false} PostedOneMore(env: Env, st: DeviceState, st': DeviceState, h: Hello)
    requires !st.phase.Ended? && PostedAsPlanned(env, st, h) && |st.sent| == |st.received|
    requires At(st.phase, |st.received|) && LastFits(st.phase, st.received) && ClientFits(st.client, st.phase)
    requires !st.phase.Greeting? ==> h == st.phase.hello
    requires st'.sent == st.sent + [Posted(st.client.token, Wire(st.client.keys, NextRequest(env, st.phase)))]
    requires st'.received == st.received || exists w :: st'.received == st.received + [w]
    requires st'.client.keys == st.client.keys || st.phase.Proving?
    ensures PostedAsPlanned(env, st', h)
  {
    NextIsPlanned(env, st, h);
    hide Planned, NextRequest, ClientFits, LastFits;
    forall i | 0 <= i < |st'.sent| ensures st'.sent[i].message == Planned(env, h, st'.client.keys, st'.received, i) {
      if st'.received == st.received {
        SameKeysOrEarly(env, h, st.client.keys, st'.client.keys, st.received, i, st.phase);
      } else {
        var w :| st'.received == st.received + [w];
        PlannedGrows(env, h, st.client.keys, st'.client.keys, st.received, w, i);
      }
    }
  }

  lemma {:induction false} SameKeysOrEarly(env: Env, h: Hello, keys: Option<Keys>, keys': Option<Keys>,
                                           received: seq<Wire<Reply>>, i: nat, phase: Phase)
    requires i <= |received| && (keys' == keys || (phase.Proving? && phase.hello == h && At(phase, |received|)))
    ensures Planned(env, h, keys', received, i) == Planned(env, h, keys, received, i)
  {
    hide GetPublic, IsDone;
  }

  /** The phase after a reply. */
  predicate Moves(env: Env, st: DeviceState, reply: Reply, k: nat, next: DeviceState) {
    && next.client == st.client && next.sent == st.sent && next.received == st.received
    && At(next.phase, k + 1) && !next.phase.Greeting?
    && (!next.phase.Ended? && !st.phase.Greeting? && !st.phase.Ended? ==> next.phase.hello == st.phase.hello)
    && (!next.phase.Ended? && st.phase.Greeting? ==>
          reply.ProveOVHdrMsg? && CheckHello(env, reply.signed) == Ok(next.phase.hello))
    && (next.phase.Finishing? ==> reply.OwnerServiceInfoMsg? && reply.done)
    && (next.phase.Informing? ==> !(reply.OwnerServiceInfoMsg? && reply.done))
  }

  lemma {:induction false} EntriesMove(env: Env, st: DeviceState, h: Hello, entries: seq<Bytes>)
    ensures
      var next := AfterEntries(env, st, h, entries);
      && next == st.(phase := next.phase)
      && (next.phase.Ended? || (next.phase.Proving? && next.phase.hello == h))
  {
    hide VerifyOwner, DeriveKeys;
  }

  lemma {:induction false} CollectMoves(env: Env, st: DeviceState, h: Hello, got: seq<Bytes>)
    requires |got| <= h.payload.numEntries
    ensures
      var next := Collect(env, st, h, got);
      && next == st.(phase := next.phase) && At(next.phase, |got| + 1)
      && (next.phase.Ended? || ((next.phase.Proving? || next.phase.Collecting?) && next.phase.hello == h))
  {
    EntriesMove(env, st, h, got);
    hide AfterEntries;
  }

  lemma {:induction false} HelloMoves(env: Env, st: DeviceState, reply: Reply)
    requires st.phase.Greeting? && reply.ProveOVHdrMsg?
    ensures Moves(env, st, reply, 0, AbsorbHello(env, st, reply))
  {
    var r := CheckHello(env, reply.signed);
    hide CheckHello, Collect;
    if r.Ok? {
      CollectMoves(env, st, r.value, []);
    }
  }

  lemma {:induction false} EntryCollects(env: Env, st: DeviceState, h: Hello, got: seq<Bytes>, reply: Reply)
    requires reply.OVNextEntryMsg?
    ensures
      var next, r := AbsorbEntry(env, st, h, got, reply), Reprint(env.platform, reply.entry);
      if r.Ok? && reply.num == |got| then next == Collect(env, st, h, got + [r.value])
      else next.phase.Ended? && next == st.(phase := next.phase)
  {
    hide Collect, Reprint;
  }

  lemma {:induction false} CollectedMoves(env: Env, st: DeviceState, reply: Reply, k: nat, next: DeviceState)
    requires st.phase.Collecting? && next == st.(phase := next.phase) && At(next.phase, k + 1)
    requires next.phase.Ended? || ((next.phase.Proving? || next.phase.Collecting?) && next.phase.hello == st.phase.hello)
    ensures Moves(env, st, reply, k, next)
  {
    hide At, CheckHello;
  }

  lemma {:induction false} EntryMoves(env: Env, st: DeviceState, reply: Reply, k: nat)
    requires st.phase.Collecting? && reply.OVNextEntryMsg? && At(st.phase, k)
    ensures Moves(env, st, reply, k, AbsorbEntry(env, st, st.phase.hello, st.phase.got, reply))
  {
    var r, h, got := Reprint(env.platform, reply.entry), st.phase.hello, st.phase.got;
    var next := AbsorbEntry(env, st, h, got, reply);
    EntryCollects(env, st, h, got, reply);
    assert k == |got| + 1 <= h.payload.numEntries;
    if r.Ok? && reply.num == |got| {
      CollectMoves(env, st, h, got + [r.value]);
      hide *;
      CollectedMoves(env, st, reply, k, next);
    } else {
      assert At(next.phase, k + 1);
      hide *;
      CollectedMoves(env, st, reply, k, next);
    }
  }

  lemma {:induction false} InfoMoves(env: Env, st: DeviceState, reply: Reply, k: nat)
    requires st.phase.Informing? && reply.OwnerServiceInfoMsg? && At(st.phase, k)
    ensures Moves(env, st, reply, k, AbsorbInfo(env, st, st.phase.hello, st.phase.loops, st.phase.reboot, reply))
  {
    hide CheckHello, I.Process, After;
  }

  lemma {:induction false} AbsorbMoves(env: Env, st: DeviceState, reply: Reply, k: nat)
    requires !st.phase.Ended? && reply.Type() == Expected(st.phase) && At(st.phase, k)
    ensures Moves(env, st, reply, k, Absorb(env, st, reply))
  {
    match st.phase {
      case Greeting => HelloMoves(env, st, reply);
      case Collecting(_, _) => EntryMoves(env, st, reply, k);
      case Informing(_, _, _) => InfoMoves(env, st, reply, k);
      case _ =>
    }
    hide CheckHello, AbsorbHello, AbsorbEntry, AbsorbInfo;
  }

  lemma {:induction false} GreetingFollows(env: Env, st: DeviceState, h: Hello)
    requires st == INITIAL
    ensures Follows(env, st, h) && PostedAsPlanned(env, st, h)
  {
  }

  /** The hello of a phase, or any. */
  function HelloOf(phase: Phase): Hello {
    match phase
    case Greeting => Hello([], OVHdrPayload([], 0, Hash(Sha256, []), [], Secp384r1, [], []), [])
    case Ended(_) => Hello([], OVHdrPayload([], 0, Hash(Sha256, []), [], Secp384r1, [], []), [])
    case Collecting(h, _) => h
    case Proving(h, _) => h
    case Readying(h) => h
    case Informing(h, _, _) => h
    case Finishing(h, _) => h
  }

  lemma {:induction false} FailedIsPosted(env: Env, st: DeviceState, resp: Response)
    requires !st.phase.Ended? && ClientFits(st.client, st.phase) && !Exchanging(env, st, resp).1.Ok?
    ensures
      var next := Step(env, st, resp);
      && next.phase.Ended? && !next.phase.result.Ok? && next.received == st.received
      && next.sent == st.sent + [Posted(st.client.token, Wire(st.client.keys, NextRequest(env, st.phase)))]
      && (next.client.keys == st.client.keys || st.phase.Proving?)
      && next.effects == st.effects && next.marked == st.marked && next.deactivated == st.deactivated
  {
    NeverRefused(env, st);
    hide Refusal, NextRequest, Expected, ClientFits;
  }

  lemma {:induction false} Counted(env: Env, st: DeviceState)
    requires !st.phase.Ended? && At(st.phase, |st.received|) && |st.sent| == |st.received|
    ensures |st.sent| + 1 <= HelloOf(st.phase).payload.numEntries + 3 + 1000 + 1
    ensures |st.sent| > 0 <==> !st.phase.Greeting?
  {
  }

  lemma {:induction false} FailureFollows(env: Env, st: DeviceState, next: DeviceState)
    requires (st.phase.Greeting? ==> st == INITIAL) && Script(env, st) && !st.phase.Ended? && ClientFits(st.client, st.phase)
    requires next.phase.Ended? && next.received == st.received && (next.client.keys == st.client.keys || st.phase.Proving?)
    requires next.sent == st.sent + [Posted(st.client.token, Wire(st.client.keys, NextRequest(env, st.phase)))]
    ensures Script(env, next)
  {
    Counted(env, st);
    var h := HelloOf(st.phase);
    if st.phase.Greeting? {
      GreetingFollows(env, st, h);
    }
    hide ClientFits, Planned, NextRequest, Opens, At, LastFits, PostedAsPlanned;
    PostedOneMore(env, st, next, h);
    assert Follows(env, next, h);
  }

  lemma {:induction false} OpensGrows(env: Env, received: seq<Wire<Reply>>, w: Wire<Reply>, h: Hello)
    requires Opens(env, received, h)
    ensures Opens(env, received + [w], h)
  {
  }

  lemma {:induction false} LastOf(phase: Phase, received: seq<Wire<Reply>>, w: Wire<Reply>)
    requires phase.Finishing? ==> w.body.OwnerServiceInfoMsg? && w.body.done
    requires phase.Informing? ==> !(w.body.OwnerServiceInfoMsg? && w.body.done)
    ensures LastFits(phase, received + [w])
  {
    assert (received + [w])[|received + [w]| - 1] == w;
  }

  /** After an answered request, seen from the state before and the reply. */
  lemma {:induction false} AnsweredScript(env: Env, st: DeviceState, w: Wire<Reply>, next: DeviceState, h: Hello)
    requires !st.phase.Ended? && At(st.phase, |st.received|) && |st.sent| == |st.received| && LastFits(st.phase, st.received)
    requires ClientFits(st.client, st.phase) && Moves(env, st, w.body, |st.received|, next.(client := st.client, sent := st.sent, received := st.received))
    requires !st.phase.Greeting? ==> h == st.phase.hello && Opens(env, st.received, h)
    requires st.phase.Greeting? && !next.phase.Ended? ==> next.phase.hello == h && Opens(env, next.received, h)
    requires PostedAsPlanned(env, st, h)
    requires next.received == st.received + [w] && (next.client.keys == st.client.keys || st.phase.Proving?)
    requires next.sent == st.sent + [Posted(st.client.token, Wire(st.client.keys, NextRequest(env, st.phase)))]
    ensures Script(env, next)
  {
    Counted(env, st);
    PostedOneMore(env, st, next, h);
    LastOf(next.phase, st.received, w);
    if !st.phase.Greeting? {
      OpensGrows(env, st.received, w, h);
    }
    hide ClientFits, Planned, NextRequest, Opens, At, LastFits, CheckHello, PostedAsPlanned;
    assert |next.sent| <= h.payload.numEntries + 3 + 1000 + 1;
    assert Follows(env, next, h);
  }

  lemma {:induction false} AnsweredFollows(env: Env, st: DeviceState, st': DeviceState, reply: Reply)
    requires (st.phase.Greeting? ==> st == INITIAL) && Script(env, st) && !st.phase.Ended? && ClientFits(st.client, st.phase)
    requires Answered(env, st, st', reply) && st'.phase == st.phase
    ensures Script(env, Absorb(env, st', reply))
  {
    var next, w := Absorb(env, st', reply), Wire(st'.client.keys, reply);
    AbsorbMoves(env, st', reply, |st.received|);
    var h := if st.phase.Greeting? && !next.phase.Ended? then next.phase.hello else HelloOf(st.phase);
    if st.phase.Greeting? {
      Starts(env, st, st', reply, next, h);
    }
    hide ClientFits, Planned, NextRequest, Opens, At, LastFits, CheckHello, Absorb, PostedAsPlanned;
    AnsweredScript(env, st, w, next, h);
  }

  lemma {:induction false} Starts(env: Env, st: DeviceState, st': DeviceState, reply: Reply, next: DeviceState, h: Hello)
    requires st == INITIAL && Answered(env, st, st', reply) && Moves(env, st', reply, 0, next) && st'.phase == st.phase
    requires !next.phase.Ended? ==> h == next.phase.hello
    ensures PostedAsPlanned(env, st, h) && (!next.phase.Ended? ==> Opens(env, next.received, h))
  {
    GreetingFollows(env, st, h);
    hide NextRequest, CheckHello, Planned, Opens, At;
    if !next.phase.Ended? {
      FirstOpens(env, st', reply, h);
    }
  }

  lemma {:induction false} FirstOpens(env: Env, st': DeviceState, reply: Reply, h: Hello)
    requires reply.ProveOVHdrMsg? && CheckHello(env, reply.signed) == Ok(h)
    requires st'.received == [Wire(None, reply)]
    ensures Opens(env, st'.received, h)
  {
    CheckedHello(env, reply.signed);
    hide CheckHello;
  }

  lemma {:induction false} StepFollows(env: Env, st: DeviceState, resp: Response)
    requires Inv(env, st) && Script(env, st)
    ensures Script(env, Step(env, st, resp))
  {
    if !st.phase.Ended? {
      InvFits(env, st);
      InvGreets(env, st);
      if Exchanging(env, st, resp).1.Ok? {
        GoodExchange(env, st, resp);
        var (st', r) := Exchanging(env, st, resp);
        SamePhase(env, st, st', r.value);
        AnsweredFollows(env, st, st', r.value);
      } else {
        FailedIsPosted(env, st, resp);
        FailureFollows(env, st, Step(env, st, resp));
      }
      hide *;
    }
  }

  lemma {:induction false} InvGreets(env: Env, st: DeviceState)
    requires Inv(env, st)
    ensures st.phase.Greeting? ==> st == INITIAL
  {
  }

  // ------------------------------------------------- what is done to the machine

  predicate IsRound(w: Wire<Reply>) {
    w.body.OwnerServiceInfoMsg? && !w.body.more && !w.body.done
  }

  /** What the rounds so far did, one after the other, and whether one of them asked for a reboot. */
  function Rounds(env: Env, received: seq<Wire<Reply>>): (seq<I.Effect>, bool) {
    if received == [] then ([], false)
    else
      var before, w := Rounds(env, received[..|received| - 1]), received[|received| - 1];
      if IsRound(w) then
        var report := I.Process(After(env.machine, before.0), w.body.info);
        (before.0 + report.log, before.1 || report.result == Ok(true))
      else before
  }

  /** The owner has said that it is done. */
  predicate Closed(received: seq<Wire<Reply>>) {
    exists i | 0 <= i < |received| :: IsDone(received[i])
  }

  /** The last reply is a Done2 with the nonce that the device signed. */
  predicate Confirmed(env: Env, received: seq<Wire<Reply>>) {
    received != [] && received[|received| - 1].body == Done2Msg(env.nonce7)
  }

  predicate PhaseOutcome(env: Env, st: DeviceState) {
    match st.phase
    case Ended(r) =>
      && (r.Ok? <==> Confirmed(env, st.received))
      && (r.Ok? ==> st.deactivated && env.deactivationWorks && r.value == Rounds(env, st.received).1)
    case Finishing(_, reboot) => st.deactivated && env.deactivationWorks && reboot == Rounds(env, st.received).1
    case Informing(_, _, reboot) => !st.marked && reboot == Rounds(env, st.received).1
    case _ => !st.marked && !Rounds(env, st.received).1
  }

  /** The effects are those of the rounds; the marker is written when the owner is done, and then the
      credential is deactivated, if the marker worked. */
  predicate Consequences(env: Env, st: DeviceState) {
    && st.effects == Rounds(env, st.received).0
    && (st.marked <==> Closed(st.received))
    && (st.deactivated <==> Closed(st.received) && env.markerWorks)
    && (!st.phase.Ended? ==> !Confirmed(env, st.received))
    && PhaseOutcome(env, st)
  }

  lemma {:induction false} RoundsGrow(env: Env, received: seq<Wire<Reply>>, w: Wire<Reply>)
    ensures
      var before := Rounds(env, received);
      Rounds(env, received + [w]) ==
        if IsRound(w) then
          var report := I.Process(After(env.machine, before.0), w.body.info);
          (before.0 + report.log, before.1 || report.result == Ok(true))
        else before
    ensures Closed(received + [w]) <==> Closed(received) || IsDone(w)
    ensures Confirmed(env, received + [w]) <==> w.body == Done2Msg(env.nonce7)
  {
    hide I.Process, After, IsDone, IsRound;
    var all := received + [w];
    assert all[..|all| - 1] == received && all[|received|] == w;
    if Closed(received) {
      var i :| 0 <= i < |received| && IsDone(received[i]);
      assert IsDone(all[i]);
    }
  }

  /** What a reply changes besides the phase. */
  predicate Does(env: Env, st: DeviceState, reply: Reply, next: DeviceState) {
    && next.client == st.client && next.sent == st.sent && next.received == st.received
    && (next.phase.Ended? ==> (next.phase.result.Ok? <==> reply == Done2Msg(env.nonce7)))
    && if reply.OwnerServiceInfoMsg? && reply.done then
         && next.effects == st.effects && next.marked && (next.deactivated <==> st.deactivated || env.markerWorks)
         && (next.phase.Ended? || (next.phase.Finishing? && env.markerWorks && env.deactivationWorks && st.phase.Informing? &&
                                   next.phase.reboot == st.phase.reboot))
       else if reply.OwnerServiceInfoMsg? && !reply.more then
         var report := I.Process(After(env.machine, st.effects), reply.info);
         && next.effects == st.effects + report.log && next.marked == st.marked && next.deactivated == st.deactivated
         && (next.phase.Ended? || (next.phase.Informing? && st.phase.Informing? &&
                                   next.phase.reboot == (st.phase.reboot || report.result == Ok(true))))
       else
         && next.effects == st.effects && next.marked == st.marked && next.deactivated == st.deactivated
         && (next.phase.Ended? ==> next.phase.result.Ok? ==> st.phase.Finishing? && next.phase.result.value == st.phase.reboot)
         && !next.phase.Finishing? && (next.phase.Informing? ==> st.phase.Readying? && !next.phase.reboot)
         && (!next.phase.Ended? ==> !reply.Done2Msg? && !reply.OwnerServiceInfoMsg?)
  }

  lemma {:induction false} HelloDoes(env: Env, st: DeviceState, reply: Reply)
    requires reply.ProveOVHdrMsg?
    ensures Does(env, st, reply, AbsorbHello(env, st, reply))
  {
    var r := CheckHello(env, reply.signed);
    hide CheckHello, AfterEntries;
    if r.Ok? {
      EntriesDo(env, st, r.value, []);
    }
  }

  lemma {:induction false} EntriesDo(env: Env, st: DeviceState, h: Hello, entries: seq<Bytes>)
    ensures
      var next := AfterEntries(env, st, h, entries);
      && next == st.(phase := next.phase) && (next.phase.Ended? ==> !next.phase.result.Ok?)
      && (next.phase.Ended? || next.phase.Proving?)
  {
    hide VerifyOwner, DeriveKeys;
  }

  lemma {:induction false} EntryDoes(env: Env, st: DeviceState, h: Hello, got: seq<Bytes>, reply: Reply)
    requires reply.OVNextEntryMsg?
    ensures Does(env, st, reply, AbsorbEntry(env, st, h, got, reply))
  {
    var r := Reprint(env.platform, reply.entry);
    hide Reprint, AfterEntries;
    if r.Ok? {
      EntriesDo(env, st, h, got + [r.value]);
    }
  }

  lemma {:induction false} InfoDoes(env: Env, st: DeviceState, reply: Reply)
    requires st.phase.Informing? && reply.OwnerServiceInfoMsg?
    ensures Does(env, st, reply, AbsorbInfo(env, st, st.phase.hello, st.phase.loops, st.phase.reboot, reply))
  {
    hide I.Process, After;
  }

  lemma {:induction false} AbsorbDoes(env: Env, st: DeviceState, reply: Reply)
    requires !st.phase.Ended? && reply.Type() == Expected(st.phase)
    ensures Does(env, st, reply, Absorb(env, st, reply))
  {
    match st.phase {
      case Greeting => HelloDoes(env, st, reply);
      case Collecting(h, got) => EntryDoes(env, st, h, got, reply);
      case Informing(_, _, _) => InfoDoes(env, st, reply);
      case _ =>
    }
    hide AbsorbHello, AbsorbEntry, AbsorbInfo;
  }

  /** One more reply, from the consequences of those before. */
  lemma {:induction false} ConsequencesGrow(env: Env, st: DeviceState, st': DeviceState, reply: Reply, next: DeviceState)
    requires Consequences(env, st) && !st.phase.Ended? && Answered(env, st, st', reply) && st'.phase == st.phase
    requires Does(env, st', reply, next)
    ensures Consequences(env, next)
  {
    var w := Wire(st'.client.keys, reply);
    RoundsGrow(env, st.received, w);
    hide I.Process, After, Rounds, Closed, Confirmed, NextRequest;
  }

  lemma {:induction false} StepHasConsequences(env: Env, st: DeviceState, resp: Response)
    requires Inv(env, st) && Consequences(env, st)
    ensures Consequences(env, Step(env, st, resp))
  {
    if !st.phase.Ended? {
      InvFits(env, st);
      if Exchanging(env, st, resp).1.Ok? {
        GoodExchange(env, st, resp);
        var (st', r) := Exchanging(env, st, resp);
        SamePhase(env, st, st', r.value);
        AbsorbDoes(env, st', r.value);
        ConsequencesGrow(env, st, st', r.value, Absorb(env, st', r.value));
      } else {
        FailedIsPosted(env, st, resp);
        ConsequencesStay(env, st, Step(env, st, resp));
      }
      hide *;
    }
  }

  lemma {:induction false} ConsequencesStay(env: Env, st: DeviceState, next: DeviceState)
    requires Consequences(env, st) && !st.phase.Ended? && next.phase.Ended? && !next.phase.result.Ok?
    requires next.received == st.received && next.effects == st.effects
    requires next.marked == st.marked && next.deactivated == st.deactivated
    ensures Consequences(env, next)
  {
    hide Rounds, Closed, Confirmed;
  }

  // ------------------------------------------------- what comes from the network

  /** A readable response hands out a token: one whose type is spelled, or absent from an error. */
  predicate HandsOut(resp: Response) {
    resp.Response? && resp.token.Some? && !resp.header.Malformed? && !(resp.header.Absent? && resp.success)
  }

  /** The latest token before request `i`. */
  function LatestToken(network: nat -> Response, i: nat): Option<nat> {
    if i == 0 then None
    else if HandsOut(network(i - 1)) then network(i - 1).token
    else LatestToken(network, i - 1)
  }

  /** A response that succeeds and announces the type it has. */
  predicate Proper(resp: Response) {
    resp.Response? && resp.success && resp.header == Known(resp.body.body.Type())
  }

  /** Request by request: each carries the latest token, and each reply comes from a proper response. */
  predicate FromNetwork(network: nat -> Response, n: nat, st: DeviceState) {
    && |st.received| <= |st.sent| <= n
    && (!st.phase.Ended? ==> |st.received| == n && st.client.token == LatestToken(network, n))
    && (forall i | 0 <= i < |st.sent| :: st.sent[i].token == LatestToken(network, i))
    && forall i | 0 <= i < |st.received| :: Proper(network(i)) && network(i).body == st.received[i]
  }

  /** An exchange posts the token, and takes the next. */
  lemma {:induction false} ExchangeTokens(env: Env, st: DeviceState, resp: Response)
    requires !st.phase.Ended? && ClientFits(st.client, st.phase)
    ensures
      var (st', r) := Exchanging(env, st, resp);
      && |st'.sent| == |st.sent| + 1 && st'.sent[..|st.sent|] == st.sent && st'.sent[|st.sent|].token == st.client.token
      && st'.client.token == (if HandsOut(resp) then resp.token else st.client.token)
      && (r.Ok? ==> Proper(resp) && st'.received == st.received + [resp.body] && r.value == resp.body.body)
      && (!r.Ok? ==> st'.received == st.received)
  {
    NeverRefused(env, st);
    hide Refusal, NextRequest, Expected, ClientFits;
  }

  lemma {:induction false} StepFromNetwork(env: Env, network: nat -> Response, n: nat, st: DeviceState)
    requires Inv(env, st) && FromNetwork(network, n, st)
    ensures FromNetwork(network, n + 1, Step(env, st, network(n)))
  {
    if !st.phase.Ended? {
      InvFits(env, st);
      ExchangeTokens(env, st, network(n));
      StepKeepsPosts(env, st, network(n));
      var (st', r) := Exchanging(env, st, network(n));
      hide *;
      NetworkGrows(network, n, st, st', Step(env, st, network(n)));
    }
  }

  lemma {:induction false} StepKeepsPosts(env: Env, st: DeviceState, resp: Response)
    requires !st.phase.Ended?
    ensures
      var (st', r) := Exchanging(env, st, resp);
      var next := Step(env, st, resp);
      && next.client == st'.client && next.sent == st'.sent && next.received == st'.received && (!r.Ok? ==> next.phase.Ended?)
  {
    var (st', r) := Exchanging(env, st, resp);
    if r.Ok? {
      GoodExchange(env, st, resp);
      SamePhase(env, st, st', r.value);
      AbsorbDoes(env, st', r.value);
    }
    hide Exchanging, Absorb, NextRequest, I.Process, After;
  }

  lemma {:induction false} NetworkGrows(network: nat -> Response, n: nat, st: DeviceState, st': DeviceState, next: DeviceState)
    requires FromNetwork(network, n, st) && !st.phase.Ended?
    requires |st'.sent| == |st.sent| + 1 && st'.sent[..|st.sent|] == st.sent && st'.sent[|st.sent|].token == st.client.token
    requires st'.client.token == (if HandsOut(network(n)) then network(n).token else st.client.token)
    requires next.client == st'.client && next.sent == st'.sent && next.received == st'.received
    requires
      || (st'.received == st.received && next.phase.Ended?)
      || (Proper(network(n)) && st'.received == st.received + [network(n).body])
    ensures |st.sent| == n ==> FromNetwork(network, n + 1, next)
  {
    hide HandsOut;
    forall i | 0 <= i < |next.sent| ensures |st.sent| == n ==> next.sent[i].token == LatestToken(network, i) {
      if i < |st.sent| {
        assert next.sent[i] == st'.sent[..|st.sent|][i];
      }
    }
  }

  // ------------------------------------------------- every run

  lemma {:induction false} AtTheStart(env: Env, network: nat -> Response)
    ensures Script(env, INITIAL) && Consequences(env, INITIAL) && FromNetwork(network, 0, INITIAL)
  {
  }

  lemma {:induction false} RunMeans(env: Env, network: nat -> Response, n: nat)
    ensures
      var st := RunDevice(env, network, n);
      Script(env, st) && Consequences(env, st) && FromNetwork(network, n, st)
    decreases n
  {
    hide Script, Consequences, FromNetwork, Step, Inv;
    if n == 0 {
      AtTheStart(env, network);
    } else {
      var st := RunDevice(env, network, n - 1);
      RunMeans(env, network, n - 1);
      EveryRunKeepsInv(env, network, n - 1);
      StepFollows(env, st, network(n - 1));
      StepHasConsequences(env, st, network(n - 1));
      StepFromNetwork(env, network, n - 1, st);
    }
  }

  /** What a device sends, against any network: every request is the planned one, under the session
      keys from readiness on, and carries the latest token. */
  lemma {:induction false} EveryRequest(env: Env, network: nat -> Response, n: nat) returns (h: Hello)
    ensures Follows(env, RunDevice(env, network, n), h)
    ensures
      var st := RunDevice(env, network, n);
      forall i | 0 <= i < |st.sent| :: st.sent[i].token == LatestToken(network, i)
  {
    RunMeans(env, network, n);
    hide Follows, RunDevice, LatestToken;
    var st := RunDevice(env, network, n);
    if st.phase.Ended? {
      h :| Follows(env, st, h);
    } else if st.phase.Greeting? {
      h := HelloOf(st.phase);
      NothingFollows(env, st, h);
    } else {
      h := st.phase.hello;
    }
  }

  lemma {:induction false} NothingFollows(env: Env, st: DeviceState, h: Hello)
    requires st.sent == [] && st.received == []
    ensures Follows(env, st, h)
  {
  }

  /** What a device does, against any network, is decided by the replies it reads, each of which came
      as a success under its own type: the effects are those of the rounds in order, the marker is
      written exactly when the owner is done, the credential is deactivated exactly if the marker
      worked, and success is reported exactly for a Done2 with the device's own nonce. */
  lemma {:induction false} EveryOutcome(env: Env, network: nat -> Response, n: nat)
    ensures
      var st := RunDevice(env, network, n);
      && FromNetwork(network, n, st)
      && st.effects == Rounds(env, st.received).0
      && (st.marked <==> Closed(st.received))
      && (st.deactivated <==> Closed(st.received) && env.markerWorks)
      && (forall reboot :: st.phase == Ended(Ok(reboot)) <==> Confirmed(env, st.received) && reboot == Rounds(env, st.received).1)
      && (Confirmed(env, st.received) ==> st.deactivated && env.deactivationWorks)
  {
    RunMeans(env, network, n);
    hide RunDevice, Rounds, Closed, Confirmed, FromNetwork;
  }

  // ------------------------------------------------- effects of several rounds

  /** A later round meets the machine as the earlier ones have left it. */
  lemma {:induction false} GoesOnAfter(d: I.Device, done: seq<I.Effect>, log: seq<I.Effect>, e: I.Effect)
    ensures M.GoesOn(After(d, done), log, e) == M.GoesOn(d, done + log, e)
  {
  }

  lemma {:induction false} FineAfter(d: I.Device, done: seq<I.Effect>, log: seq<I.Effect>)
    requires M.Fine(d, done) && M.Fine(After(d, done), log)
    ensures M.Fine(d, done + log)
  {
    hide M.GoesOn, After;
    var all := done + log;
    forall k | 0 <= k < |all| ensures M.GoesOn(d, all[..k], all[k]) {
      if k < |done| {
        assert all[..k] == done[..k];
      } else {
        var i := k - |done|;
        assert M.GoesOn(After(d, done), log[..i], log[i]);
        GoesOnAfter(d, done, log[..i], log[i]);
        assert all[..k] == done + log[..i];
      }
    }
  }

  lemma {:induction false} LastFailedAfter(d: I.Device, done: seq<I.Effect>, log: seq<I.Effect>)
    requires M.Fine(d, done) && M.LastFailed(After(d, done), log)
    ensures M.LastFailed(d, done + log)
  {
    hide M.GoesOn, After, M.Fine;
    var all, before := done + log, log[..|log| - 1];
    FineAfter(d, done, before);
    GoesOnAfter(d, done, before, log[|log| - 1]);
    assert all[..|all| - 1] == done + before;
  }

  const EFFECT_FAILED: To2Result<bool> := Err(ServiceInfoFailed(I.EffectFailed))

  /** Every effect of the run so far went on, but for the last one if that has ended it. */
  predicate Works(env: Env, st: DeviceState) {
    if st.phase == Ended(EFFECT_FAILED) then M.LastFailed(env.machine, st.effects) else M.Fine(env.machine, st.effects)
  }

  lemma {:induction false} InfoWorks(env: Env, st: DeviceState, reply: Reply)
    requires st.phase.Informing? && reply.OwnerServiceInfoMsg? && M.Fine(env.machine, st.effects)
    ensures Works(env, AbsorbInfo(env, st, st.phase.hello, st.phase.loops, st.phase.reboot, reply))
  {
    if !reply.done && !reply.more {
      var d := After(env.machine, st.effects);
      var report := I.Process(d, reply.info);
      M.FailsForAnEffectIff(d, reply.info);
      if report.result == Err(I.EffectFailed) {
        LastFailedAfter(env.machine, st.effects, report.log);
      } else {
        FineAfter(env.machine, st.effects, report.log);
      }
    }
    hide I.Process, After, M.Fine, M.LastFailed;
  }

  predicate OfAnEffect<T>(r: To2Result<T>) {
    r.Err? && r.error.ServiceInfoFailed?
  }

  lemma {:induction false} OtherErrors(env: Env, signed: seq<Bytes>, h: Hello, entries: seq<Bytes>, entry: Bytes, kdf: Option<bool>)
    ensures !OfAnEffect(CheckHello(env, signed)) && !OfAnEffect(VerifyOwner(env, h, entries))
    ensures !OfAnEffect(Reprint(env.platform, entry)) && !OfAnEffect(DeriveKeys(env, kdf, h.payload))
  {
    hide HelloPayload, CheckHmac, CheckManufacturer, DeriveKey;
    CheckErrors(env, signed);
    VerifyErrors(env, h, entries);
    ReprintIsNoEffect(env, entry);
    hide CheckHello, VerifyOwner, Reprint;
  }

  lemma {:induction false} CheckErrors(env: Env, signed: seq<Bytes>)
    ensures !OfAnEffect(CheckHello(env, signed))
  {
    hide HelloPayload;
  }

  lemma {:induction false} VerifyErrors(env: Env, h: Hello, entries: seq<Bytes>)
    ensures !OfAnEffect(VerifyOwner(env, h, entries))
  {
    hide HelloPayload;
  }

  lemma {:induction false} ReprintIsNoEffect(env: Env, entry: Bytes)
    ensures !OfAnEffect(Reprint(env.platform, entry))
  {
  }

  lemma {:induction false} EntriesWork(env: Env, st: DeviceState, h: Hello, entries: seq<Bytes>)
    requires M.Fine(env.machine, st.effects)
    ensures Works(env, AfterEntries(env, st, h, entries))
  {
    var r := VerifyOwner(env, h, entries);
    OtherErrors(env, [], h, entries, [], st.client.kdf);
    if r.Ok? {
      OtherErrors(env, [], h.(payload := r.value), entries, [], st.client.kdf);
    }
    hide VerifyOwner, DeriveKeys, M.Fine, M.LastFailed;
  }

  lemma {:induction false} HelloWorks(env: Env, st: DeviceState, reply: Reply)
    requires reply.ProveOVHdrMsg? && M.Fine(env.machine, st.effects)
    ensures Works(env, AbsorbHello(env, st, reply))
  {
    var r := CheckHello(env, reply.signed);
    CheckErrors(env, reply.signed);
    if r.Ok? {
      EntriesWork(env, st, r.value, []);
    }
    hide CheckHello, AfterEntries, M.Fine, M.LastFailed;
  }

  lemma {:induction false} EntryWorks(env: Env, st: DeviceState, h: Hello, got: seq<Bytes>, reply: Reply)
    requires reply.OVNextEntryMsg? && M.Fine(env.machine, st.effects)
    ensures Works(env, AbsorbEntry(env, st, h, got, reply))
  {
    var r := Reprint(env.platform, reply.entry);
    ReprintIsNoEffect(env, reply.entry);
    if r.Ok? {
      EntriesWork(env, st, h, got + [r.value]);
    }
    hide Reprint, AfterEntries, M.Fine, M.LastFailed;
  }

  lemma {:induction false} AbsorbWorks(env: Env, st: DeviceState, reply: Reply)
    requires !st.phase.Ended? && reply.Type() == Expected(st.phase) && M.Fine(env.machine, st.effects)
    ensures Works(env, Absorb(env, st, reply))
  {
    match st.phase {
      case Greeting => HelloWorks(env, st, reply);
      case Collecting(h, got) => EntryWorks(env, st, h, got, reply);
      case Informing(_, _, _) => InfoWorks(env, st, reply);
      case _ =>
    }
    hide AbsorbHello, AbsorbEntry, AbsorbInfo, M.Fine, M.LastFailed;
  }

  lemma {:induction false} ExchangeIsNoEffect(env: Env, st: DeviceState, resp: Response)
    requires !st.phase.Ended?
    ensures Exchanging(env, st, resp).0.effects == st.effects && !OfAnEffect(Exchanging(env, st, resp).1)
  {
    hide NextRequest;
  }

  lemma {:induction false} FailureWorks(env: Env, st: DeviceState, e: To2Error)
    requires M.Fine(env.machine, st.effects) && !e.ServiceInfoFailed?
    ensures Works(env, Fail(st, Err(e)))
  {
    hide M.Fine, M.LastFailed;
  }

  lemma {:induction false} StepWorks(env: Env, st: DeviceState, resp: Response)
    requires Inv(env, st) && Works(env, st)
    ensures Works(env, Step(env, st, resp))
  {
    if !st.phase.Ended? {
      var (st', r) := Exchanging(env, st, resp);
      ExchangeIsNoEffect(env, st, resp);
      InvFits(env, st);
      if r.Ok? {
        GoodExchange(env, st, resp);
        SamePhase(env, st, st', r.value);
        AbsorbWorks(env, st', r.value);
      } else {
        NeverRefused(env, st);
        FailedExchange(env, st, resp);
        FailureWorks(env, st', r.error);
      }
      hide *;
    }
  }

  /** For every run against any network: every effect went on - worked, or was a command that may
      fail or a registration and exited with an error - but for the last one, and that exactly if the
      run has ended for it. */
  lemma {:induction false} EveryEffectGoesOn(env: Env, network: nat -> Response, n: nat)
    ensures
      var st := RunDevice(env, network, n);
      && (st.phase == Ended(EFFECT_FAILED) <==> M.LastFailed(env.machine, st.effects))
      && (st.phase != Ended(EFFECT_FAILED) ==> M.Fine(env.machine, st.effects))
  {
    RunWorks(env, network, n);
    hide RunDevice, M.GoesOn;
    var log := RunDevice(env, network, n).effects;
    if M.Fine(env.machine, log) && log != [] {
      assert M.GoesOn(env.machine, log[..|log| - 1], log[|log| - 1]);
    }
  }

  lemma {:induction false} RunWorks(env: Env, network: nat -> Response, n: nat)
    ensures Works(env, RunDevice(env, network, n))
    decreases n
  {
    hide Step, Inv;
    if n > 0 {
      RunWorks(env, network, n - 1);
      EveryRunKeepsInv(env, network, n - 1);
      StepWorks(env, RunDevice(env, network, n - 1), network(n - 1));
      hide Works;
    }
  }
}
