/** One device among others at the owner server: its requests find their session by the token that the
server handed out, and nobody else's requests make a difference to it. */
module SharedServers {
  import opened Outcomes
  import opened ByteStrings
  import opened Crypto
  import opened KeyExchanges
  import opened ServiceInfos
  import opened To2Messages
  import opened OwnerServers
  import opened DeviceClients
  import opened To2Runs
  import opened To2Completion
  import R = ClientRuns
  import VT = VoucherTransfers
  import S = ServerRuns
  import T = ClientTranscripts
  import V = Vouchers
  import I = DeviceInterpreter

  // ------------------------------------------------- turns

  /** Our device makes its next request, or anything else happens at the server. */
  datatype Turn = Ours | Theirs(input: S.Input)

  datatype System = System(server: S.Server, device: DeviceState)

  const BEGIN := System(S.START, INITIAL)

  /** The response to a request with this token; a new session announces itself with its first reply. */
  function Responded(o: Owner, v: S.Server, token: Option<nat>, e: Ending): (r: Response)
    ensures r.Response?
  {
    Response(e.Accepted?, if e.Accepted? then Known(e.reply.body.Type()) else ErrorType, NonInteroperableHeader(o.interoperable),
             if e.Accepted? && !(token.Some? && token.value in v.sessions) then Some(v.nextId) else None,
             if e.Accepted? then e.reply else NO_BODY)
  }

  function OurInput(env: Env, c: Context, d: DeviceState): S.Input
    requires !d.phase.Ended?
  {
    var m := NextRequest(env, d.phase);
    S.Receive(d.client.token, m.Type(), Wire(d.client.keys, m), WithHeader(env, c))
  }

  /** How the server ends that request, in the session of the device's token. */
  function Answered(env: Env, o: Owner, c: Context, sys: System): Ending
    requires !sys.device.phase.Ended?
  {
    var i := OurInput(env, c, sys.device);
    Serve(o, i.context, S.SessionOf(sys.server, i.token), i.path, i.message)
  }

  function Take(env: Env, o: Owner, c: Context, sys: System, t: Turn): System {
    match t
    case Theirs(input) => sys.(server := S.Next(o, sys.server, input))
    case Ours =>
      if sys.device.phase.Ended? then sys
      else
        System(S.Next(o, sys.server, OurInput(env, c, sys.device)),
               Step(env, sys.device, Responded(o, sys.server, sys.device.client.token, Answered(env, o, c, sys))))
  }

  /** How many turns are ours. */
  function Count(turns: seq<Turn>): nat {
    if turns == [] then 0 else Count(turns[..|turns| - 1]) + if turns[|turns| - 1].Ours? then 1 else 0
  }

  function Play(env: Env, o: Owner, contexts: nat -> Context, turns: seq<Turn>): System {
    if turns == [] then BEGIN
    else
      var before := turns[..|turns| - 1];
      Take(env, o, contexts(Count(before)), Play(env, o, contexts, before), turns[|turns| - 1])
  }

  /** Others do not know the token of our session, and it does not expire. */
  predicate Foreign(i: S.Input, token: Option<nat>) {
    token.Some? ==>
      match i
      case Receive(other, _, _, _) => other != token
      case Expire(id) => id != token.value
  }

  predicate Undisturbed(env: Env, o: Owner, contexts: nat -> Context, turns: seq<Turn>) {
    turns == [] ||
    (var before, t := turns[..|turns| - 1], turns[|turns| - 1];
     Undisturbed(env, o, contexts, before) && (t.Theirs? ==> Foreign(t.input, Play(env, o, contexts, before).device.client.token)))
  }

  // ------------------------------------------------- tokens aside

  /** The device without its tokens. */
  function Forget(d: DeviceState): DeviceState {
    d.(client := d.client.(token := None), sent := Bare(d.sent))
  }

  function Bare(sent: seq<Posted>): seq<Posted> {
    if sent == [] then [] else Bare(sent[..|sent| - 1]) + [sent[|sent| - 1].(token := None)]
  }

  lemma {:induction false} BareGrows(sent: seq<Posted>, p: Posted)
    ensures Bare(sent + [p]) == Bare(sent) + [p.(token := None)]
  {
    assert (sent + [p])[..|sent + [p]| - 1] == sent;
  }

  lemma {:induction false} RefusalForgets(c: Client, m: MessageType, expected: MessageType, newKeys: Option<Keys>)
    ensures Refusal(c.(token := None), m, expected, newKeys) == Refusal(c, m, expected, newKeys)
  {
    hide EncryptionMet, MessageType.ValidAfter;
  }

  lemma {:induction false} ExchangeForgets(c: Client, m: Request, expected: MessageType, newKeys: Option<Keys>, resp: Response)
    requires resp.Response?
    ensures
      var x, y := Exchange(c, m, expected, newKeys, resp), Exchange(c.(token := None), m, expected, newKeys, resp.(token := None));
      && y.result == x.result && y.client == x.client.(token := None)
      && (y.sent.Some? <==> x.sent.Some?) && (x.sent.Some? ==> y.sent.value == x.sent.value.(token := None))
  {
    RefusalForgets(c, m.Type(), expected, newKeys);
    hide Refusal;
  }

  lemma {:induction false} ExchangingForgets(env: Env, d: DeviceState, resp: Response)
    requires !d.phase.Ended? && resp.Response?
    ensures
      var (x, r) := Exchanging(env, d, resp);
      Exchanging(env, Forget(d), resp.(token := None)) == (Forget(x), r)
  {
    ExchangeForgets(d.client, NextRequest(env, d.phase), Expected(d.phase), SwitchedKeys(d.phase), resp);
    var x := Exchange(d.client, NextRequest(env, d.phase), Expected(d.phase), SwitchedKeys(d.phase), resp);
    if x.sent.Some? {
      BareGrows(d.sent, x.sent.value);
    }
    hide Exchange, NextRequest, Bare;
  }

  /** What a reply does depends neither on tokens nor on what was posted. */
  lemma {:induction false} EntriesForget(env: Env, d: DeviceState, h: Hello, entries: seq<Bytes>)
    ensures AfterEntries(env, Forget(d), h, entries) == Forget(AfterEntries(env, d, h, entries))
  {
    hide VerifyOwner, DeriveKeys, Bare;
  }

  lemma {:induction false} HelloForgets(env: Env, d: DeviceState, reply: Reply)
    requires reply.ProveOVHdrMsg?
    ensures AbsorbHello(env, Forget(d), reply) == Forget(AbsorbHello(env, d, reply))
  {
    var r := CheckHello(env, reply.signed);
    if r.Ok? {
      EntriesForget(env, d, r.value, []);
    }
    hide CheckHello, AfterEntries, Bare;
  }

  lemma {:induction false} EntryForgets(env: Env, d: DeviceState, h: Hello, got: seq<Bytes>, reply: Reply)
    requires reply.OVNextEntryMsg?
    ensures AbsorbEntry(env, Forget(d), h, got, reply) == Forget(AbsorbEntry(env, d, h, got, reply))
  {
    var r := Reprint(env.platform, reply.entry);
    if r.Ok? {
      EntriesForget(env, d, h, got + [r.value]);
    }
    hide Reprint, AfterEntries, Bare;
  }

  lemma {:induction false} InfoForgets(env: Env, d: DeviceState, h: Hello, loops: nat, reboot: bool, reply: Reply)
    requires reply.OwnerServiceInfoMsg?
    ensures AbsorbInfo(env, Forget(d), h, loops, reboot, reply) == Forget(AbsorbInfo(env, d, h, loops, reboot, reply))
  {
    hide I.Process, After, Bare;
  }

  lemma {:induction false} AbsorbForgets(env: Env, d: DeviceState, reply: Reply)
    requires !d.phase.Ended? && reply.Type() == Expected(d.phase)
    ensures Absorb(env, Forget(d), reply) == Forget(Absorb(env, d, reply))
  {
    match d.phase {
      case Greeting => HelloForgets(env, d, reply);
      case Collecting(h, got) => EntryForgets(env, d, h, got, reply);
      case Informing(h, loops, reboot) => InfoForgets(env, d, h, loops, reboot, reply);
      case _ =>
    }
    hide AbsorbHello, AbsorbEntry, AbsorbInfo, Bare;
  }

  /** The result of a failed exchange ends the run. */
  function EndOf<T>(r: To2Result<T>): To2Result<bool>
    requires !r.Ok?
  {
    if r.Err? then Err(r.error) else Panic(r.cause)
  }

  lemma {:induction false} FailedStep(env: Env, d: DeviceState, resp: Response)
    requires !d.phase.Ended? && !Exchanging(env, d, resp).1.Ok?
    ensures Step(env, d, resp) == Fail(Exchanging(env, d, resp).0, EndOf(Exchanging(env, d, resp).1))
  {
    hide Exchanging;
  }

  lemma {:induction false} StepForgets(env: Env, d: DeviceState, resp: Response)
    requires !d.phase.Ended? && resp.Response?
    ensures Step(env, Forget(d), resp.(token := None)) == Forget(Step(env, d, resp))
  {
    var plain := resp.(token := None);
    assert Forget(d).phase == d.phase;
    ExchangingForgets(env, d, resp);
    var (x, r) := Exchanging(env, d, resp);
    if r.Ok? {
      R.GoodExchange(env, d, resp);
      R.GoodExchange(env, Forget(d), plain);
      R.SamePhase(env, d, x, r.value);
      hide *;
      AbsorbForgets(env, x, r.value);
    } else {
      FailedStep(env, d, resp);
      FailedStep(env, Forget(d), plain);
      FailForgets(x, EndOf(r));
      hide *;
    }
  }

  lemma {:induction false} FailForgets(d: DeviceState, r: To2Result<bool>)
    ensures Fail(Forget(d), r) == Forget(Fail(d, r))
  {
    hide Bare;
  }

  // ------------------------------------------------- sessions

  /** Identifiers are given out in order. */
  predicate Numbered(v: S.Server) {
    forall id | id in v.sessions :: id < v.nextId
  }

  lemma {:induction false} NumberedStays(o: Owner, v: S.Server, i: S.Input)
    requires Numbered(v)
    ensures Numbered(S.Next(o, v, i)) && v.performed <= S.Next(o, v, i).performed
  {
    hide Serve;
  }

  /** Somebody else's request, or the end of somebody else's session. */
  lemma {:induction false} ForeignKeeps(o: Owner, v: S.Server, i: S.Input, token: Option<nat>)
    requires Numbered(v) && Foreign(i, token) && (token.Some? ==> token.value in v.sessions)
    ensures
      var next := S.Next(o, v, i);
      S.SessionOf(next, token) == S.SessionOf(v, token) && (token.Some? ==> token.value in next.sessions)
  {
    hide Serve;
  }

  /** Our own request, when it is accepted. */
  lemma {:induction false} OwnStored(o: Owner, v: S.Server, token: Option<nat>, path: MessageType, w: Wire<Request>, c: Context)
    requires token.Some? ==> token.value in v.sessions
    requires Serve(o, c, S.SessionOf(v, token), path, w).Accepted?
    ensures
      S.Next(o, v, S.Receive(token, path, w, c)).sessions ==
        v.sessions[(if token.Some? then token.value else v.nextId) := Serve(o, c, S.SessionOf(v, token), path, w).session]
  {
    hide Serve;
  }

  // ------------------------------------------------- the device is as good as alone

  /** The shared server and the device, compared with the two by themselves. */
  ghost predicate Linked(env: Env, sys: System, j: Joint) {
    var token := sys.device.client.token;
    && Numbered(sys.server) && Forget(sys.device) == j.device
    && (!sys.device.phase.Ended? ==>
          S.SessionOf(sys.server, token) == j.session && (token.Some? ==> token.value in sys.server.sessions))
    && (Succeeded(sys.device) ==> env.guid in sys.server.performed)
  }

  predicate Succeeded(d: DeviceState) {
    d.phase.Ended? && d.phase.result.Ok?
  }

  lemma {:induction false} AnsweredAlike(env: Env, o: Owner, c: Context, sys: System, j: Joint)
    requires Linked(env, sys, j) && !sys.device.phase.Ended?
    ensures !j.device.phase.Ended? && Answered(env, o, c, sys) == Served(env, o, c, j)
    ensures
      var resp := Responded(o, sys.server, sys.device.client.token, Answered(env, o, c, sys));
      resp.Response? && resp.(token := None) == ToResponse(o, Served(env, o, c, j))
  {
    hide Serve, NextRequest, Bare;
  }

  /** The token after our request. */
  lemma {:induction false} TokenAfter(env: Env, o: Owner, c: Context, sys: System, j: Joint)
    requires Linked(env, sys, j) && R.Inv(env, j.device) && !sys.device.phase.Ended? && Answered(env, o, c, sys).Accepted?
    ensures
      var d := sys.device;
      Take(env, o, c, sys, Ours).device.client.token == Some(if d.client.token.Some? then d.client.token.value else sys.server.nextId)
  {
    var resp := Responded(o, sys.server, sys.device.client.token, Answered(env, o, c, sys));
    R.InvFits(env, j.device);
    FitsAlike(sys.device);
    T.ExchangeTokens(env, sys.device, resp);
    T.StepKeepsPosts(env, sys.device, resp);
    hide R.Inv, Answered, Exchanging, Step, Forget, S.SessionOf, S.Next;
  }

  lemma {:induction false} FitsAlike(d: DeviceState)
    requires R.ClientFits(Forget(d).client, Forget(d).phase)
    ensures R.ClientFits(d.client, d.phase)
  {
    hide Bare;
  }

  lemma {:induction false} OnlyDone2Succeeds(env: Env, d: DeviceState, resp: Response)
    requires !d.phase.Ended? && Succeeded(Step(env, d, resp))
    ensures d.phase.Finishing?
  {
    var (x, r) := Exchanging(env, d, resp);
    if r.Ok? {
      R.GoodExchange(env, d, resp);
      R.SamePhase(env, d, x, r.value);
      T.AbsorbDoes(env, x, r.value);
    } else {
      FailedStep(env, d, resp);
    }
    hide Exchanging, Step, Absorb, I.Process, After;
  }

  /** What an accepted Done does for our device. */
  lemma {:induction false} DoneIsMarked(env: Env, o: Owner, c: Context, sys: System, j: Joint)
    requires Linked(env, sys, j) && InStep(env, o, j) && sys.device.phase.Finishing? && Answered(env, o, c, sys).Accepted?
    ensures env.guid in Take(env, o, c, sys, Ours).server.performed
  {
    var i := OurInput(env, c, sys.device);
    GuidIs(env, o, j);
    assert i.message.body.DoneMsg?;
    S.DoneMarks(o, sys.server, i.token, i.path, i.message, i.context);
    hide InStep, Serve, Step, Forget, Responded, S.SessionOf, S.Next, NextRequest;
  }

  lemma {:induction false} GuidIs(env: Env, o: Owner, j: Joint)
    requires InStep(env, o, j)
    ensures S.SessionFields(j.session) && R.Inv(env, j.device)
    ensures j.device.phase.Finishing? ==> j.session.guid == Some(env.guid)
  {
    hide R.Inv, S.SessionFields;
  }

  lemma {:induction false} OurDevice(env: Env, o: Owner, c: Context, sys: System, j: Joint)
    requires Linked(env, sys, j) && !sys.device.phase.Ended?
    ensures
      var next := Take(env, o, c, sys, Ours);
      && Forget(next.device) == JointStep(env, o, c, j).device && next.server == S.Next(o, sys.server, OurInput(env, c, sys.device))
      && JointStep(env, o, c, j).session == SessionAfter(j.session, Answered(env, o, c, sys))
      && (Succeeded(next.device) ==> sys.device.phase.Finishing?)
  {
    var e := Answered(env, o, c, sys);
    var resp := Responded(o, sys.server, sys.device.client.token, e);
    AnsweredAlike(env, o, c, sys, j);
    StepForgets(env, sys.device, resp);
    JointDevice(env, o, c, j);
    if Succeeded(Step(env, sys.device, resp)) {
      OnlyDone2Succeeds(env, sys.device, resp);
    }
    assert Forget(sys.device) == j.device;
    hide Answered, Step, Forget, Responded, ToResponse, S.Next, JointStep, OurInput;
  }

  lemma {:induction false} OurSession(env: Env, o: Owner, c: Context, sys: System, j: Joint)
    requires Linked(env, sys, j) && R.Inv(env, j.device) && !sys.device.phase.Ended? && Answered(env, o, c, sys).Accepted?
    ensures
      var next := Take(env, o, c, sys, Ours);
      && next.device.client.token.Some? && next.device.client.token.value in next.server.sessions
      && S.SessionOf(next.server, next.device.client.token) == Answered(env, o, c, sys).session
  {
    var i := OurInput(env, c, sys.device);
    TokenAfter(env, o, c, sys, j);
    OwnStored(o, sys.server, i.token, i.path, i.message, i.context);
    hide R.Inv, Serve, Step, Forget, Responded, S.Next, NextRequest, Served;
  }

  lemma {:induction false} RefusedDevice(env: Env, o: Owner, c: Context, sys: System, j: Joint)
    requires Linked(env, sys, j) && R.Inv(env, j.device) && !sys.device.phase.Ended? && !Answered(env, o, c, sys).Accepted?
    ensures JointStep(env, o, c, j).device.phase == Ended(Err(ErrorReported))
  {
    AnsweredAlike(env, o, c, sys, j);
    R.InvFits(env, j.device);
    RefusedEnds(env, o, c, j);
    hide *;
  }

  lemma {:induction false} PhaseKept(d: DeviceState)
    ensures Forget(d).phase == d.phase
  {
  }

  lemma {:induction false} OurTurn(env: Env, o: Owner, c: Context, sys: System, j: Joint)
    requires Linked(env, sys, j) && InStep(env, o, j) && !sys.device.phase.Ended?
    ensures Linked(env, Take(env, o, c, sys, Ours), JointStep(env, o, c, j))
  {
    var next := Take(env, o, c, sys, Ours);
    GuidIs(env, o, j);
    OurDevice(env, o, c, sys, j);
    NumberedStays(o, sys.server, OurInput(env, c, sys.device));
    PhaseKept(next.device);
    if Answered(env, o, c, sys).Accepted? {
      OurSession(env, o, c, sys, j);
      if Succeeded(next.device) {
        DoneIsMarked(env, o, c, sys, j);
      }
    } else {
      RefusedDevice(env, o, c, sys, j);
    }
    hide Take, JointStep, InStep, Answered, R.Inv, S.SessionFields, S.Next, Forget, S.SessionOf, Numbered, OurInput;
  }

  lemma {:induction false} JointDevice(env: Env, o: Owner, c: Context, j: Joint)
    requires !j.device.phase.Ended?
    ensures
      var e := Served(env, o, c, j);
      JointStep(env, o, c, j) == Joint(Step(env, j.device, ToResponse(o, e)), SessionAfter(j.session, e))
  {
    hide Served, Step, ToResponse;
  }

  /** Somebody else's turn. */
  lemma {:induction false} TheirTurn(env: Env, o: Owner, c: Context, sys: System, j: Joint, input: S.Input)
    requires Linked(env, sys, j) && Foreign(input, sys.device.client.token)
    ensures Linked(env, Take(env, o, c, sys, Theirs(input)), j)
  {
    NumberedStays(o, sys.server, input);
    if !sys.device.phase.Ended? {
      ForeignKeeps(o, sys.server, input, sys.device.client.token);
    }
    hide S.Next, S.SessionOf, Forget, Numbered, Foreign;
  }

  lemma {:induction false} EndedStays(env: Env, o: Owner, c: Context, sys: System, j: Joint)
    requires Linked(env, sys, j) && sys.device.phase.Ended?
    ensures Take(env, o, c, sys, Ours) == sys && JointStep(env, o, c, j) == j
  {
    PhaseKept(sys.device);
  }

  lemma {:induction false} AtTheBeginning(env: Env, o: Owner, contexts: nat -> Context)
    ensures Linked(env, BEGIN, JointRun(env, o, contexts, 0))
  {
  }

  /** The main result: whatever else goes on at the server, between any two requests of our device, our
      device and its session are, tokens aside, what they are in the run of the two alone; and once
      it has succeeded the server has marked it. */
  lemma {:induction false} AsIfAlone(env: Env, o: Owner, contexts: nat -> Context, turns: seq<Turn>)
    requires GoodEnv(env, o) && PlatformLaws(env.platform) && forall k: nat :: GoodContext(contexts(k))
    requires Undisturbed(env, o, contexts, turns)
    ensures Linked(env, Play(env, o, contexts, turns), JointRun(env, o, contexts, Count(turns)))
    decreases |turns|
  {
    hide Linked, GoodEnv, PlatformLaws, GoodContext, Take, JointStep, Foreign, InStep;
    if turns == [] {
      AtTheBeginning(env, o, contexts);
    } else {
      var before, t := turns[..|turns| - 1], turns[|turns| - 1];
      AsIfAlone(env, o, contexts, before);
      var sys, j, c := Play(env, o, contexts, before), JointRun(env, o, contexts, Count(before)), contexts(Count(before));
      if t.Theirs? {
        TheirTurn(env, o, c, sys, j, t.input);
      } else if sys.device.phase.Ended? {
        EndedStays(env, o, c, sys, j);
      } else {
        EveryRunInStep(env, o, contexts, Count(before));
        OurTurn(env, o, c, sys, j);
      }
    }
  }

  /** An honest device is onboarded, and marked by the server, among any others. */
  lemma {:induction false} CompletesAmongOthers(env: Env, o: Owner, contexts: nat -> Context, v: V.Voucher,
                                               payloads: seq<EntryPayload>, info: ServiceInfo, turns: seq<Turn>)
    requires Honest(env, o, contexts, v, payloads, info)
    requires Undisturbed(env, o, contexts, turns) && Count(turns) == |v.entries| + 6
    ensures
      var sys := Play(env, o, contexts, turns);
      var report := I.Process(After(env.machine, []), info);
      && report.result.Ok? && sys.device.phase == Ended(Ok(report.result.value)) && sys.device.effects == report.log
      && sys.device.marked && sys.device.deactivated && env.guid in sys.server.performed
  {
    HonestIsGood(env, o, contexts, v, payloads, info);
    AsIfAlone(env, o, contexts, turns);
    HonestRunCompletes(env, o, contexts, v, payloads, info);
    hide Honest, I.Process, After, Play, JointRun, Undisturbed, Numbered, S.SessionOf, Bare;
  }

  lemma {:induction false} HonestIsGood(env: Env, o: Owner, contexts: nat -> Context, v: V.Voucher, payloads: seq<EntryPayload>,
                                        info: ServiceInfo)
    requires Honest(env, o, contexts, v, payloads, info)
    ensures GoodEnv(env, o) && PlatformLaws(env.platform) && forall k: nat :: GoodContext(contexts(k))
  {
    hide PlatformLaws, AsBuilt, OwnedBy, VT.Recognised, I.Process, After, GoodContext, GoodEnv, SharesSecret, DeviceKey;
  }
}
