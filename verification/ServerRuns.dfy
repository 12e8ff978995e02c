/** Every run of the owner server: what its sessions look like, and what it takes to complete one. */
module ServerRuns {
  import opened Outcomes
  import opened ByteStrings
  import opened Crypto
  import opened KeyExchanges
  import opened To2Messages
  import opened OwnerServers
  import opened OwnerHandlers
  import V = Vouchers

  // ------------------------------------------------- the server and its history

  /** A request that was accepted, and the voucher store it was handled with. */
  datatype Event = Event(request: Request, vouchers: map<Guid, V.Voucher>)

  /** A setting of To2Performed, with the session and its accepted requests at that moment. */
  datatype Completion = Completion(id: nat, guid: Guid, session: Session, trace: seq<Event>)

  /** Stored sessions by identifier, all identifiers ever given out, the onboarded devices, and the
      history of each session. */
  datatype Server = Server(
    sessions: map<nat, Session>,
    nextId: nat,
    performed: set<Guid>,
    traces: map<nat, seq<Event>>,
    completions: seq<Completion>)

  const START := Server(map[], 0, {}, map[], [])

  datatype Input =
    | Receive(token: Option<nat>, path: MessageType, message: Wire<Request>, context: Context)
    | Expire(id: nat)

  /** The session a request runs in: the stored one, or a fresh one under a new identifier. */
  function SessionId(v: Server, token: Option<nat>): nat {
    if token.Some? && token.value in v.sessions then token.value else v.nextId
  }

  function SessionOf(v: Server, token: Option<nat>): Session {
    if token.Some? && token.value in v.sessions then v.sessions[token.value] else NEW_SESSION
  }

  function TraceOf(v: Server, id: nat): seq<Event> {
    if id in v.traces then v.traces[id] else []
  }

  /** Storing a session after a handler ran; a finished Done also marks the device as onboarded. */
  function Store(v: Server, id: nat, s: Session, e: Event): Server {
    var trace := TraceOf(v, id) + [e];
    var w := v.(sessions := v.sessions[id := s], nextId := if id == v.nextId then id + 1 else v.nextId,
                traces := v.traces[id := trace]);
    if e.request.DoneMsg? && s.guid.Some?
    then w.(performed := v.performed + {s.guid.value}, completions := v.completions + [Completion(id, s.guid.value, s, trace)])
    else w
  }

  function Next(o: Owner, v: Server, i: Input): Server {
    match i
    case Expire(id) => v.(sessions := v.sessions - {id})
    case Receive(token, path, message, context) =>
      match Serve(o, context, SessionOf(v, token), path, message)
      case Refused(_) => v
      case Accepted(_, s) => Store(v, SessionId(v, token), s, Event(message.body, context.vouchers))
      case StoredButRefused(s) => Store(v, SessionId(v, token), s, Event(message.body, context.vouchers))
  }

  function Run(o: Owner, inputs: seq<Input>): Server {
    if inputs == [] then START else Next(o, Run(o, inputs[..|inputs| - 1]), inputs[|inputs| - 1])
  }

  // ------------------------------------------------- the words of accepted requests

  function Repeat(m: MessageType, n: nat): seq<MessageType> {
    seq(n, _ => m)
  }

  /** The accepted requests of a session whose last reply is `last`, with `a` voucher entries and
      `b` rounds of ServiceInfo. */
  function Word(last: Option<MessageType>, a: nat, b: nat): seq<MessageType> {
    match last
    case None => []
    case Some(ProveOVHdr) => [HelloDevice]
    case Some(OVNextEntry) => [HelloDevice] + Repeat(GetOVNextEntry, a)
    case Some(SetupDevice) => [HelloDevice] + Repeat(GetOVNextEntry, a) + [ProveDevice]
    case Some(OwnerServiceInfoReady) => [HelloDevice] + Repeat(GetOVNextEntry, a) + [ProveDevice, DeviceServiceInfoReady]
    case Some(OwnerServiceInfo) =>
      [HelloDevice] + Repeat(GetOVNextEntry, a) + [ProveDevice, DeviceServiceInfoReady] + Repeat(DeviceServiceInfo, b)
    case Some(Done2) =>
      [HelloDevice] + Repeat(GetOVNextEntry, a) + [ProveDevice, DeviceServiceInfoReady] + Repeat(DeviceServiceInfo, b) + [Done]
    case _ => []
  }

  function Types(trace: seq<Event>): seq<MessageType> {
    seq(|trace|, i requires 0 <= i < |trace| => trace[i].request.Type())
  }

  /** Replies after which the session is proven. */
  predicate Late(last: Option<MessageType>) {
    last == Some(SetupDevice) || last == Some(OwnerServiceInfoReady) || last == Some(OwnerServiceInfo) || last == Some(Done2)
  }

  predicate InServiceInfo(last: Option<MessageType>) {
    last == Some(OwnerServiceInfo) || last == Some(Done2)
  }

  ghost predicate TraceShape(s: Session, trace: seq<Event>) {
    exists a: nat, b: nat ::
      && Types(trace) == Word(s.last, a, b)
      && (Late(s.last) || s.last == Some(OVNextEntry) ==> a >= 1)
      && (InServiceInfo(s.last) ==> b >= 1 && s.loops == Some(b))
  }

  // ------------------------------------------------- the session invariant

  /** Exactly which entries a session has, by its last reply. */
  predicate SessionFields(s: Session) {
    && (s.last.Some? ==> s.last.value in {ProveOVHdr, OVNextEntry, SetupDevice, OwnerServiceInfoReady, OwnerServiceInfo, Done2})
    && (s.guid.Some? <==> s.last.Some?) && (s.nonce6.Some? <==> s.last.Some?)
    && (s.keys.Some? <==> Late(s.last)) && (s.proven <==> Late(s.last))
    && (s.kex.Some? <==> s.last == Some(ProveOVHdr) || s.last == Some(OVNextEntry))
    && (s.cipher.Some? <==> s.last == Some(ProveOVHdr) || s.last == Some(OVNextEntry))
    && (s.nonce7.Some? <==> Late(s.last) && s.last != Some(Done2))
    && (s.loops.Some? <==> InServiceInfo(s.last)) && (s.loops.Some? ==> 1 <= s.loops.value <= 1001)
  }

  /** At some point the device proved itself: a token verified under the leaf key of the device's
      voucher, and it carried this session's nonce6. */
  predicate ProvedBy(o: Owner, s: Session, e: Event) {
    && s.guid.Some? && s.nonce6.Some? && e.request.ProveDeviceMsg? && s.guid.value in e.vouchers
    && DeviceKey(o.platform, e.vouchers[s.guid.value]).Some?
    && var eat := VerifiedEat(o.platform, e.request.token, DeviceKey(o.platform, e.vouchers[s.guid.value]).value);
       eat.Some? && eat.value.nonce == s.nonce6.value
  }

  ghost predicate Proved(o: Owner, s: Session, trace: seq<Event>) {
    exists i :: 0 <= i < |trace| && ProvedBy(o, s, trace[i])
  }

  ghost predicate GoodSession(o: Owner, s: Session, trace: seq<Event>) {
    SessionFields(s) && TraceShape(s, trace) && (Late(s.last) ==> Proved(o, s, trace))
  }

  // ------------------------------------------------- one request

  /** In a good session the sequence check alone decides: both encryption checks then hold, so a
      session is never stored for a request that is refused. */
  lemma {:induction false} SequenceCheckImpliesEncryption(o: Owner, c: Context, s: Session, path: MessageType, w: Wire<Request>)
    requires SessionFields(s)
    ensures path.Code() % 2 == 0 && path.ValidAfter(s.last) ==> EncryptionMet(path, s.keys)
    ensures !Serve(o, c, s, path, w).StoredButRefused?
  {
    hide V.DecodeSigned, V.EncodeSigned, DeriveKey, GetPublic;
  }

  lemma {:induction false} AcceptedFields(o: Owner, c: Context, s: Session, path: MessageType, w: Wire<Request>)
    requires SessionFields(s) && Serve(o, c, s, path, w).Accepted?
    ensures SessionFields(Serve(o, c, s, path, w).session)
    ensures
      var s' := Serve(o, c, s, path, w).session;
      && s'.last == Some(ReplyType(path)) && path.ValidAfter(s.last) && w.body.Type() == path
      && (s.last.Some? ==> s'.guid == s.guid && s'.nonce6 == s.nonce6)
      && (path.DeviceServiceInfo? ==> s'.loops == Some((if s.loops.Some? then s.loops.value else 0) + 1))
      && (path.Done? ==> s'.loops == s.loops)
  {
    hide V.DecodeSigned, V.EncodeSigned, DeriveKey, GetPublic, VerifiedEat;
  }

  function ReplyType(path: MessageType): MessageType {
    match path
    case HelloDevice => ProveOVHdr
    case GetOVNextEntry => OVNextEntry
    case ProveDevice => SetupDevice
    case DeviceServiceInfoReady => OwnerServiceInfoReady
    case DeviceServiceInfo => OwnerServiceInfo
    case Done => Done2
    case other => other
  }

  lemma {:induction false} AcceptedProves(o: Owner, c: Context, s: Session, path: MessageType, w: Wire<Request>)
    requires SessionFields(s) && Serve(o, c, s, path, w).Accepted? && path.ProveDevice?
    ensures ProvedBy(o, Serve(o, c, s, path, w).session, Event(w.body, c.vouchers))
  {
    hide DeriveKey;
  }

  lemma {:induction false} RepeatMore(m: MessageType, n: nat)
    ensures Repeat(m, n) + [m] == Repeat(m, n + 1)
  {
  }

  lemma {:induction false} TypesSnoc(trace: seq<Event>, e: Event)
    ensures Types(trace + [e]) == Types(trace) + [e.request.Type()]
  {
  }

  /** The word grows by the accepted request. */
  lemma {:induction false} WordGrows(last: Option<MessageType>, path: MessageType, a: nat, b: nat)
    requires path.ValidAfter(last) && path.Code() % 2 == 0
    requires last == Some(ProveOVHdr) ==> a == 0
    requires last == Some(OwnerServiceInfoReady) ==> b == 0
    ensures
      var a' := if path.GetOVNextEntry? then a + 1 else a;
      var b' := if path.DeviceServiceInfo? then b + 1 else b;
      Word(Some(ReplyType(path)), a', b') == Word(last, a, b) + [path]
  {
    RepeatMore(GetOVNextEntry, a);
    RepeatMore(DeviceServiceInfo, b);
    assert Repeat(GetOVNextEntry, 0) == [] && Repeat(DeviceServiceInfo, 0) == [];
  }

  lemma {:induction false} AcceptedShape(s: Session, trace: seq<Event>, s': Session, e: Event)
    requires SessionFields(s) && SessionFields(s') && TraceShape(s, trace)
    requires
      var path := e.request.Type();
      && path.ValidAfter(s.last) && s'.last == Some(ReplyType(path))
      && (path.DeviceServiceInfo? ==> s'.loops == Some((if s.loops.Some? then s.loops.value else 0) + 1))
      && (path.Done? ==> s'.loops == s.loops)
    ensures TraceShape(s', trace + [e])
  {
    hide Word, Types;
    var path := e.request.Type();
    var a: nat, b: nat :|
      && Types(trace) == Word(s.last, a, b)
      && (Late(s.last) || s.last == Some(OVNextEntry) ==> a >= 1)
      && (InServiceInfo(s.last) ==> b >= 1 && s.loops == Some(b));
    a, b := Normalise(s.last, a, b);
    WordGrows(s.last, path, a, b);
    TypesSnoc(trace, e);
    var a' := if path.GetOVNextEntry? then a + 1 else a;
    var b' := if path.DeviceServiceInfo? then b + 1 else b;
    assert Types(trace + [e]) == Word(s'.last, a', b');
  }

  /** Numbers that a word does not depend on can be taken to be zero. */
  lemma {:induction false} Normalise(last: Option<MessageType>, a: nat, b: nat) returns (a': nat, b': nat)
    ensures Word(last, a', b') == Word(last, a, b)
    ensures last == Some(ProveOVHdr) ==> a' == 0
    ensures !InServiceInfo(last) ==> b' == 0
    ensures last != Some(ProveOVHdr) ==> a' == a
    ensures InServiceInfo(last) ==> b' == b
  {
    a' := if last == Some(ProveOVHdr) then 0 else a;
    b' := if InServiceInfo(last) then b else 0;
  }

  lemma {:induction false} AcceptedIsGood(o: Owner, c: Context, s: Session, trace: seq<Event>, path: MessageType, w: Wire<Request>)
    requires GoodSession(o, s, trace) && Serve(o, c, s, path, w).Accepted?
    ensures GoodSession(o, Serve(o, c, s, path, w).session, trace + [Event(w.body, c.vouchers)])
  {
    hide Serve, TraceShape, ProvedBy;
    var s', e := Serve(o, c, s, path, w).session, Event(w.body, c.vouchers);
    AcceptedFields(o, c, s, path, w);
    AcceptedShape(s, trace, s', e);
    if path.ProveDevice? {
      AcceptedProves(o, c, s, path, w);
      assert (trace + [e])[|trace|] == e;
    } else if Late(s'.last) {
      assert Late(s.last);
      var i :| 0 <= i < |trace| && ProvedBy(o, s, trace[i]);
      assert (trace + [e])[i] == trace[i];
      SameProof(o, s, s', trace[i]);
    }
  }

  lemma {:induction false} SameProof(o: Owner, s: Session, s': Session, e: Event)
    requires ProvedBy(o, s, e) && s.guid == s'.guid && s.nonce6 == s'.nonce6
    ensures ProvedBy(o, s', e)
  {
  }

  // ------------------------------------------------- all runs

  /** The session was completed as the protocol prescribes. */
  ghost predicate ProperCompletion(o: Owner, c: Completion) {
    c.session.last == Some(Done2) && c.session.guid == Some(c.guid) && GoodSession(o, c.session, c.trace)
  }

  /** Nothing can happen in this session any more. */
  predicate Finished(v: Server, id: nat) {
    id < v.nextId && (id in v.sessions ==> v.sessions[id].last == Some(Done2))
  }

  ghost predicate Inv(o: Owner, v: Server) {
    && (forall id | id in v.sessions :: id < v.nextId && GoodSession(o, v.sessions[id], TraceOf(v, id)))
    && (forall id | id in v.traces :: id < v.nextId)
    && (forall i | 0 <= i < |v.completions| ::
          ProperCompletion(o, v.completions[i]) && Finished(v, v.completions[i].id) &&
          TraceOf(v, v.completions[i].id) == v.completions[i].trace)
    && (forall g | g in v.performed :: exists i :: 0 <= i < |v.completions| && v.completions[i].guid == g)
  }

  lemma {:induction false} NewSessionIsGood(o: Owner)
    ensures GoodSession(o, NEW_SESSION, [])
  {
    assert Types([]) == Word(None, 0, 0);
  }

  /** A finished session accepts nothing. */
  lemma {:induction false} FinishedRefuses(o: Owner, c: Context, s: Session, path: MessageType, w: Wire<Request>)
    requires s.last == Some(Done2)
    ensures !Serve(o, c, s, path, w).Accepted? && !Serve(o, c, s, path, w).StoredButRefused?
  {
  }

  lemma {:induction false} CompletedByDone(o: Owner, c: Context, s: Session, path: MessageType, w: Wire<Request>)
    requires SessionFields(s) && Serve(o, c, s, path, w).Accepted?
    ensures
      var s' := Serve(o, c, s, path, w).session;
      w.body.DoneMsg? ==> s'.last == Some(Done2) && s'.guid.Some?
  {
    hide Handle;
    AcceptedFields(o, c, s, path, w);
  }

  lemma {:induction false} StoreKeepsInv(o: Owner, v: Server, id: nat, s: Session, e: Event)
    requires Inv(o, v) && (id in v.sessions || id == v.nextId)
    requires GoodSession(o, s, TraceOf(v, id) + [e])
    requires id in v.sessions ==> v.sessions[id].last != Some(Done2)
    requires e.request.DoneMsg? ==> s.last == Some(Done2) && s.guid.Some?
    ensures Inv(o, Store(v, id, s, e))
  {
    hide GoodSession;
    var w := Store(v, id, s, e);
    forall i | 0 <= i < |w.completions|
      ensures ProperCompletion(o, w.completions[i]) && Finished(w, w.completions[i].id) &&
              TraceOf(w, w.completions[i].id) == w.completions[i].trace
    {
      if i < |v.completions| {
        assert w.completions[i] == v.completions[i];
        assert Finished(v, v.completions[i].id) && v.completions[i].id != id;
      }
    }
    forall g | g in w.performed ensures exists i :: 0 <= i < |w.completions| && w.completions[i].guid == g {
      if g in v.performed {
        var i :| 0 <= i < |v.completions| && v.completions[i].guid == g;
        assert w.completions[i].guid == g;
      } else {
        assert w.completions[|v.completions|].guid == g;
      }
    }
  }

  lemma {:induction false} NextKeepsInv(o: Owner, v: Server, i: Input)
    requires Inv(o, v)
    ensures Inv(o, Next(o, v, i))
  {
    hide GoodSession, Serve, Store, ProperCompletion;
    if i.Receive? {
      var s, id := SessionOf(v, i.token), SessionId(v, i.token);
      NewSessionIsGood(o);
      assert GoodSession(o, s, TraceOf(v, id));
      assert SessionFields(s) by { GoodFields(o, s, TraceOf(v, id)); }
      SequenceCheckImpliesEncryption(o, i.context, s, i.path, i.message);
      if Serve(o, i.context, s, i.path, i.message).Accepted? {
        if s.last == Some(Done2) {
          FinishedRefuses(o, i.context, s, i.path, i.message);
        }
        AcceptedIsGood(o, i.context, s, TraceOf(v, id), i.path, i.message);
        CompletedByDone(o, i.context, s, i.path, i.message);
        StoreKeepsInv(o, v, id, Serve(o, i.context, s, i.path, i.message).session, Event(i.message.body, i.context.vouchers));
      }
    }
  }

  lemma {:induction false} GoodFields(o: Owner, s: Session, trace: seq<Event>)
    requires GoodSession(o, s, trace)
    ensures SessionFields(s)
  {
  }

  /** Every reachable server satisfies the invariant: in particular every stored session has exactly
      the fields its last reply calls for. */
  lemma {:induction false} EveryRunIsGood(o: Owner, inputs: seq<Input>)
    ensures Inv(o, Run(o, inputs))
    decreases |inputs|
  {
    hide Next, GoodSession;
    if inputs != [] {
      EveryRunIsGood(o, inputs[..|inputs| - 1]);
      NextKeepsInv(o, Run(o, inputs[..|inputs| - 1]), inputs[|inputs| - 1]);
    }
  }

  /** The protocol as a word: hello, at least one entry, proof, ready, one to 1001 rounds, done. */
  ghost predicate CompleteWord(trace: seq<Event>) {
    exists a: nat, b: nat :: a >= 1 && 1 <= b <= 1001 &&
      Types(trace) == [HelloDevice] + Repeat(GetOVNextEntry, a) + [ProveDevice, DeviceServiceInfoReady] +
                      Repeat(DeviceServiceInfo, b) + [Done]
  }

  /** Whenever a device is marked as onboarded, one session accepted the complete protocol in order
      for it, including a proof of the device's key over that session's own nonce. */
  lemma {:induction false} OnboardedMeansProved(o: Owner, inputs: seq<Input>, g: Guid) returns (c: Completion)
    requires g in Run(o, inputs).performed
    ensures c in Run(o, inputs).completions && c.guid == g && c.session.guid == Some(g)
    ensures CompleteWord(c.trace) && Proved(o, c.session, c.trace)
  {
    hide Run, Word, Types, Proved;
    EveryRunIsGood(o, inputs);
    var v := Run(o, inputs);
    var i :| 0 <= i < |v.completions| && v.completions[i].guid == g;
    c := v.completions[i];
    var a: nat, b: nat :|
      && Types(c.trace) == Word(c.session.last, a, b)
      && (Late(c.session.last) || c.session.last == Some(OVNextEntry) ==> a >= 1)
      && (InServiceInfo(c.session.last) ==> b >= 1 && c.session.loops == Some(b));
    DoneWord(a, b);
  }

  lemma {:induction false} DoneWord(a: nat, b: nat)
    ensures Word(Some(Done2), a, b) ==
            [HelloDevice] + Repeat(GetOVNextEntry, a) + [ProveDevice, DeviceServiceInfoReady] + Repeat(DeviceServiceInfo, b) + [Done]
  {
  }

  /** In every run: no readiness, no ServiceInfo and no end is granted in a session in which the device
      has not proved itself. */
  lemma {:induction false} NothingBeforeProof(o: Owner, inputs: seq<Input>, token: Option<nat>, c: Context, path: MessageType,
                                             w: Wire<Request>)
    requires path.DeviceServiceInfoReady? || path.DeviceServiceInfo? || path.Done?
    requires Serve(o, c, SessionOf(Run(o, inputs), token), path, w).Accepted?
    ensures
      var v := Run(o, inputs);
      Proved(o, SessionOf(v, token), TraceOf(v, SessionId(v, token)))
  {
    EveryRunIsGood(o, inputs);
    hide Run, Handle, Proved, TraceShape, SessionFields;
    var v := Run(o, inputs);
    assert token.Some? && token.value in v.sessions;
    assert GoodSession(o, v.sessions[token.value], TraceOf(v, token.value));
  }

  /** After the end of a session, whatever else happens, no further request is accepted in it. */
  lemma {:induction false} CompletedSessionsAreClosed(o: Owner, inputs: seq<Input>, more: seq<Input>, c: Completion)
    requires c in Run(o, inputs).completions
    ensures TraceOf(Run(o, inputs + more), c.id) == c.trace
    ensures c in Run(o, inputs + more).completions
    decreases |more|
  {
    hide GoodSession, Next, ProperCompletion;
    if more == [] {
      assert inputs + more == inputs;
    } else {
      var before, i := more[..|more| - 1], more[|more| - 1];
      CompletedSessionsAreClosed(o, inputs, before, c);
      assert (inputs + more)[..|inputs + more| - 1] == inputs + before && (inputs + more)[|inputs + more| - 1] == i;
      CompletionsStay(o, Run(o, inputs + before), i, c);
    }
    EveryRunIsGood(o, inputs + more);
    var v := Run(o, inputs + more);
    var k :| 0 <= k < |v.completions| && v.completions[k] == c;
  }

  lemma {:induction false} CompletionsStay(o: Owner, v: Server, i: Input, c: Completion)
    requires c in v.completions
    ensures c in Next(o, v, i).completions
  {
    hide Serve;
  }

  // ------------------------------------------------- what marks a device

  /** An accepted Done in a session with the right fields marks the session's device and records the
      completion. */
  lemma {:induction false} DoneMarks(o: Owner, v: Server, token: Option<nat>, path: MessageType, w: Wire<Request>, c: Context)
    requires SessionFields(SessionOf(v, token)) && w.body.DoneMsg?
    requires Serve(o, c, SessionOf(v, token), path, w).Accepted?
    ensures
      var s, next := SessionOf(v, token), Next(o, v, Receive(token, path, w, c));
      var id, event := SessionId(v, token), Event(w.body, c.vouchers);
      && s.guid.Some? && next.performed == v.performed + {s.guid.value}
      && next.completions == v.completions +
           [Completion(id, s.guid.value, Serve(o, c, s, path, w).session, TraceOf(v, id) + [event])]
  {
    hide Handle;
    AcceptedFields(o, c, SessionOf(v, token), path, w);
    hide Serve;
  }

  /** Nothing else marks a device. */
  lemma {:induction false} OthersDoNotMark(o: Owner, v: Server, i: Input)
    requires i.Receive? ==> SessionFields(SessionOf(v, i.token))
    requires i.Expire? || !i.message.body.DoneMsg? || !Serve(o, i.context, SessionOf(v, i.token), i.path, i.message).Accepted?
    ensures Next(o, v, i).performed == v.performed && Next(o, v, i).completions == v.completions
  {
    if i.Receive? {
      SequenceCheckImpliesEncryption(o, i.context, SessionOf(v, i.token), i.path, i.message);
    }
    hide Serve;
  }

  /** Request `k` of the run is a Done that is accepted in a session of device `g`. */
  predicate DoneAccepted(o: Owner, inputs: seq<Input>, k: nat, g: Guid)
    requires k < |inputs|
  {
    var i, v := inputs[k], Run(o, inputs[..k]);
    && i.Receive? && i.message.body.DoneMsg? && SessionOf(v, i.token).guid == Some(g)
    && Serve(o, i.context, SessionOf(v, i.token), i.path, i.message).Accepted?
  }

  lemma {:induction false} SessionsHaveTheirFields(o: Owner, inputs: seq<Input>, token: Option<nat>)
    ensures SessionFields(SessionOf(Run(o, inputs), token))
  {
    hide Run;
    EveryRunIsGood(o, inputs);
    var v := Run(o, inputs);
    if token.Some? && token.value in v.sessions {
      GoodFields(o, v.sessions[token.value], TraceOf(v, token.value));
    }
  }

  ghost predicate SomeDone(o: Owner, inputs: seq<Input>, g: Guid) {
    exists k: nat :: k < |inputs| && DoneAccepted(o, inputs, k, g)
  }

  /** In every run exactly those devices are marked as onboarded for which a Done was accepted. */
  lemma {:induction false} MarkedIff(o: Owner, inputs: seq<Input>, g: Guid)
    ensures g in Run(o, inputs).performed <==> SomeDone(o, inputs, g)
    decreases |inputs|
  {
    if inputs != [] {
      var n := |inputs| - 1;
      var before, i := inputs[..n], inputs[n];
      MarkedIff(o, before, g);
      LastDone(o, inputs, g);
      hide SomeDone;
      var v := Run(o, before);
      if i.Receive? {
        SessionsHaveTheirFields(o, before, i.token);
      }
      if i.Receive? && i.message.body.DoneMsg? && Serve(o, i.context, SessionOf(v, i.token), i.path, i.message).Accepted? {
        DoneMarks(o, v, i.token, i.path, i.message, i.context);
      } else {
        OthersDoNotMark(o, v, i);
      }
    }
  }

  /** The last request, and the ones before it. */
  lemma {:induction false} LastDone(o: Owner, inputs: seq<Input>, g: Guid)
    requires inputs != []
    ensures SomeDone(o, inputs, g) <==> SomeDone(o, inputs[..|inputs| - 1], g) || DoneAccepted(o, inputs, |inputs| - 1, g)
  {
    hide Run, Serve, DoneAccepted;
    var before := inputs[..|inputs| - 1];
    forall k: nat | k < |before| ensures DoneAccepted(o, inputs, k, g) <==> DoneAccepted(o, before, k, g) {
      SameDone(o, inputs, k, g);
    }
  }

  lemma {:induction false} SameDone(o: Owner, inputs: seq<Input>, k: nat, g: Guid)
    requires k < |inputs| - 1
    ensures DoneAccepted(o, inputs, k, g) <==> DoneAccepted(o, inputs[..|inputs| - 1], k, g)
  {
    hide Run, Serve;
    assert inputs[..|inputs| - 1][..k] == inputs[..k] && inputs[..|inputs| - 1][k] == inputs[k];
  }

  /** In every run: up to ProveDevice nothing is encrypted; everything later is served only if it was
      sealed with the keys of its session, and the answer is sealed with them. */
  lemma {:induction false} OnlySealedIsServed(o: Owner, inputs: seq<Input>, token: Option<nat>, path: MessageType, w: Wire<Request>, c: Context)
    requires Serve(o, c, SessionOf(Run(o, inputs), token), path, w).Accepted?
    ensures
      var s, e := SessionOf(Run(o, inputs), token), Serve(o, c, SessionOf(Run(o, inputs), token), path, w);
      && w.keys == s.keys && (w.keys.Some? <==> path.Code() >= 66)
      && e.reply.keys == e.session.keys && (e.reply.keys.Some? <==> path.Code() >= 64)
      && e.reply.body.Type().Code() == path.Code() + 1
  {
    SessionsHaveTheirFields(o, inputs, token);
    var s := SessionOf(Run(o, inputs), token);
    hide Run;
    SealedBothWays(o, s, path, w, c);
  }

  lemma {:induction false} SealedBothWays(o: Owner, s: Session, path: MessageType, w: Wire<Request>, c: Context)
    requires SessionFields(s) && Serve(o, c, s, path, w).Accepted?
    ensures
      var e := Serve(o, c, s, path, w);
      && w.keys == s.keys && (w.keys.Some? <==> path.Code() >= 66)
      && e.reply.keys == e.session.keys && (e.reply.keys.Some? <==> path.Code() >= 64)
      && e.reply.body.Type().Code() == path.Code() + 1
  {
    hide V.DecodeSigned, V.EncodeSigned, DeriveKey, GetPublic, VerifiedEat, HeaderRaw;
  }

  // ------------------------------------------------- the server as an object

  /** From the checks of `parse_request` to the encrypted response: the session to store, if the
      handler succeeded, and the response. */
  method Answer(owner: Owner, session: Session, path: MessageType, message: Wire<Request>, context: Context)
      returns (stored: Option<Session>, reply: Option<Wire<Reply>>)
    ensures
      match Serve(owner, context, session, path, message)
      case Refused(_) => stored.None? && reply.None?
      case Accepted(r, s) => stored == Some(s) && reply == Some(r)
      case StoredButRefused(s) => stored == Some(s) && reply.None?
  {
    hide Handle;
    var live := new LiveSession(session);
    if !path.ValidAfter(session.last) || !EncryptionMet(path, session.keys) {
      return None, None;
    }
    var body := Open(session.keys, message);
    if body.None? || body.value.Type() != path {
      return None, None;
    }
    var response := live.Dispatch(owner, context, body.value);
    if !response.Ok? {
      return None, None;
    }
    live.last := Some(response.value.Type());
    stored := Some(live.State());
    reply := if EncryptionMet(response.value.Type(), live.keys) then Some(Wire(live.keys, response.value)) else None;
  }

  class OwnerServer {
    const owner: Owner
    var sessions: map<nat, Session>
    var nextId: nat
    var performed: set<Guid>
    ghost var traces: map<nat, seq<Event>>
    ghost var completions: seq<Completion>

    ghost function State(): Server
      reads this
    {
      Server(sessions, nextId, performed, traces, completions)
    }

    constructor (owner: Owner)
      ensures State() == START && this.owner == owner
    {
      this.owner := owner;
      sessions, nextId, performed, traces, completions := map[], 0, {}, map[], [];
    }

    /** One HTTP request, as one step: an error or a panic anywhere leaves everything as it was. */
    method Receive(token: Option<nat>, path: MessageType, message: Wire<Request>, context: Context)
        returns (reply: Option<Wire<Reply>>)
      modifies this
      ensures State() == Next(owner, old(State()), Input.Receive(token, path, message, context))
      ensures
        var ending := Serve(owner, context, SessionOf(old(State()), token), path, message);
        reply == if ending.Accepted? then Some(ending.reply) else None
    {
      hide Serve, Store;
      var known := token.Some? && token.value in sessions;
      var id := if known then token.value else nextId;
      var session := if known then sessions[token.value] else NEW_SESSION;
      var stored: Option<Session>;
      stored, reply := Answer(owner, session, path, message, context);
      if stored.Some? {
        StoreSession(id, stored.value, Event(message.body, context.vouchers), message.body.DoneMsg?);
      }
    }

    /** `store_session`, and the To2Performed mark a finished Done leaves. */
    method StoreSession(id: nat, session: Session, ghost e: Event, finished: bool)
      requires finished <==> e.request.DoneMsg?
      modifies this
      ensures State() == Store(old(State()), id, session, e)
    {
      ghost var trace := TraceOf(State(), id) + [e];
      if finished && session.guid.Some? {
        performed := performed + {session.guid.value};
        completions := completions + [Completion(id, session.guid.value, session, trace)];
      }
      sessions := sessions[id := session];
      traces := traces[id := trace];
      if id == nextId {
        nextId := nextId + 1;
      }
    }

    /** Session expiry. */
    method Expire(id: nat)
      modifies this
      ensures State() == Next(owner, old(State()), Input.Expire(id))
    {
      sessions := sessions - {id};
    }
  }
}
