/** Registration with the rendezvous server, and re-registration before it runs out:
owner-onboarding-server/src/main.rs, rendezvous-server/src/handlers_to0.rs, store/src/directory.rs
and the filter of db/src/sqlite.rs. Times are real numbers of seconds; what is stored are whole ones. */
module Registrations {
  import opened Outcomes
  import opened To2Messages

  // ------------------------------------------------- settings

  const MAINTENANCE_INTERVAL: nat := 60
  const DEFAULT_REGISTRATION_PERIOD: nat := 600
  const DEFAULT_RE_REGISTRATION_WINDOW: nat := 61

  datatype Settings = Settings(period: nat, window: nat)

  datatype SettingsError = ZeroPeriod | ZeroWindow | WindowTooSmall | WindowNotBelowPeriod

  /** The validation at start-up: settings are accepted exactly if the window is longer than a minute
      and shorter than the period. */
  function CheckSettings(period: Option<nat>, window: Option<nat>): (r: Outcome<Settings, SettingsError>)
    ensures
      var p, w := if period.Some? then period.value else 600, if window.Some? then window.value else 61;
      && (r == Ok(Settings(p, w)) <==> 60 < w < p)
      && (r == Err(ZeroPeriod) <==> p == 0)
      && (r == Err(ZeroWindow) <==> p > 0 && w == 0)
      && (r == Err(WindowTooSmall) <==> p > 0 && 0 < w <= 60)
      && (r == Err(WindowNotBelowPeriod) <==> 60 < w && 0 < p <= w)
  {
    var p := if period.Some? then period.value else DEFAULT_REGISTRATION_PERIOD;
    var w := if window.Some? then window.value else DEFAULT_RE_REGISTRATION_WINDOW;
    if p == 0 then Err(ZeroPeriod)
    else if w == 0 then Err(ZeroWindow)
    else if w <= MAINTENANCE_INTERVAL then Err(WindowTooSmall)
    else if w >= p then Err(WindowNotBelowPeriod)
    else Ok(Settings(p, w))
  }

  /** The rendezvous server cuts the requested time to its own maximum. */
  function Granted(requested: nat, maxWait: nat): nat {
    if requested > maxWait then maxWait else requested
  }

  /** What matters while the servers run: the window, and the time every registration is granted. */
  datatype Config = Config(window: nat, wait: nat)

  function ConfigOf(s: Settings, maxWait: nat): Config {
    Config(s.window, Granted(s.period, maxWait))
  }

  // ------------------------------------------------- the two stores

  /** A voucher in the owner's database: until when it is registered, if it ever was. */
  datatype Row = Row(expiry: Option<int>, performed: bool)

  /** The filter of the query for vouchers to register again. */
  predicate Due(row: Row, limit: int) {
    !row.performed && (row.expiry.None? || row.expiry.value < limit)
  }

  /** The rendezvous server's directory: items with an optional time to live. */
  type Items = map<Guid, Option<int>>

  predicate Expired(ttl: Option<int>, now: real) {
    ttl.Some? && now >= ttl.value as real
  }

  /** Maintenance deletes what has expired. */
  function Maintained(items: Items, now: real): Items {
    map g | g in items && !Expired(items[g], now) :: items[g]
  }

  /** Loading an item that has expired, strictly, deletes it. */
  function AfterLoad(items: Items, g: Guid, now: real): Items {
    if g in items && items[g].Some? && now > items[g].value as real then items - {g} else items
  }

  // ------------------------------------------------- runs

  /** One step of the owner server, of the rendezvous server, or of a device. Passes may overlap: the
      maintenance loop and requests to report all run beside each other. */
  datatype Event =
    | Insert(g: Guid)                   // a voucher is imported
    | Select(windowed: bool)            // a pass begins: vouchers expired, or about to expire within the window
    | Accept(g: Guid)                   // the rendezvous server stores a selected voucher's address
    | Confirm(g: Guid, granted: real)   // the owner stores the time granted then
    | ReportFails(g: Guid)
    | Load(g: Guid)                     // a device asks for its address
    | Maintain                          // maintenance of the rendezvous server
    | Perform(g: Guid)                  // TO2 was performed

  /** Both stores, the vouchers that passes have selected, the grants not yet written down, and when
      each voucher was last accepted or seen not to be due. */
  datatype State = State(
    now: real,
    rows: map<Guid, Row>,
    items: Items,
    pending: multiset<Guid>,
    accepted: multiset<(Guid, real)>,
    seen: map<Guid, real>)

  const START := State(0.0, map[], map[], multiset{}, multiset{}, map[])

  function Limit(c: Config, t: real, windowed: bool): int {
    t.Floor + if windowed then c.window else 0
  }

  function Selected(rows: map<Guid, Row>, limit: int): set<Guid> {
    set g | g in rows && Due(rows[g], limit)
  }

  /** Time does not run backwards, and a report follows a selection, a confirmation a grant. */
  predicate Enabled(st: State, t: real, e: Event) {
    t >= st.now &&
    match e
    case Accept(g) => g in st.pending
    case Confirm(g, granted) => (g, granted) in st.accepted
    case ReportFails(g) => g in st.pending
    case _ => true
  }

  function Apply(c: Config, st: State, t: real, e: Event): State {
    var s := st.(now := t);
    match e
    case Insert(g) => if g in st.rows then s else s.(rows := st.rows[g := Row(None, false)])
    case Select(windowed) =>
      var limit := Limit(c, t, windowed);
      s.(pending := st.pending + multiset(Selected(st.rows, limit)),
         seen := map g | g in st.seen :: if windowed && g in st.rows && !st.rows[g].performed && !Due(st.rows[g], limit) then t else st.seen[g])
    case Accept(g) =>
      s.(pending := st.pending - multiset{g}, accepted := st.accepted + multiset{(g, t)},
         items := st.items[g := Some(t.Floor + c.wait)], seen := st.seen[g := t])
    case Confirm(g, granted) =>
      var s1 := s.(accepted := st.accepted - multiset{(g, granted)});
      if g in st.rows then s1.(rows := st.rows[g := st.rows[g].(expiry := Some(t.Floor + c.wait))]) else s1
    case ReportFails(g) => s.(pending := st.pending - multiset{g})
    case Load(g) => s.(items := AfterLoad(st.items, g, t))
    case Maintain => s.(items := Maintained(st.items, t))
    case Perform(g) => if g in st.rows then s.(rows := st.rows[g := st.rows[g].(performed := true)]) else s
  }

  type History = seq<(real, Event)>

  function Run(c: Config, h: History): State {
    if h == [] then START
    else
      var (t, e) := h[|h| - 1];
      Apply(c, Run(c, h[..|h| - 1]), t, e)
  }

  predicate Valid(c: Config, h: History) {
    h == [] || (Valid(c, h[..|h| - 1]) && Enabled(Run(c, h[..|h| - 1]), h[|h| - 1].0, h[|h| - 1].1))
  }

  /** The voucher has been registered, and is still to be onboarded. */
  predicate Waiting(st: State, g: Guid) {
    g in st.seen && g in st.rows && !st.rows[g].performed
  }

  /** A delay, and the whole seconds it can look like in the stores. */
  type Delay = d: real | d >= 0.0 witness 0.0

  function Whole(d: Delay): (r: nat)
    ensures d <= r as real < d + 1.0
  {
    -(0.0 - d).Floor
  }

  /** One step with a reachable rendezvous server: since the voucher was last accepted or seen not to
      be due, less than `gap` has passed; and a grant reaches the owner's database within `lag`. */
  predicate Attentive(st: State, t: real, e: Event, g: Guid, gap: real, lag: Delay) {
    && (Waiting(st, g) ==> t < st.seen[g] + gap)
    && (e.Confirm? && e.g == g ==> t <= e.granted + lag)
    && e != ReportFails(g)
  }

  predicate AlwaysAttentive(c: Config, h: History, g: Guid, gap: real, lag: Delay) {
    h == [] ||
    (AlwaysAttentive(c, h[..|h| - 1], g, gap, lag) &&
     Attentive(Run(c, h[..|h| - 1]), h[|h| - 1].0, h[|h| - 1].1, g, gap, lag))
  }

  /** A device that asks now gets its address, and maintenance keeps it. */
  predicate Registered(st: State, g: Guid) {
    g in st.items && !Expired(st.items[g], st.now)
  }

  // ------------------------------------------------- no lapse

  /** The books agree on a voucher: only a known one is in a pass or has been accepted, only an
      accepted one has a time on record, and none that lies further ahead than a grant. */
  ghost predicate Books(c: Config, st: State, g: Guid) {
    && (g in st.seen || g in st.pending ==> g in st.rows)
    && (forall r: real :: (g, r) in st.accepted ==> g in st.seen)
    && (g in st.rows && st.rows[g].expiry.Some? ==> g in st.seen && st.rows[g].expiry.value <= st.now.Floor + c.wait)
  }

  /** What is known of a waiting voucher between any two steps. */
  ghost predicate Kept(c: Config, st: State, g: Guid, lag: nat) {
    Waiting(st, g) ==>
      && st.seen[g] <= st.now && g in st.items && st.items[g].Some? && st.items[g].value <= st.now.Floor + c.wait
      && (st.items[g].value >= st.seen[g].Floor + c.wait ||
          (c.window <= c.wait && st.items[g].value >= st.seen[g].Floor + c.window - lag))
      && (st.rows[g].expiry.Some? ==> st.rows[g].expiry.value <= st.items[g].value + lag)
      && (forall r: real :: (g, r) in st.accepted ==> st.items[g].value >= r.Floor + c.wait)
  }

  /** The guard: if grants last at least as long as the window, a gap, a lag in whole seconds and a second of rounding
      have to fit into the window; if they are shorter, a gap and a second have to fit into a grant. */
  predicate Sufficient(c: Config, gap: real, lag: Delay) {
    if c.window <= c.wait then gap + Whole(lag) as real + 1.0 <= c.window as real else gap + 1.0 <= c.wait as real
  }

  /** Before its time a waiting voucher has not expired. */
  lemma {:induction false} NotYetExpired(c: Config, st: State, t: real, g: Guid, gap: real, lag: Delay)
    requires Sufficient(c, gap, lag) && Kept(c, st, g, Whole(lag)) && Waiting(st, g) && t < st.seen[g] + gap
    ensures g in st.items && st.items[g].Some? && t < st.items[g].value as real
  {
  }

  lemma {:induction false} FloorAdds(x: real, y: real, n: nat)
    requires y <= x + n as real
    ensures y.Floor <= x.Floor + n
  {
  }

  lemma {:induction false} SelectKeeps(c: Config, st: State, t: real, windowed: bool, g: Guid, lag: nat)
    requires Kept(c, st, g, lag) && Books(c, st, g) && t >= st.now
    ensures Kept(c, Apply(c, st, t, Select(windowed)), g, lag) && Books(c, Apply(c, st, t, Select(windowed)), g)
  {
    assert st.now.Floor <= t.Floor;
    var next := Apply(c, st, t, Select(windowed));
    assert next.rows == st.rows && next.items == st.items && next.accepted == st.accepted;
    assert g in next.pending ==> g in st.pending || g in st.rows;
    assert g in next.seen <==> g in st.seen;
    hide Selected;
  }

  lemma {:induction false} AcceptKeeps(c: Config, st: State, t: real, k: Guid, g: Guid, lag: nat)
    requires Kept(c, st, g, lag) && Books(c, st, g) && Enabled(st, t, Accept(k))
    ensures Kept(c, Apply(c, st, t, Accept(k)), g, lag) && Books(c, Apply(c, st, t, Accept(k)), g)
  {
    assert st.now.Floor <= t.Floor;
    var next := Apply(c, st, t, Accept(k));
    forall r: real | (g, r) in next.accepted ensures (g, r) in st.accepted || (g == k && r == t) {
    }
    assert g in next.pending ==> g in st.pending;
  }

  lemma {:induction false} ConfirmKeeps(c: Config, st: State, t: real, k: Guid, granted: real, g: Guid, lag: Delay)
    requires Kept(c, st, g, Whole(lag)) && Books(c, st, g) && Enabled(st, t, Confirm(k, granted)) && (k == g ==> t <= granted + lag)
    ensures Kept(c, Apply(c, st, t, Confirm(k, granted)), g, Whole(lag)) && Books(c, Apply(c, st, t, Confirm(k, granted)), g)
  {
    assert st.now.Floor <= t.Floor;
    var next := Apply(c, st, t, Confirm(k, granted));
    forall r: real | (g, r) in next.accepted ensures (g, r) in st.accepted {
    }
    if k == g {
      FloorAdds(granted, t, Whole(lag));
    }
  }

  /** Steps that touch neither grants nor times: the entry of a waiting voucher outlives them all. */
  lemma {:induction false} OthersKeep(c: Config, st: State, t: real, e: Event, g: Guid, lag: nat)
    requires Kept(c, st, g, lag) && Books(c, st, g) && t >= st.now
    requires e.Insert? || e.ReportFails? || e.Load? || e.Maintain? || e.Perform?
    requires Waiting(st, g) ==> g in st.items && st.items[g].Some? && t < st.items[g].value as real
    ensures Kept(c, Apply(c, st, t, e), g, lag) && Books(c, Apply(c, st, t, e), g)
  {
    assert st.now.Floor <= t.Floor;
    var next := Apply(c, st, t, e);
    assert next.accepted == st.accepted && next.seen == st.seen;
    assert g in next.pending ==> g in st.pending;
  }

  lemma {:induction false} StepKeeps(c: Config, st: State, t: real, e: Event, g: Guid, gap: real, lag: Delay)
    requires Sufficient(c, gap, lag) && Kept(c, st, g, Whole(lag)) && Books(c, st, g)
    requires Enabled(st, t, e) && Attentive(st, t, e, g, gap, lag)
    ensures Kept(c, Apply(c, st, t, e), g, Whole(lag)) && Books(c, Apply(c, st, t, e), g)
  {
    hide Kept, Books, Apply, Sufficient;
    match e {
      case Select(windowed) => SelectKeeps(c, st, t, windowed, g, Whole(lag));
      case Accept(k) => AcceptKeeps(c, st, t, k, g, Whole(lag));
      case Confirm(k, granted) => ConfirmKeeps(c, st, t, k, granted, g, lag);
      case _ =>
        if Waiting(st, g) {
          NotYetExpired(c, st, t, g, gap, lag);
        }
        OthersKeep(c, st, t, e, g, Whole(lag));
    }
  }

  /** No time on record lies further ahead than a grant. */
  predicate WithinGrant(c: Config, st: State, g: Guid) {
    g in st.rows && st.rows[g].expiry.Some? ==> st.rows[g].expiry.value <= st.now.Floor + c.wait
  }

  lemma {:induction false} AlwaysWithinGrant(c: Config, h: History, g: Guid)
    requires Valid(c, h)
    ensures WithinGrant(c, Run(c, h), g)
    decreases |h|
  {
    hide Apply, WithinGrant;
    if h == [] {
      assert g !in START.rows;
      assert WithinGrant(c, START, g) by { StartKeeps(c, g, 0); }
    } else {
      AlwaysWithinGrant(c, h[..|h| - 1], g);
      StepWithinGrant(c, Run(c, h[..|h| - 1]), h[|h| - 1].0, h[|h| - 1].1, g);
    }
  }

  lemma {:induction false} StepWithinGrant(c: Config, st: State, t: real, e: Event, g: Guid)
    requires WithinGrant(c, st, g) && t >= st.now
    ensures WithinGrant(c, Apply(c, st, t, e), g)
  {
    assert st.now.Floor <= t.Floor;
  }

  lemma {:induction false} RunKeeps(c: Config, h: History, g: Guid, gap: real, lag: Delay)
    requires Sufficient(c, gap, lag) && gap > 0.0 && Valid(c, h) && AlwaysAttentive(c, h, g, gap, lag)
    ensures Kept(c, Run(c, h), g, Whole(lag)) && Books(c, Run(c, h), g)
    ensures Waiting(Run(c, h), g) ==> Run(c, h).now < Run(c, h).seen[g] + gap
    decreases |h|
  {
    hide Kept, Apply, Books, Attentive, Enabled, Sufficient;
    if h == [] {
      StartKeeps(c, g, Whole(lag));
    } else {
      var before := h[..|h| - 1];
      var (t, e) := h[|h| - 1];
      RunKeeps(c, before, g, gap, lag);
      StepKeeps(c, Run(c, before), t, e, g, gap, lag);
      StepIsTimely(c, Run(c, before), t, e, g, gap, lag);
    }
  }

  lemma {:induction false} StartKeeps(c: Config, g: Guid, lag: nat)
    ensures Books(c, START, g) && Kept(c, START, g, lag) && WithinGrant(c, START, g)
  {
  }

  lemma {:induction false} StepIsTimely(c: Config, st: State, t: real, e: Event, g: Guid, gap: real, lag: Delay)
    requires Enabled(st, t, e) && Attentive(st, t, e, g, gap, lag) && gap > 0.0 && Books(c, st, g)
    ensures var next := Apply(c, st, t, e); Waiting(next, g) ==> next.now < next.seen[g] + gap
  {
  }

  lemma {:induction false} StillThere(c: Config, st: State, t: real, g: Guid)
    requires st.now <= t && g in st.items && st.items[g].Some? && t < st.items[g].value as real
    ensures Registered(st, g) && Registered(Apply(c, st, t, Maintain), g) && Registered(Apply(c, st, t, Load(g)), g)
  {
  }

  /** No lapse: in every attentive run, whatever else happens in between, a voucher that was once
      registered and is not yet onboarded is registered, and stays so until its next chance. */
  lemma {:induction false} NeverLapses(c: Config, h: History, g: Guid, gap: real, lag: Delay)
    requires Sufficient(c, gap, lag) && gap > 0.0 && Valid(c, h) && AlwaysAttentive(c, h, g, gap, lag)
    requires Waiting(Run(c, h), g)
    ensures
      var st := Run(c, h);
      && Registered(st, g)
      && forall t: real :: st.now <= t < st.seen[g] + gap ==> Registered(Apply(c, st, t, Maintain), g) && Registered(Apply(c, st, t, Load(g)), g)
  {
    RunKeeps(c, h, g, gap, lag);
    var st := Run(c, h);
    hide Run, Valid, AlwaysAttentive, Kept, Sufficient, Apply, Registered;
    NotYetExpired(c, st, st.now, g, gap, lag);
    StillThere(c, st, st.now, g);
    forall t: real | st.now <= t < st.seen[g] + gap
      ensures Registered(Apply(c, st, t, Maintain), g) && Registered(Apply(c, st, t, Load(g)), g)
    {
      NotYetExpired(c, st, t, g, gap, lag);
      StillThere(c, st, t, g);
    }
  }

  // ------------------------------------------------- exactly when

  ghost predicate NoLapse(c: Config, gap: real, lag: Delay) {
    forall h: History, g: Guid ::
      Valid(c, h) && AlwaysAttentive(c, h, g, gap, lag) && Waiting(Run(c, h), g) ==> Registered(Run(c, h), g)
  }

  /** One voucher, registered until `ttl` as the owner believes until `expiry`, and no pass under way. */
  predicate Quiet(st: State, g: Guid, expiry: Option<int>, ttl: int) {
    && st.rows == map[g := Row(expiry, false)] && st.items == map[g := Some(ttl)]
    && st.pending == multiset{} && g in st.seen
  }

  lemma {:induction false} Snoc(c: Config, h: History, t: real, e: Event, g: Guid, gap: real, lag: Delay)
    requires Valid(c, h) && AlwaysAttentive(c, h, g, gap, lag)
    requires Enabled(Run(c, h), t, e) && Attentive(Run(c, h), t, e, g, gap, lag)
    ensures Valid(c, h + [(t, e)]) && AlwaysAttentive(c, h + [(t, e)], g, gap, lag)
    ensures Run(c, h + [(t, e)]) == Apply(c, Run(c, h), t, e)
  {
    hide Enabled, Attentive, Apply;
    assert (h + [(t, e)])[..|h + [(t, e)]| - 1] == h;
  }

  /** A pass that finds the voucher not to be due. */
  lemma {:induction false} QuietPass(c: Config, h: History, t: real, g: Guid, gap: real, lag: Delay, expiry: int, ttl: int)
      returns (h': History)
    requires Valid(c, h) && AlwaysAttentive(c, h, g, gap, lag) && Quiet(Run(c, h), g, Some(expiry), ttl)
    requires Run(c, h).now <= t < Run(c, h).seen[g] + gap && expiry >= t.Floor + c.window
    ensures Valid(c, h') && AlwaysAttentive(c, h', g, gap, lag) && Quiet(Run(c, h'), g, Some(expiry), ttl)
    ensures Run(c, h').now == t && Run(c, h').seen[g] == t && Run(c, h').accepted == Run(c, h).accepted
  {
    h' := h + [(t, Select(true))];
    Snoc(c, h, t, Select(true), g, gap, lag);
    var st := Run(c, h);
    hide Run, Valid, AlwaysAttentive;
    assert Selected(st.rows, Limit(c, t, true)) == {};
  }

  lemma {:induction false} OneStepLess(distance: real, half: real, k: nat)
    requires half > 0.0 && distance < (k + 1) as real * half && distance >= 2.0 * half
    ensures k > 0 && distance - half < k as real * half
  {
    assert (k + 1) as real * half == k as real * half + half;
    assert k == 0 ==> k as real * half == 0.0;
  }

  /** Passes close enough to each other carry a quiet state up to `q`. */
  lemma {:induction false} Coast(c: Config, h: History, q: real, g: Guid, gap: real, lag: Delay, expiry: int, ttl: int, k: nat)
      returns (h': History)
    requires Valid(c, h) && AlwaysAttentive(c, h, g, gap, lag) && Quiet(Run(c, h), g, Some(expiry), ttl)
    requires Run(c, h).now <= q && Run(c, h).now < Run(c, h).seen[g] + gap && expiry >= q.Floor + c.window && gap > 0.0
    requires q < Run(c, h).seen[g] + (k + 1) as real * (gap / 2.0)
    ensures Valid(c, h') && AlwaysAttentive(c, h', g, gap, lag) && Quiet(Run(c, h'), g, Some(expiry), ttl)
    ensures Run(c, h').now == q && Run(c, h').seen[g] == q
    decreases k
  {
    hide Run, Valid, AlwaysAttentive, Quiet;
    QuietSeen(Run(c, h), g, Some(expiry), ttl);
    var st := Run(c, h);
    if q < st.seen[g] + gap {
      h' := QuietPass(c, h, q, g, gap, lag, expiry, ttl);
    } else {
      var half := gap / 2.0;
      var t := if st.now > st.seen[g] + half then st.now else st.seen[g] + half;
      OneStepLess(q - st.seen[g], half, k);
      var h1 := QuietPass(c, h, t, g, gap, lag, expiry, ttl);
      h' := Coast(c, h1, q, g, gap, lag, expiry, ttl, k - 1);
    }
  }

  lemma {:induction false} QuietSeen(st: State, g: Guid, expiry: Option<int>, ttl: int)
    requires Quiet(st, g, expiry, ttl)
    ensures g in st.seen
  {
  }

  /** A request to report, and the rendezvous server's grant: nothing is written down yet. */
  lemma {:induction false} FirstGrant(c: Config, t: real, g: Guid, gap: real, lag: Delay) returns (h: History)
    requires t >= 0.0
    ensures Valid(c, h) && AlwaysAttentive(c, h, g, gap, lag) && Quiet(Run(c, h), g, None, t.Floor + c.wait)
    ensures Run(c, h).now == t && Run(c, h).seen[g] == t && Run(c, h).accepted == multiset{(g, t)}
  {
    h := [];
    assert Run(c, h) == START;
    Snoc(c, h, 0.0, Insert(g), g, gap, lag);
    h := h + [(0.0, Insert(g))];
    Snoc(c, h, t, Select(false), g, gap, lag);
    h := h + [(t, Select(false))];
    assert Run(c, h).pending == multiset{g};
    Snoc(c, h, t, Accept(g), g, gap, lag);
    h := h + [(t, Accept(g))];
  }

  /** Several requests to report at once, all granted at the same time `r` and none written down. */
  lemma {:induction false} ManyGrants(c: Config, r: real, g: Guid, gap: real, lag: Delay, k: nat) returns (h: History)
    requires gap > 0.0 && r >= 0.0
    ensures Valid(c, h) && AlwaysAttentive(c, h, g, gap, lag) && Quiet(Run(c, h), g, None, r.Floor + c.wait)
    ensures Run(c, h).now == r && Run(c, h).seen[g] == r && Run(c, h).accepted[(g, r)] == k + 1
  {
    if k == 0 {
      h := FirstGrant(c, r, g, gap, lag);
    } else {
      var h0 := ManyGrants(c, r, g, gap, lag, k - 1);
      h := OneMoreGrant(c, h0, r, g, gap, lag, k);
    }
  }

  lemma {:induction false} RequestAndGrant(c: Config, st: State, r: real, g: Guid, ttl: int)
    requires Quiet(st, g, None, ttl) && st.now == r && st.seen[g] == r
    ensures
      var next := Apply(c, Apply(c, st, r, Select(false)), r, Accept(g));
      && Enabled(Apply(c, st, r, Select(false)), r, Accept(g))
      && Apply(c, st, r, Select(false)).now == r && Apply(c, st, r, Select(false)).seen == st.seen
      && Quiet(next, g, None, r.Floor + c.wait) && next.now == r && next.seen[g] == r
      && next.accepted[(g, r)] == st.accepted[(g, r)] + 1
  {
    assert Selected(st.rows, Limit(c, r, false)) == {g};
    assert Apply(c, st, r, Select(false)).pending == multiset{g};
  }

  lemma {:induction false} OneMoreGrant(c: Config, h0: History, r: real, g: Guid, gap: real, lag: Delay, k: nat) returns (h: History)
    requires Valid(c, h0) && AlwaysAttentive(c, h0, g, gap, lag) && Quiet(Run(c, h0), g, None, r.Floor + c.wait) && gap > 0.0
    requires Run(c, h0).now == r && Run(c, h0).seen[g] == r && Run(c, h0).accepted[(g, r)] == k
    ensures Valid(c, h) && AlwaysAttentive(c, h, g, gap, lag) && Quiet(Run(c, h), g, None, r.Floor + c.wait)
    ensures Run(c, h).now == r && Run(c, h).seen[g] == r && Run(c, h).accepted[(g, r)] == k + 1
  {
    hide Run, Valid, AlwaysAttentive, Apply, Quiet;
    var h1 := h0 + [(r, Select(false))];
    h := h1 + [(r, Accept(g))];
    RequestAndGrant(c, Run(c, h0), r, g, r.Floor + c.wait);
    Snoc(c, h0, r, Select(false), g, gap, lag);
    Snoc(c, h1, r, Accept(g), g, gap, lag);
  }

  lemma {:induction false} LateConfirm(c: Config, st: State, r: real, t: real, g: Guid, expiry: Option<int>, ttl: int, k: nat)
    requires Quiet(st, g, expiry, ttl) && st.accepted[(g, r)] == k + 1
    ensures
      var next := Apply(c, st, t, Confirm(g, r));
      && (g, r) in st.accepted && Quiet(next, g, Some(t.Floor + c.wait), ttl) && next.now == t && next.seen == st.seen
      && next.accepted[(g, r)] == k
  {
  }

  /** A late confirmation, and a pass in the same moment that finds the voucher not to be due. */
  lemma {:induction false} ConfirmAndPass(c: Config, h: History, r: real, t: real, g: Guid, gap: real, lag: Delay,
                                         expiry: Option<int>, ttl: int, k: nat)
      returns (h': History)
    requires c.window <= c.wait && Valid(c, h) && AlwaysAttentive(c, h, g, gap, lag) && Quiet(Run(c, h), g, expiry, ttl)
    requires Run(c, h).now <= t < Run(c, h).seen[g] + gap && t <= r + lag && Run(c, h).accepted[(g, r)] == k + 1
    ensures Valid(c, h') && AlwaysAttentive(c, h', g, gap, lag) && Quiet(Run(c, h'), g, Some(t.Floor + c.wait), ttl)
    ensures Run(c, h').now == t && Run(c, h').seen[g] == t && Run(c, h').accepted[(g, r)] == k
  {
    hide Run, Valid, AlwaysAttentive, Apply, Quiet;
    QuietSeen(Run(c, h), g, expiry, ttl);
    LateConfirm(c, Run(c, h), r, t, g, expiry, ttl, k);
    Snoc(c, h, t, Confirm(g, r), g, gap, lag);
    h' := QuietPass(c, h + [(t, Confirm(g, r))], t, g, gap, lag, t.Floor + c.wait, ttl);
  }

  /** Confirmations of old grants, close enough to each other, carry the belief of the owner on by
      `lag` while the rendezvous server keeps the time of the first. */
  lemma {:induction false} Drift(c: Config, h: History, r: real, g: Guid, gap: real, lag: Delay, expiry: Option<int>, ttl: int, k: nat)
      returns (h': History)
    requires c.window <= c.wait && Valid(c, h) && AlwaysAttentive(c, h, g, gap, lag) && Quiet(Run(c, h), g, expiry, ttl)
    requires Run(c, h).now == Run(c, h).seen[g] <= r + lag && gap > 0.0 && Run(c, h).accepted[(g, r)] == k + 1
    requires r + lag < Run(c, h).seen[g] + (k + 1) as real * (gap / 2.0)
    ensures Valid(c, h') && AlwaysAttentive(c, h', g, gap, lag) && Quiet(Run(c, h'), g, Some((r + lag).Floor + c.wait), ttl)
    ensures Run(c, h').now == Run(c, h').seen[g] == r + lag
    decreases k
  {
    hide Run, Valid, AlwaysAttentive, Quiet;
    QuietSeen(Run(c, h), g, expiry, ttl);
    var st := Run(c, h);
    if r + lag < st.seen[g] + gap {
      h' := ConfirmAndPass(c, h, r, r + lag, g, gap, lag, expiry, ttl, k);
    } else {
      var half := gap / 2.0;
      OneStepLess(r + lag - st.seen[g], half, k);
      var h1 := ConfirmAndPass(c, h, r, st.seen[g] + half, g, gap, lag, expiry, ttl, k);
      h' := Drift(c, h1, r, g, gap, lag, Some((st.seen[g] + half).Floor + c.wait), ttl, k - 1);
    }
  }

  lemma {:induction false} FloorOf(n: int, f: real)
    requires 0.0 <= f < 1.0
    ensures (n as real + f).Floor == n
  {
  }

  /** Enough half gaps to reach any time. */
  lemma {:induction false} EnoughSteps(q: real, half: real) returns (k: nat)
    requires q >= 0.0 && half > 0.0
    ensures q < (k + 1) as real * half
  {
    var x := q / half;
    assert x >= 0.0 && x * half == q;
    k := x.Floor;
    assert x < (k + 1) as real;
    assert x * half < (k + 1) as real * half;
  }

  /** A last pass late in its second, and a moment just before the next chance. */
  lemma {:induction false} LateTimes(c: Config, gap: real, n: nat) returns (q: real, t: real)
    requires c.window <= c.wait && gap > 0.0 && gap + n as real + 1.0 > c.window as real
    ensures q.Floor == n + c.wait - c.window && n as real <= q <= t < q + gap && t >= c.wait as real
  {
    var slack := gap + n as real + 1.0 - c.window as real;
    var m := if slack < 1.0 then slack / 2.0 else 0.5;
    var delta := if m < gap / 2.0 then m else gap / 2.0;
    var second := n + c.wait - c.window;
    q := second as real + (1.0 - m);
    FloorOf(second, 1.0 - m);
    t := q + gap - delta;
  }

  /** Maintenance after the end of the registration. */
  lemma {:induction false} MaintenanceDeletes(c: Config, h: History, t: real, g: Guid, gap: real, lag: Delay, expiry: Option<int>, ttl: int)
      returns (h': History)
    requires Valid(c, h) && AlwaysAttentive(c, h, g, gap, lag) && Quiet(Run(c, h), g, expiry, ttl)
    requires Run(c, h).now <= t < Run(c, h).seen[g] + gap && t >= ttl as real
    ensures Valid(c, h') && AlwaysAttentive(c, h', g, gap, lag) && Waiting(Run(c, h'), g) && !Registered(Run(c, h'), g)
  {
    h' := h + [(t, Maintain)];
    Snoc(c, h, t, Maintain, g, gap, lag);
    hide Run, Valid, AlwaysAttentive;
  }

  /** A grant that lasts at least as long as the window: the owner believes in it too long. The grant
      falls late enough in its second for the lag to look like its whole seconds. */
  lemma {:induction false} LongGrantLapses(c: Config, g: Guid, gap: real, lag: Delay) returns (h: History)
    requires c.window <= c.wait && gap > 0.0 && gap + Whole(lag) as real + 1.0 > c.window as real
    ensures Valid(c, h) && AlwaysAttentive(c, h, g, gap, lag) && Waiting(Run(c, h), g) && !Registered(Run(c, h), g)
  {
    hide *;
    var n := Whole(lag);
    var r := n as real - lag;
    FloorOf(0, r);
    FloorOf(n, 0.0);
    var q, t := LateTimes(c, gap, n);
    var steps := EnoughSteps(lag, gap / 2.0);
    var granted := ManyGrants(c, r, g, gap, lag, steps);
    QuietSeen(Run(c, granted), g, None, c.wait);
    var drifted := Drift(c, granted, r, g, gap, lag, None, c.wait, steps);
    QuietSeen(Run(c, drifted), g, Some(n + c.wait), c.wait);
    var k := EnoughSteps(q, gap / 2.0);
    var h1 := Coast(c, drifted, q, g, gap, lag, n + c.wait, c.wait, k);
    QuietSeen(Run(c, h1), g, Some(n + c.wait), c.wait);
    h := MaintenanceDeletes(c, h1, t, g, gap, lag, Some(n + c.wait), c.wait);
  }

  /** A grant shorter than the window: it is over before the next chance. */
  lemma {:induction false} ShortGrantLapses(c: Config, g: Guid, gap: real, lag: Delay) returns (h: History)
    requires gap > 0.0 && gap + 1.0 > c.wait as real
    ensures Valid(c, h) && AlwaysAttentive(c, h, g, gap, lag) && Waiting(Run(c, h), g) && !Registered(Run(c, h), g)
  {
    hide *;
    var slack := gap + 1.0 - c.wait as real;
    var m := if slack < 1.0 then slack / 2.0 else 0.5;
    var delta := if m < gap / 2.0 then m else gap / 2.0;
    FloorOf(0, 1.0 - m);
    var granted := FirstGrant(c, 1.0 - m, g, gap, lag);
    QuietSeen(Run(c, granted), g, None, c.wait);
    h := MaintenanceDeletes(c, granted, 1.0 - m + gap - delta, g, gap, lag, None, c.wait);
  }

  /** The exact condition, for every window, every grant, every gap and every lag: no attentive run
      lapses if and only if `Sufficient`, a guard on the settings alone, holds. */
  lemma {:induction false} NoLapseIff(c: Config, gap: real, lag: Delay)
    requires gap > 0.0
    ensures NoLapse(c, gap, lag) <==> Sufficient(c, gap, lag)
  {
    if Sufficient(c, gap, lag) {
      forall h: History, g: Guid | Valid(c, h) && AlwaysAttentive(c, h, g, gap, lag) && Waiting(Run(c, h), g)
        ensures Registered(Run(c, h), g)
      {
        NeverLapses(c, h, g, gap, lag);
      }
    } else if c.window <= c.wait {
      var h := LongGrantLapses(c, [], gap, lag);
    } else {
      var h := ShortGrantLapses(c, [], gap, lag);
    }
  }

  /** With the default settings a registration can lapse: passes are at least a minute apart, and the
      window is 61 seconds. */
  lemma {:induction false} DefaultsCanLapse(maxWait: nat, gap: real)
    requires gap > MAINTENANCE_INTERVAL as real
    ensures CheckSettings(None, None).Ok? && !NoLapse(ConfigOf(CheckSettings(None, None).value, maxWait), gap, 0.0)
  {
    NoLapseIff(ConfigOf(CheckSettings(None, None).value, maxWait), gap, 0.0);
  }

  /** A grant not longer than the window is renewed by every windowed pass, except one in the very
      second in which it was written down, and only if it is as long as the window. */
  lemma {:induction false} ShortGrantIsDue(c: Config, h: History, g: Guid, t: real)
    requires Valid(c, h) && c.wait <= c.window && t >= Run(c, h).now
    requires g in Run(c, h).rows && !Run(c, h).rows[g].performed
    ensures
      g in Selected(Run(c, h).rows, Limit(c, t, true)) <==>
        !(c.wait == c.window && Run(c, h).rows[g].expiry == Some(t.Floor + c.wait))
  {
    hide *;
    AlwaysWithinGrant(c, h, g);
    ShortRowIsDue(c, Run(c, h), g, t);
  }

  lemma {:induction false} ShortRowIsDue(c: Config, st: State, g: Guid, t: real)
    requires WithinGrant(c, st, g) && c.wait <= c.window && t >= st.now && g in st.rows && !st.rows[g].performed
    ensures g in Selected(st.rows, Limit(c, t, true)) <==> !(c.wait == c.window && st.rows[g].expiry == Some(t.Floor + c.wait))
  {
    assert st.now.Floor <= t.Floor;
    assert g in Selected(st.rows, Limit(c, t, true)) <==> Due(st.rows[g], Limit(c, t, true));
  }
}
