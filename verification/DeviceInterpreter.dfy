/** The device's ServiceInfo interpreter: client-linuxapp/src/serviceinfo.rs. What it does to the
machine is a log of effects; whether an effect works is decided by the environment. */
module DeviceInterpreter {
  import opened Outcomes
  import opened ByteStrings
  import opened Crypto
  import opened CborGrammar
  import opened ServiceInfos

  datatype Effect =
    | WriteFile(path: string, contents: Bytes, mode: nat)
    | RunCommand(command: string, args: seq<string>, mayFail: bool, returnStdout: bool, returnStderr: bool)
    | EncryptDisk(disk: string, pin: string, config: string, reencrypt: bool)
    | CreateUserWithPassword(user: string, password: string)
    | CreateUser(user: string)
    | InstallKey(user: string, key: string)
    | RegisterRhsm(organization: string, activationKey: string, insights: bool)

  datatype Status = Succeeded | NonZeroExit | Failed

  /** The codec and the hash of the libraries, the configured path prefix, and the machine: the
      status of an effect may depend on all that happened before it. */
  datatype Device = Device(
    codec: ValueCodec,
    digest: (HashType, Bytes) -> Bytes,
    prefix: Option<string>,
    run: (seq<Effect>, Effect) -> Status)

  /** A command that exits with an error stops onboarding unless it may fail; the exit of the
      registration tools is not looked at. */
  predicate Survives(d: Device, log: seq<Effect>, e: Effect) {
    match d.run(log, e)
    case Succeeded => true
    case NonZeroExit => (e.RunCommand? && e.mayFail) || e.RegisterRhsm?
    case Failed => false
  }

  datatype InterpError =
    | BadValue
    | NotActivated
    | Repeated
    | DataBeforeLength
    | ShaBeforeName
    | ShaBeforeLength
    | UnknownSha
    | DigestSize
    | WrongLength
    | WrongDigest
    | NotAbsolute
    | DiskIncomplete
    | UserMissing
    | CredentialMissing
    | RhsmIncomplete
    | EffectFailed

  datatype Report = Report(log: seq<Effect>, result: Outcome<bool, InterpError>)

  datatype FileInProgress = FileInProgress(path: Option<string>, length: Option<nat>, contents: Option<Bytes>, mode: Option<nat>)

  datatype CommandInProgress = CommandInProgress(
    command: Option<string>, args: seq<string>, mayFail: bool, returnStdout: bool, returnStderr: bool)

  datatype DiskInProgress = DiskInProgress(disk: Option<string>, pin: Option<string>, config: Option<string>, reencrypt: bool)

  const NEW_FILE := FileInProgress(None, None, None, None)
  const NEW_COMMAND := CommandInProgress(None, [], false, false, false)
  const NEW_DISK := DiskInProgress(None, None, None, false)

  datatype Login = Login(user: Option<string>, password: Option<string>, keys: Option<string>)
  datatype Rhsm = Rhsm(organization: Option<string>, activationKey: Option<string>, insights: Option<bool>)

  /** The local variables of the loop. */
  datatype State = State(
    active: set<Module>,
    login: Login,
    rhsm: Rhsm,
    file: FileInProgress,
    command: CommandInProgress,
    disk: DiskInProgress,
    reboot: bool,
    log: seq<Effect>)

  const INIT := State({}, Login(None, None, None), Rhsm(None, None, None), NEW_FILE, NEW_COMMAND, NEW_DISK, false, [])

  datatype Progress = Running(st: State) | Stopped(report: Report) {

    function Log(): seq<Effect> {
      if Running? then st.log else report.log
    }
  }

  function Bail(st: State, e: InterpError): Progress {
    Stopped(Report(st.log, Err(e)))
  }

  function PanicNow(st: State, c: Cause): Progress {
    Stopped(Report(st.log, Panic(c)))
  }

  /** Perform an effect, and stop if it does not work out; `next` is the state after it. */
  function Perform(d: Device, st: State, e: Effect, next: State): Progress {
    if Survives(d, st.log, e) then Running(next.(log := st.log + [e]))
    else Stopped(Report(st.log + [e], Err(EffectFailed)))
  }

  // ------------------------------------------------- binary files

  const DEFAULT_MODE: nat := 0x180   // octal 600

  /** `PathBuf::join`. */
  function Join(base: string, path: string): string {
    if path != [] && path[0] == '/' then path
    else if base == [] || base[|base| - 1] == '/' then base + path
    else base + "/" + path
  }

  predicate Absolute(path: string) {
    path != [] && path[0] == '/'
  }

  function DestinationPath(d: Device, path: string): string
    requires Absolute(path)
  {
    if d.prefix.Some? then Join(d.prefix.value, path[1..]) else path
  }

  function ShaType(algorithm: string): Option<HashType> {
    if algorithm == "256" then Some(Sha256) else if algorithm == "384" then Some(Sha384) else None
  }

  /** The file is complete: check it, write it, start over. */
  function DeployFile(d: Device, st: State, algorithm: string, value: Value): Progress {
    var f := st.file;
    if !value.Blob? then Bail(st, BadValue) else
    match ShaType(algorithm)
    case None => Bail(st, UnknownSha)
    case Some(kind) =>
      if |value.blob| != kind.DigestSize() then Bail(st, DigestSize)
      else if f.path.None? then Bail(st, ShaBeforeName)
      else if f.length.None? || f.contents.None? then Bail(st, ShaBeforeLength)
      else if |f.contents.value| != f.length.value then Bail(st, WrongLength)
      else if d.digest(kind, f.contents.value) != value.blob then Bail(st, WrongDigest)
      else if !Absolute(f.path.value) then Bail(st, NotAbsolute)
      else
        var mode := if f.mode.Some? then f.mode.value else DEFAULT_MODE;
        Perform(d, st, WriteFile(DestinationPath(d, f.path.value), f.contents.value, mode), st.(file := NEW_FILE))
  }

  function FileStep(d: Device, st: State, key: Key, value: Value): Progress {
    var f := st.file;
    match key
    case FileName =>
      if f.path.Some? then Bail(st, Repeated)
      else if !value.Text? then Bail(st, BadValue)
      else Running(st.(file := f.(path := Some(value.text))))
    case Length =>
      if f.length.Some? then Bail(st, Repeated)
      else if !value.Number? then Bail(st, BadValue)
      else
        var len := value.number % U64;
        if len > MAX_ALLOC then PanicNow(st, Capacity)
        else Running(st.(file := f.(length := Some(len), contents := Some([]))))
    case Data =>
      if f.contents.None? then Bail(st, DataBeforeLength)
      else if !value.Blob? then Bail(st, BadValue)
      else Running(st.(file := f.(contents := Some(f.contents.value + value.blob))))
    case Mode =>
      if f.mode.Some? then Bail(st, Repeated)
      else if !value.Number? then Bail(st, BadValue)
      else Running(st.(file := f.(mode := Some(value.number % 0x1_0000_0000))))
    case Sha(algorithm) => DeployFile(d, st, algorithm, value)
    case _ => Running(st)
  }

  // ------------------------------------------------- commands, disks, logins

  /** `as_str_array`. */
  function TextArray(vs: seq<Value>): Option<seq<string>> {
    if vs == [] then Some([]) else
    match (vs[0], TextArray(vs[1..]))
    case (Text(s), Some(others)) => Some([s] + others)
    case _ => None
  }

  function CommandStep(d: Device, st: State, key: Key, value: Value): Progress {
    var c := st.command;
    match key
    case CommandKey =>
      if c.command.Some? then Bail(st, Repeated)
      else if !value.Text? then Bail(st, BadValue)
      else Running(st.(command := c.(command := Some(value.text))))
    case Args =>
      if value.Array? && TextArray(value.elements).Some?
      then Running(st.(command := c.(args := TextArray(value.elements).value)))
      else Bail(st, BadValue)
    case MayFail =>
      if value.Bool? then Running(st.(command := c.(mayFail := value.flag))) else Bail(st, BadValue)
    case ReturnStdout =>
      if value.Bool? then Running(st.(command := c.(returnStdout := value.flag))) else Bail(st, BadValue)
    case ReturnStderr =>
      if value.Bool? then Running(st.(command := c.(returnStderr := value.flag))) else Bail(st, BadValue)
    case Execute =>
      if c.command.None? then PanicNow(st, Unwrapped)
      else Perform(d, st, RunCommand(c.command.value, c.args, c.mayFail, c.returnStdout, c.returnStderr), st.(command := NEW_COMMAND))
    case _ => Running(st)
  }

  function DiskStep(d: Device, st: State, key: Key, value: Value): Progress {
    var k := st.disk;
    match key
    case DiskLabel =>
      if k.disk.Some? then Bail(st, Repeated)
      else if !value.Text? then Bail(st, BadValue)
      else Running(st.(disk := k.(disk := Some(value.text))))
    case Pin =>
      if k.pin.Some? then Bail(st, Repeated)
      else if !value.Text? then Bail(st, BadValue)
      else Running(st.(disk := k.(pin := Some(value.text))))
    case Config =>
      if k.config.Some? then Bail(st, Repeated)
      else if !value.Text? then Bail(st, BadValue)
      else Running(st.(disk := k.(config := Some(value.text))))
    case Reencrypt =>
      if value.Bool? then Running(st.(disk := k.(reencrypt := value.flag))) else Bail(st, BadValue)
    case Execute =>
      if k.disk.None? || k.pin.None? || k.config.None? then Bail(st, DiskIncomplete)
      else Perform(d, st, EncryptDisk(k.disk.value, k.pin.value, k.config.value, k.reencrypt), st.(disk := NEW_DISK))
    case _ => Running(st)
  }

  function LoginStep(st: State, key: Key, value: Value): Progress {
    var l := st.login;
    if !(key.Username? || key.Password? || key.SshKeys?) then Running(st)
    else if !value.Text? then Bail(st, BadValue)
    else Running(st.(login :=
      if key.Username? then l.(user := Some(value.text))
      else if key.Password? then l.(password := Some(value.text))
      else l.(keys := Some(value.text))))
  }

  function RhsmStep(st: State, key: Key, value: Value): Progress {
    var h := st.rhsm;
    match key
    case OrganizationId =>
      if value.Text? then Running(st.(rhsm := h.(organization := Some(value.text)))) else Bail(st, BadValue)
    case ActivationKey =>
      if value.Text? then Running(st.(rhsm := h.(activationKey := Some(value.text)))) else Bail(st, BadValue)
    case PerformInsights =>
      if value.Bool? then Running(st.(rhsm := h.(insights := Some(value.flag)))) else Bail(st, BadValue)
    case _ => Running(st)
  }

  function RebootStep(st: State, key: Key, value: Value): Progress {
    if !key.RebootKey? then Running(st)
    else if !value.Bool? then Bail(st, BadValue)
    else Running(st.(reboot := value.flag))
  }

  // ------------------------------------------------- the loop

  function Activate(st: State, m: Module, value: Value): Progress {
    if !value.Bool? then Bail(st, BadValue)
    else Running(st.(active := if value.flag then st.active + {m} else st.active - {m}))
  }

  /** What an active module does with a key. */
  function Dispatch(d: Device, st: State, m: Module, key: Key, value: Value): Progress {
    match m
    case SSHKey => LoginStep(st, key, value)
    case Reboot => RebootStep(st, key, value)
    case SubscriptionManager => RhsmStep(st, key, value)
    case BinaryFile => FileStep(d, st, key, value)
    case Command => CommandStep(d, st, key, value)
    case DiskEncryptionClevis => DiskStep(d, st, key, value)
    case _ => Running(st)
  }

  /** One iteration. */
  function Step(d: Device, st: State, t: Triple): Progress {
    var key := Classify(t.key);
    if key.Active? then Activate(st, t.mod, t.value)
    else if t.mod !in st.active then Bail(st, NotActivated)
    else Dispatch(d, st, t.mod, key, t.value)
  }

  function Interp(d: Device, st: State, ts: seq<Triple>): Progress
    decreases |ts|
  {
    if ts == [] then Running(st) else
    match Step(d, st, ts[0])
    case Running(next) => Interp(d, next, ts[1..])
    case Stopped(report) => Stopped(report)
  }

  /** Effects performed in order until one stops onboarding. */
  function PerformAll(d: Device, st: State, es: seq<Effect>): Progress
    decreases |es|
  {
    if es == [] then Running(st) else
    match Perform(d, st, es[0], st)
    case Running(next) => PerformAll(d, next, es[1..])
    case Stopped(report) => Stopped(report)
  }

  /** `str::split(';')`: always at least one part. */
  function SplitKeys(s: string): (r: seq<string>)
    ensures |r| >= 1
  {
    if s == [] then [[]]
    else
      var others := SplitKeys(s[1..]);
      if s[0] == ';' then [[]] + others else [[s[0]] + others[0]] + others[1..]
  }

  function InstallKeys(user: string, keys: seq<string>): (r: seq<Effect>)
    ensures |r| == |keys|
  {
    seq(|keys|, i requires 0 <= i < |keys| => InstallKey(user, keys[i]))
  }

  /** After the loop: the login, then the subscription. */
  function LoginEffects(user: string, l: Login): seq<Effect> {
    (if l.password.Some? then [CreateUserWithPassword(user, l.password.value)] else []) +
    (if l.keys.Some? then [CreateUser(user)] + InstallKeys(user, SplitKeys(l.keys.value)) else [])
  }

  function FinishLogin(d: Device, st: State): Progress {
    if SSHKey !in st.active then Running(st)
    else if st.login.user.None? then Bail(st, UserMissing)
    else if st.login.keys.None? && st.login.password.None? then Bail(st, CredentialMissing)
    else PerformAll(d, st, LoginEffects(st.login.user.value, st.login))
  }

  function FinishRhsm(d: Device, st: State): Progress {
    var h := st.rhsm;
    if SubscriptionManager !in st.active then Running(st)
    else if h.organization.None? || h.activationKey.None? || h.insights.None? then Bail(st, RhsmIncomplete)
    else PerformAll(d, st, [RegisterRhsm(h.organization.value, h.activationKey.value, h.insights.value)])
  }

  function Finish(d: Device, st: State): Report {
    match FinishLogin(d, st)
    case Stopped(report) => report
    case Running(st1) =>
      match FinishRhsm(d, st1)
      case Stopped(report) => report
      case Running(st2) => Report(st2.log, Ok(st2.reboot))
  }

  /** What `process_serviceinfo_in` computes: the effects it performed and how it ended. */
  function Process(d: Device, si: ServiceInfo): Report {
    match Interp(d, INIT, Triples(d.codec, si))
    case Stopped(report) => report
    case Running(st) => Finish(d, st)
  }

  /** `process_serviceinfo_in`. */
  method ProcessServiceInfo(d: Device, si: ServiceInfo) returns (r: Report)
    ensures r == Process(d, si)
  {
    hide ReadEntry, Step;
    var st, pos := INIT, 0;
    ghost var ts := Triples(d.codec, si);
    assert si[0..] == si;
    while pos < |si|
      invariant pos <= |si|
      invariant Interp(d, INIT, ts) == Interp(d, st, Triples(d.codec, si[pos..]))
    {
      var next := ReadEntry(d.codec, si[pos]);
      assert si[pos..][1..] == si[pos + 1..];
      if next.None? {
        break;
      }
      ghost var rest := Triples(d.codec, si[pos + 1..]);
      assert Triples(d.codec, si[pos..]) == [next.value] + rest;
      assert ([next.value] + rest)[1..] == rest;
      match Step(d, st, next.value) {
        case Stopped(report) =>
          return report;
        case Running(st') =>
          st, pos := st', pos + 1;
      }
    }
    assert Triples(d.codec, si[pos..]) == [];
    r := Finish(d, st);
  }
}
