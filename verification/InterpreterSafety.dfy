/** What holds of the device's interpreter for any input whatsoever. */
module InterpreterSafety {
  import opened Outcomes
  import opened ByteStrings
  import opened Crypto
  import opened CborGrammar
  import opened ServiceInfos
  import opened DeviceInterpreter

  // ------------------------------------------------- reading of a message list, without the interpreter

  /** Modules switched on by `ts`. */
  function ActiveAfter(ts: seq<Triple>): set<Module>
    decreases |ts|
  {
    if ts == [] then {} else
    var before, t := ActiveAfter(ts[..|ts| - 1]), ts[|ts| - 1];
    if Classify(t.key).Active? && t.value == Bool(true) then before + {t.mod}
    else if Classify(t.key).Active? && t.value == Bool(false) then before - {t.mod}
    else before
  }

  predicate IsDeploy(t: Triple) {
    t.mod == BinaryFile && Classify(t.key).Sha?
  }

  /** Where the keys of a module start to count anew: files at a deploy, commands and disks at an
      execute, logins and subscriptions never. */
  predicate Ends(m: Module, t: Triple) {
    t.mod == m && (if m == BinaryFile then Classify(t.key).Sha? else (m == Command || m == DiskEncryptionClevis) && Classify(t.key).Execute?)
  }

  /** The latest value under key `k` of module `m` since its keys last started anew. */
  function Latest(ts: seq<Triple>, m: Module, k: Key): Option<Value>
    decreases |ts|
  {
    if ts == [] then None else
    var before, t := Latest(ts[..|ts| - 1], m, k), ts[|ts| - 1];
    if Ends(m, t) then None
    else if t.mod == m && Classify(t.key) == k then Some(t.value)
    else before
  }

  function TextOf(v: Option<Value>): Option<string> {
    if v.Some? && v.value.Text? then Some(v.value.text) else None
  }

  function NumberOf(v: Option<Value>, size: nat): Option<nat>
    requires size > 0
  {
    if v.Some? && v.value.Number? then Some(v.value.number % size) else None
  }

  function FlagOf(v: Option<Value>): bool {
    v == Some(Bool(true))
  }

  function MaybeFlagOf(v: Option<Value>): Option<bool> {
    if v.Some? && v.value.Bool? then Some(v.value.flag) else None
  }

  function TextsOf(v: Option<Value>): seq<string> {
    if v.Some? && v.value.Array? && TextArray(v.value.elements).Some? then TextArray(v.value.elements).value else []
  }

  /** The data values since the last deploy, concatenated. */
  function PendingData(ts: seq<Triple>): Bytes
    decreases |ts|
  {
    if ts == [] then [] else
    var before, t := PendingData(ts[..|ts| - 1]), ts[|ts| - 1];
    if IsDeploy(t) then []
    else if t.mod == BinaryFile && Classify(t.key).Data? && t.value.Blob? then before + t.value.blob
    else before
  }

  function DeclaredName(ts: seq<Triple>): Option<string> {
    TextOf(Latest(ts, BinaryFile, FileName))
  }

  function DeclaredLength(ts: seq<Triple>): Option<nat> {
    NumberOf(Latest(ts, BinaryFile, Length), U64)
  }

  function DeclaredMode(ts: seq<Triple>): Option<nat> {
    NumberOf(Latest(ts, BinaryFile, Mode), 0x1_0000_0000)
  }

  /** The command that the messages describe; flags that are not given are off. */
  function DeclaredCommand(ts: seq<Triple>): CommandInProgress {
    CommandInProgress(TextOf(Latest(ts, Command, CommandKey)), TextsOf(Latest(ts, Command, Args)), FlagOf(Latest(ts, Command, MayFail)),
                      FlagOf(Latest(ts, Command, ReturnStdout)), FlagOf(Latest(ts, Command, ReturnStderr)))
  }

  function DeclaredDisk(ts: seq<Triple>): DiskInProgress {
    var m := DiskEncryptionClevis;
    DiskInProgress(TextOf(Latest(ts, m, DiskLabel)), TextOf(Latest(ts, m, Pin)), TextOf(Latest(ts, m, Config)), FlagOf(Latest(ts, m, Reencrypt)))
  }

  function DeclaredLogin(ts: seq<Triple>): Login {
    Login(TextOf(Latest(ts, SSHKey, Username)), TextOf(Latest(ts, SSHKey, Password)), TextOf(Latest(ts, SSHKey, SshKeys)))
  }

  function DeclaredRhsm(ts: seq<Triple>): Rhsm {
    var m := SubscriptionManager;
    Rhsm(TextOf(Latest(ts, m, OrganizationId)), TextOf(Latest(ts, m, ActivationKey)), MaybeFlagOf(Latest(ts, m, PerformInsights)))
  }

  /** The module an effect belongs to. */
  function ModuleOf(e: Effect): Module {
    match e
    case WriteFile(_, _, _) => BinaryFile
    case RunCommand(_, _, _, _, _) => Command
    case EncryptDisk(_, _, _, _) => DiskEncryptionClevis
    case CreateUserWithPassword(_, _) => SSHKey
    case CreateUser(_) => SSHKey
    case InstallKey(_, _) => SSHKey
    case RegisterRhsm(_, _, _) => SubscriptionManager
  }

  // ------------------------------------------------- one step

  predicate FileTracks(f: FileInProgress, ts: seq<Triple>) {
    && f.path == DeclaredName(ts) && f.length == DeclaredLength(ts) && f.mode == DeclaredMode(ts)
    && (f.contents.Some? <==> f.length.Some?)
    && PendingData(ts) == if f.contents.Some? then f.contents.value else []
  }

  /** The state is what the list says. */
  predicate Tracks(st: State, ts: seq<Triple>) {
    && st.active == ActiveAfter(ts) && FileTracks(st.file, ts)
    && st.command == DeclaredCommand(ts) && st.disk == DeclaredDisk(ts)
    && st.login == DeclaredLogin(ts) && st.rhsm == DeclaredRhsm(ts)
  }

  /** A file written at message `t` after the messages `ts`: it has the declared name and mode, it is
      all the data since the last deploy, it has the declared length, and it hashes to the value in `t`. */
  predicate Authentic(d: Device, ts: seq<Triple>, t: Triple, e: Effect) {
    && e.WriteFile? && IsDeploy(t)
    && DeclaredName(ts).Some? && Absolute(DeclaredName(ts).value)
    && e.path == DestinationPath(d, DeclaredName(ts).value)
    && e.contents == PendingData(ts)
    && DeclaredLength(ts) == Some(|e.contents|)
    && e.mode == (if DeclaredMode(ts).Some? then DeclaredMode(ts).value else DEFAULT_MODE)
    && ShaType(Classify(t.key).algorithm).Some?
    && t.value == Blob(d.digest(ShaType(Classify(t.key).algorithm).value, e.contents))
  }

  /** An effect that message `t` may cause after the messages `ts`: a deployed file, or at an execute
      exactly the command or the disk that the messages since the last execute describe. */
  predicate Justified(d: Device, ts: seq<Triple>, t: Triple, e: Effect) {
    && ModuleOf(e) == t.mod && t.mod in ActiveAfter(ts) && Ends(t.mod, t)
    && match e
       case WriteFile(_, _, _) => Authentic(d, ts, t, e)
       case RunCommand(command, args, mayFail, out, err) =>
         DeclaredCommand(ts) == CommandInProgress(Some(command), args, mayFail, out, err)
       case EncryptDisk(disk, pin, config, reencrypt) =>
         DeclaredDisk(ts) == DiskInProgress(Some(disk), Some(pin), Some(config), reencrypt)
       case _ => false
  }

  /** An effect after all messages: of the login or the subscription that they describe. */
  predicate Concluding(login: Login, rhsm: Rhsm, e: Effect) {
    match e
    case CreateUserWithPassword(user, password) => login.user == Some(user) && login.password == Some(password)
    case CreateUser(user) => login.user == Some(user) && login.keys.Some?
    case InstallKey(user, key) => login.user == Some(user) && login.keys.Some? && key in SplitKeys(login.keys.value)
    case RegisterRhsm(organization, activationKey, insights) => rhsm == Rhsm(Some(organization), Some(activationKey), Some(insights))
    case _ => false
  }

  /** `next` continues `st` with at most one effect, and a justified one. */
  ghost predicate StepIsSafe(d: Device, ts: seq<Triple>, st: State, t: Triple, next: Progress) {
    && (next.Running? ==> Tracks(next.st, ts + [t]))
    && (next.Log() == st.log || exists e :: next.Log() == st.log + [e] && Justified(d, ts, t, e))
  }

  lemma {:induction false} Unfold(ts: seq<Triple>, t: Triple)
    ensures (ts + [t])[..|ts + [t]| - 1] == ts && (ts + [t])[|ts + [t]| - 1] == t
  {
  }

  lemma {:induction false} LatestSnoc(ts: seq<Triple>, t: Triple, m: Module, k: Key)
    ensures Latest(ts + [t], m, k) ==
            if Ends(m, t) then None else if t.mod == m && Classify(t.key) == k then Some(t.value) else Latest(ts, m, k)
  {
    hide Classify;
    Unfold(ts, t);
  }

  lemma {:induction false} CommandSnoc(ts: seq<Triple>, t: Triple)
    ensures Ends(Command, t) ==> DeclaredCommand(ts + [t]) == NEW_COMMAND
    ensures !Ends(Command, t) ==>
      var c, key, v := DeclaredCommand(ts), Classify(t.key), Some(t.value);
      DeclaredCommand(ts + [t]) ==
        if t.mod != Command then c
        else if key.CommandKey? then c.(command := TextOf(v))
        else if key.Args? then c.(args := TextsOf(v))
        else if key.MayFail? then c.(mayFail := FlagOf(v))
        else if key.ReturnStdout? then c.(returnStdout := FlagOf(v))
        else if key.ReturnStderr? then c.(returnStderr := FlagOf(v))
        else c
  {
    hide Classify, Latest, Ends, TextArray;
    LatestSnoc(ts, t, Command, CommandKey);
    LatestSnoc(ts, t, Command, Args);
    LatestSnoc(ts, t, Command, MayFail);
    LatestSnoc(ts, t, Command, ReturnStdout);
    LatestSnoc(ts, t, Command, ReturnStderr);
  }

  lemma {:induction false} DiskSnoc(ts: seq<Triple>, t: Triple)
    ensures Ends(DiskEncryptionClevis, t) ==> DeclaredDisk(ts + [t]) == NEW_DISK
    ensures !Ends(DiskEncryptionClevis, t) ==>
      var k, key, v := DeclaredDisk(ts), Classify(t.key), Some(t.value);
      DeclaredDisk(ts + [t]) ==
        if t.mod != DiskEncryptionClevis then k
        else if key.DiskLabel? then k.(disk := TextOf(v))
        else if key.Pin? then k.(pin := TextOf(v))
        else if key.Config? then k.(config := TextOf(v))
        else if key.Reencrypt? then k.(reencrypt := FlagOf(v))
        else k
  {
    hide Classify, Latest, Ends;
    LatestSnoc(ts, t, DiskEncryptionClevis, DiskLabel);
    LatestSnoc(ts, t, DiskEncryptionClevis, Pin);
    LatestSnoc(ts, t, DiskEncryptionClevis, Config);
    LatestSnoc(ts, t, DiskEncryptionClevis, Reencrypt);
  }

  lemma {:induction false} LoginSnoc(ts: seq<Triple>, t: Triple)
    ensures
      var l, key, v := DeclaredLogin(ts), Classify(t.key), Some(t.value);
      DeclaredLogin(ts + [t]) ==
        if t.mod != SSHKey then l
        else if key.Username? then l.(user := TextOf(v))
        else if key.Password? then l.(password := TextOf(v))
        else if key.SshKeys? then l.(keys := TextOf(v))
        else l
  {
    hide Classify, Latest;
    LatestSnoc(ts, t, SSHKey, Username);
    LatestSnoc(ts, t, SSHKey, Password);
    LatestSnoc(ts, t, SSHKey, SshKeys);
  }

  lemma {:induction false} RhsmSnoc(ts: seq<Triple>, t: Triple)
    ensures
      var h, key, v := DeclaredRhsm(ts), Classify(t.key), Some(t.value);
      DeclaredRhsm(ts + [t]) ==
        if t.mod != SubscriptionManager then h
        else if key.OrganizationId? then h.(organization := TextOf(v))
        else if key.ActivationKey? then h.(activationKey := TextOf(v))
        else if key.PerformInsights? then h.(insights := MaybeFlagOf(v))
        else h
  {
    hide Classify, Latest;
    LatestSnoc(ts, t, SubscriptionManager, OrganizationId);
    LatestSnoc(ts, t, SubscriptionManager, ActivationKey);
    LatestSnoc(ts, t, SubscriptionManager, PerformInsights);
  }

  lemma {:induction false} FileSnoc(ts: seq<Triple>, t: Triple, f: FileInProgress)
    requires FileTracks(f, ts)
    ensures IsDeploy(t) ==> FileTracks(NEW_FILE, ts + [t])
    ensures !IsDeploy(t) ==>
      var key := Classify(t.key);
      if t.mod != BinaryFile then FileTracks(f, ts + [t])
      else if key.FileName? then t.value.Text? ==> FileTracks(f.(path := Some(t.value.text)), ts + [t])
      else if key.Length? then
        t.value.Number? && f.length.None? ==> FileTracks(f.(length := Some(t.value.number % U64), contents := Some([])), ts + [t])
      else if key.Data? then
        t.value.Blob? && f.contents.Some? ==> FileTracks(f.(contents := Some(f.contents.value + t.value.blob)), ts + [t])
      else if key.Mode? then t.value.Number? ==> FileTracks(f.(mode := Some(t.value.number % 0x1_0000_0000)), ts + [t])
      else FileTracks(f, ts + [t])
  {
    hide Classify, Latest;
    LatestSnoc(ts, t, BinaryFile, FileName);
    LatestSnoc(ts, t, BinaryFile, Length);
    LatestSnoc(ts, t, BinaryFile, Mode);
    Unfold(ts, t);
  }

  lemma {:induction false} ActiveSnoc(ts: seq<Triple>, t: Triple)
    ensures !Classify(t.key).Active? ==> ActiveAfter(ts + [t]) == ActiveAfter(ts)
    ensures Classify(t.key).Active? && t.value.Bool? ==>
              ActiveAfter(ts + [t]) == if t.value.flag then ActiveAfter(ts) + {t.mod} else ActiveAfter(ts) - {t.mod}
  {
    hide Classify;
    Unfold(ts, t);
  }

  /** What a message does not concern, it leaves as it was declared. */
  lemma {:induction false} Unconcerned(ts: seq<Triple>, t: Triple, f: FileInProgress)
    requires FileTracks(f, ts)
    ensures t.mod != Command || Classify(t.key).Active? ==> DeclaredCommand(ts + [t]) == DeclaredCommand(ts)
    ensures t.mod != DiskEncryptionClevis || Classify(t.key).Active? ==> DeclaredDisk(ts + [t]) == DeclaredDisk(ts)
    ensures t.mod != SSHKey || Classify(t.key).Active? ==> DeclaredLogin(ts + [t]) == DeclaredLogin(ts)
    ensures t.mod != SubscriptionManager || Classify(t.key).Active? ==> DeclaredRhsm(ts + [t]) == DeclaredRhsm(ts)
    ensures t.mod != BinaryFile || Classify(t.key).Active? ==> FileTracks(f, ts + [t])
  {
    hide Classify, DeclaredCommand, DeclaredDisk, DeclaredLogin, DeclaredRhsm, FileTracks;
    CommandSnoc(ts, t);
    DiskSnoc(ts, t);
    LoginSnoc(ts, t);
    RhsmSnoc(ts, t);
    FileSnoc(ts, t, f);
  }

  lemma {:induction false} ActivateIsSafe(d: Device, ts: seq<Triple>, st: State, t: Triple)
    requires Tracks(st, ts) && Classify(t.key).Active?
    ensures StepIsSafe(d, ts, st, t, Activate(st, t.mod, t.value))
  {
    hide Classify, DeclaredCommand, DeclaredDisk, DeclaredLogin, DeclaredRhsm, FileTracks, ActiveAfter;
    Unconcerned(ts, t, st.file);
    ActiveSnoc(ts, t);
  }

  /** A step that performs an effect, rightly, and leaves a state that is what the list says. */
  lemma {:induction false} PerformIsSafe(d: Device, ts: seq<Triple>, st: State, t: Triple, e: Effect, next: State)
    requires Justified(d, ts, t, e) && Tracks(next.(log := st.log + [e]), ts + [t])
    ensures StepIsSafe(d, ts, st, t, Perform(d, st, e, next))
  {
    hide Justified, Tracks, Survives;
  }

  /** A step that only records something. */
  lemma {:induction false} RecordIsSafe(d: Device, ts: seq<Triple>, st: State, t: Triple, next: Progress)
    requires next.Log() == st.log && (next.Running? ==> Tracks(next.st, ts + [t]))
    ensures StepIsSafe(d, ts, st, t, next)
  {
    hide Tracks;
  }

  /** A step of the file module moves nothing but the file. */
  lemma {:induction false} FileKeepsTrack(ts: seq<Triple>, st: State, t: Triple, st': State)
    requires Tracks(st, ts) && t.mod == BinaryFile && !Classify(t.key).Active?
    requires st' == st.(file := st'.file, log := st'.log) && FileTracks(st'.file, ts + [t])
    ensures Tracks(st', ts + [t])
  {
    hide Classify, DeclaredCommand, DeclaredDisk, DeclaredLogin, DeclaredRhsm, ActiveAfter, FileTracks;
    Unconcerned(ts, t, st.file);
    ActiveSnoc(ts, t);
  }

  lemma {:induction false} TracksFile(st: State, ts: seq<Triple>)
    requires Tracks(st, ts)
    ensures FileTracks(st.file, ts)
  {
    hide DeclaredCommand, DeclaredDisk, DeclaredLogin, DeclaredRhsm, ActiveAfter, FileTracks;
  }

  lemma {:induction false} DeployIsSafe(d: Device, ts: seq<Triple>, st: State, t: Triple)
    requires Tracks(st, ts) && IsDeploy(t) && t.mod in st.active
    ensures StepIsSafe(d, ts, st, t, DeployFile(d, st, Classify(t.key).algorithm, t.value))
  {
    TracksFile(st, ts);
    ActiveIs(st, ts);
    FileSnoc(ts, t, st.file);
    hide Classify, DestinationPath, Tracks, ActiveAfter, PendingData, Latest, StepIsSafe;
    var f, next := st.file, DeployFile(d, st, Classify(t.key).algorithm, t.value);
    if next.Log() == st.log && !next.Running? {
      RecordIsSafe(d, ts, st, t, next);
    } else {
      var e := WriteFile(DestinationPath(d, f.path.value), f.contents.value, if f.mode.Some? then f.mode.value else DEFAULT_MODE);
      assert Authentic(d, ts, t, e);
      hide Authentic, Perform;
      FileKeepsTrack(ts, st, t, st.(file := NEW_FILE, log := st.log + [e]));
      PerformIsSafe(d, ts, st, t, e, st.(file := NEW_FILE));
    }
  }

  /** The other file keys only record what they declare. */
  lemma {:induction false} FileKeyRecords(d: Device, ts: seq<Triple>, st: State, t: Triple)
    requires FileTracks(st.file, ts) && t.mod == BinaryFile && !IsDeploy(t)
    ensures
      var next := FileStep(d, st, Classify(t.key), t.value);
      next.Log() == st.log && (next.Running? ==> next.st == st.(file := next.st.file) && FileTracks(next.st.file, ts + [t]))
  {
    FileSnoc(ts, t, st.file);
    LengthAndContents(st.file, ts);
    hide Classify, DeployFile, FileTracks;
  }

  lemma {:induction false} LengthAndContents(f: FileInProgress, ts: seq<Triple>)
    requires FileTracks(f, ts)
    ensures f.contents.Some? <==> f.length.Some?
  {
    hide PendingData, Latest;
  }

  lemma {:induction false} DeploySteps(d: Device, st: State, t: Triple)
    ensures IsDeploy(t) ==> FileStep(d, st, Classify(t.key), t.value) == DeployFile(d, st, Classify(t.key).algorithm, t.value)
  {
    hide Classify, DeployFile;
  }

  lemma {:induction false} FileStepIsSafe(d: Device, ts: seq<Triple>, st: State, t: Triple)
    requires Tracks(st, ts) && t.mod == BinaryFile && t.mod in st.active && !Classify(t.key).Active?
    ensures StepIsSafe(d, ts, st, t, FileStep(d, st, Classify(t.key), t.value))
  {
    hide *;
    DeploySteps(d, st, t);
    if IsDeploy(t) {
      DeployIsSafe(d, ts, st, t);
    } else {
      TracksFile(st, ts);
      FileKeyRecords(d, ts, st, t);
      var next := FileStep(d, st, Classify(t.key), t.value);
      if next.Running? {
        FileKeepsTrack(ts, st, t, next.st);
      }
      RecordIsSafe(d, ts, st, t, next);
    }
  }

  /** A step of the command module moves nothing but the command. */
  lemma {:induction false} CommandKeepsTrack(ts: seq<Triple>, st: State, t: Triple, st': State)
    requires Tracks(st, ts) && t.mod == Command && !Classify(t.key).Active?
    requires st' == st.(command := DeclaredCommand(ts + [t]), log := st'.log)
    ensures Tracks(st', ts + [t])
  {
    hide Classify, DeclaredCommand, DeclaredDisk, DeclaredLogin, DeclaredRhsm, ActiveAfter, FileTracks;
    Unconcerned(ts, t, st.file);
    ActiveSnoc(ts, t);
  }

  lemma {:induction false} DiskKeepsTrack(ts: seq<Triple>, st: State, t: Triple, st': State)
    requires Tracks(st, ts) && t.mod == DiskEncryptionClevis && !Classify(t.key).Active?
    requires st' == st.(disk := DeclaredDisk(ts + [t]), log := st'.log)
    ensures Tracks(st', ts + [t])
  {
    hide Classify, DeclaredCommand, DeclaredDisk, DeclaredLogin, DeclaredRhsm, ActiveAfter, FileTracks;
    Unconcerned(ts, t, st.file);
    ActiveSnoc(ts, t);
  }

  lemma {:induction false} TracksCommand(st: State, ts: seq<Triple>)
    requires Tracks(st, ts)
    ensures st.command == DeclaredCommand(ts) && st.disk == DeclaredDisk(ts)
  {
    hide DeclaredCommand, DeclaredDisk, DeclaredLogin, DeclaredRhsm, ActiveAfter, FileTracks;
  }

  lemma {:induction false} CommandKeyRecords(d: Device, ts: seq<Triple>, st: State, t: Triple)
    requires t.mod == Command && !Classify(t.key).Execute? && st.command == DeclaredCommand(ts)
    ensures
      var next := CommandStep(d, st, Classify(t.key), t.value);
      next.Log() == st.log && (next.Running? ==> next.st == st.(command := DeclaredCommand(ts + [t])))
  {
    CommandSnoc(ts, t);
    hide Classify, TextArray, DeclaredCommand;
  }

  /** At an execute: nothing without a command, the command otherwise. */
  lemma {:induction false} CommandExecutes(d: Device, ts: seq<Triple>, st: State, t: Triple)
    requires t.mod == Command && Classify(t.key).Execute? && st.command == DeclaredCommand(ts) && t.mod in ActiveAfter(ts)
    ensures DeclaredCommand(ts + [t]) == NEW_COMMAND
    ensures
      var c, next := st.command, CommandStep(d, st, Classify(t.key), t.value);
      if c.command.None? then !next.Running? && next.Log() == st.log
      else
        var e := RunCommand(c.command.value, c.args, c.mayFail, c.returnStdout, c.returnStderr);
        next == Perform(d, st, e, st.(command := NEW_COMMAND)) && Justified(d, ts, t, e)
  {
    CommandSnoc(ts, t);
    hide Classify, DeclaredCommand, ActiveAfter, Perform;
  }

  lemma {:induction false} CommandStepIsSafe(d: Device, ts: seq<Triple>, st: State, t: Triple)
    requires Tracks(st, ts) && t.mod == Command && t.mod in st.active && !Classify(t.key).Active?
    ensures StepIsSafe(d, ts, st, t, CommandStep(d, st, Classify(t.key), t.value))
  {
    hide *;
    TracksCommand(st, ts);
    ActiveIs(st, ts);
    var next, c := CommandStep(d, st, Classify(t.key), t.value), st.command;
    if !Classify(t.key).Execute? {
      CommandKeyRecords(d, ts, st, t);
      if next.Running? {
        CommandKeepsTrack(ts, st, t, next.st);
      }
      RecordIsSafe(d, ts, st, t, next);
    } else {
      CommandExecutes(d, ts, st, t);
      if c.command.None? {
        RecordIsSafe(d, ts, st, t, next);
      } else {
        var e := RunCommand(c.command.value, c.args, c.mayFail, c.returnStdout, c.returnStderr);
        CommandKeepsTrack(ts, st, t, st.(command := NEW_COMMAND, log := st.log + [e]));
        PerformIsSafe(d, ts, st, t, e, st.(command := NEW_COMMAND));
      }
    }
  }

  lemma {:induction false} DiskKeyRecords(d: Device, ts: seq<Triple>, st: State, t: Triple)
    requires t.mod == DiskEncryptionClevis && !Classify(t.key).Execute? && st.disk == DeclaredDisk(ts)
    ensures
      var next := DiskStep(d, st, Classify(t.key), t.value);
      next.Log() == st.log && (next.Running? ==> next.st == st.(disk := DeclaredDisk(ts + [t])))
  {
    DiskSnoc(ts, t);
    hide Classify, DeclaredDisk;
  }

  lemma {:induction false} DiskExecutes(d: Device, ts: seq<Triple>, st: State, t: Triple)
    requires t.mod == DiskEncryptionClevis && Classify(t.key).Execute? && st.disk == DeclaredDisk(ts) && t.mod in ActiveAfter(ts)
    ensures DeclaredDisk(ts + [t]) == NEW_DISK
    ensures
      var k, next := st.disk, DiskStep(d, st, Classify(t.key), t.value);
      if k.disk.None? || k.pin.None? || k.config.None? then !next.Running? && next.Log() == st.log
      else
        var e := EncryptDisk(k.disk.value, k.pin.value, k.config.value, k.reencrypt);
        next == Perform(d, st, e, st.(disk := NEW_DISK)) && Justified(d, ts, t, e)
  {
    DiskSnoc(ts, t);
    hide Classify, DeclaredDisk, ActiveAfter, Perform;
  }

  lemma {:induction false} DiskStepIsSafe(d: Device, ts: seq<Triple>, st: State, t: Triple)
    requires Tracks(st, ts) && t.mod == DiskEncryptionClevis && t.mod in st.active && !Classify(t.key).Active?
    ensures StepIsSafe(d, ts, st, t, DiskStep(d, st, Classify(t.key), t.value))
  {
    hide *;
    TracksCommand(st, ts);
    ActiveIs(st, ts);
    var next, k := DiskStep(d, st, Classify(t.key), t.value), st.disk;
    if !Classify(t.key).Execute? {
      DiskKeyRecords(d, ts, st, t);
      if next.Running? {
        DiskKeepsTrack(ts, st, t, next.st);
      }
      RecordIsSafe(d, ts, st, t, next);
    } else {
      DiskExecutes(d, ts, st, t);
      if k.disk.None? || k.pin.None? || k.config.None? {
        RecordIsSafe(d, ts, st, t, next);
      } else {
        var e := EncryptDisk(k.disk.value, k.pin.value, k.config.value, k.reencrypt);
        DiskKeepsTrack(ts, st, t, st.(disk := NEW_DISK, log := st.log + [e]));
        PerformIsSafe(d, ts, st, t, e, st.(disk := NEW_DISK));
      }
    }
  }

  lemma {:induction false} QuietKeyRecords(d: Device, ts: seq<Triple>, st: State, t: Triple)
    requires t.mod != BinaryFile && t.mod != Command && t.mod != DiskEncryptionClevis
    requires st.login == DeclaredLogin(ts) && st.rhsm == DeclaredRhsm(ts)
    ensures
      var next := Dispatch(d, st, t.mod, Classify(t.key), t.value);
      && next.Log() == st.log
      && (next.Running? ==>
            next.st == st.(login := DeclaredLogin(ts + [t]), rhsm := DeclaredRhsm(ts + [t]), reboot := next.st.reboot))
  {
    LoginSnoc(ts, t);
    RhsmSnoc(ts, t);
    hide Classify, DeclaredLogin, DeclaredRhsm;
  }

  lemma {:induction false} QuietKeepsTrack(ts: seq<Triple>, st: State, t: Triple, st': State)
    requires Tracks(st, ts) && !Classify(t.key).Active?
    requires t.mod != BinaryFile && t.mod != Command && t.mod != DiskEncryptionClevis
    requires st' == st.(login := DeclaredLogin(ts + [t]), rhsm := DeclaredRhsm(ts + [t]), reboot := st'.reboot)
    ensures Tracks(st', ts + [t])
  {
    hide Classify, DeclaredCommand, DeclaredDisk, DeclaredLogin, DeclaredRhsm, ActiveAfter, FileTracks;
    Unconcerned(ts, t, st.file);
    ActiveSnoc(ts, t);
  }

  lemma {:induction false} TracksLogin(st: State, ts: seq<Triple>)
    requires Tracks(st, ts)
    ensures st.login == DeclaredLogin(ts) && st.rhsm == DeclaredRhsm(ts)
  {
    hide DeclaredCommand, DeclaredDisk, DeclaredLogin, DeclaredRhsm, ActiveAfter, FileTracks;
  }

  /** The remaining modules perform nothing before the end. */
  lemma {:induction false} QuietStepIsSafe(d: Device, ts: seq<Triple>, st: State, t: Triple)
    requires Tracks(st, ts) && !Classify(t.key).Active?
    requires t.mod != BinaryFile && t.mod != Command && t.mod != DiskEncryptionClevis
    ensures StepIsSafe(d, ts, st, t, Dispatch(d, st, t.mod, Classify(t.key), t.value))
  {
    hide *;
    TracksLogin(st, ts);
    QuietKeyRecords(d, ts, st, t);
    var next := Dispatch(d, st, t.mod, Classify(t.key), t.value);
    if next.Running? {
      QuietKeepsTrack(ts, st, t, next.st);
    }
    RecordIsSafe(d, ts, st, t, next);
  }

  lemma {:induction false} StepsAreSafe(d: Device, ts: seq<Triple>, st: State, t: Triple)
    requires Tracks(st, ts)
    ensures StepIsSafe(d, ts, st, t, Step(d, st, t))
  {
    ActiveIs(st, ts);
    hide Classify, StepIsSafe, Tracks, FileStep, CommandStep, DiskStep, Activate;
    if Classify(t.key).Active? {
      ActivateIsSafe(d, ts, st, t);
    } else if t.mod in st.active {
      if t.mod == BinaryFile {
        FileStepIsSafe(d, ts, st, t);
      } else if t.mod == Command {
        CommandStepIsSafe(d, ts, st, t);
      } else if t.mod == DiskEncryptionClevis {
        DiskStepIsSafe(d, ts, st, t);
      } else {
        QuietStepIsSafe(d, ts, st, t);
      }
    } else {
      BailIsSafe(d, ts, st, t);
    }
  }

  lemma {:induction false} ActiveIs(st: State, ts: seq<Triple>)
    requires Tracks(st, ts)
    ensures st.active == ActiveAfter(ts)
  {
    hide FileTracks, DeclaredCommand, DeclaredDisk, DeclaredLogin, DeclaredRhsm, ActiveAfter;
  }

  lemma {:induction false} BailIsSafe(d: Device, ts: seq<Triple>, st: State, t: Triple)
    ensures StepIsSafe(d, ts, st, t, Bail(st, NotActivated))
  {
  }

  // ------------------------------------------------- whole runs

  lemma {:induction false} InterpSnoc(d: Device, st: State, ts: seq<Triple>, t: Triple)
    ensures Interp(d, st, ts + [t]) ==
            match Interp(d, st, ts)
            case Running(s) => Step(d, s, t)
            case Stopped(report) => Stopped(report)
    decreases |ts|
  {
    hide Step;
    if ts == [] {
      assert ts + [t] == [t] && [t][1..] == [];
    } else {
      assert (ts + [t])[1..] == ts[1..] + [t];
      var next := Step(d, st, ts[0]);
      if next.Running? {
        InterpSnoc(d, next.st, ts[1..], t);
      }
    }
  }

  /** Some message caused the effect, rightly. */
  ghost predicate HasCause(d: Device, ts: seq<Triple>, e: Effect) {
    exists j :: 0 <= j < |ts| && Justified(d, ts[..j], ts[j], e)
  }

  lemma {:induction false} CausesPersist(d: Device, ts: seq<Triple>, t: Triple, e: Effect)
    requires HasCause(d, ts, e)
    ensures HasCause(d, ts + [t], e)
  {
    hide Justified;
    var j :| 0 <= j < |ts| && Justified(d, ts[..j], ts[j], e);
    assert (ts + [t])[..j] == ts[..j] && (ts + [t])[j] == ts[j];
  }

  lemma {:induction false} LoopIsSafe(d: Device, ts: seq<Triple>)
    ensures Interp(d, INIT, ts).Running? ==> Tracks(Interp(d, INIT, ts).st, ts)
    ensures forall k | 0 <= k < |Interp(d, INIT, ts).Log()| :: HasCause(d, ts, Interp(d, INIT, ts).Log()[k])
    decreases |ts|
  {
    hide Step, Tracks, Justified, Interp;
    if ts == [] {
      NothingYet(d);
    } else {
      var before, t := ts[..|ts| - 1], ts[|ts| - 1];
      assert before + [t] == ts;
      LoopIsSafe(d, before);
      InterpSnoc(d, INIT, before, t);
      var r, r' := Interp(d, INIT, before), Interp(d, INIT, ts);
      if r.Running? {
        StepsAreSafe(d, before, r.st, t);
      }
      forall k | 0 <= k < |r'.Log()| ensures HasCause(d, ts, r'.Log()[k]) {
        if k < |r.Log()| {
          CausesPersist(d, before, t, r.Log()[k]);
        } else {
          assert Justified(d, ts[..|ts| - 1], ts[|ts| - 1], r'.Log()[k]);
        }
      }
    }
  }

  lemma {:induction false} NothingYet(d: Device)
    ensures Interp(d, INIT, []) == Running(INIT) && Tracks(INIT, [])
  {
  }

  lemma {:induction false} PerformAllLog(d: Device, st: State, es: seq<Effect>)
    ensures exists k :: 0 <= k <= |es| && PerformAll(d, st, es).Log() == st.log + es[..k]
    ensures PerformAll(d, st, es).Running? ==> PerformAll(d, st, es).st == st.(log := st.log + es)
    decreases |es|
  {
    if es == [] {
      assert PerformAll(d, st, es).Log() == st.log + es[..0];
    } else {
      var next := Perform(d, st, es[0], st);
      if next.Running? {
        PerformAllLog(d, next.st, es[1..]);
        var k :| 0 <= k <= |es[1..]| && PerformAll(d, next.st, es[1..]).Log() == next.st.log + es[1..][..k];
        assert next.st.log == st.log + [es[0]];
        assert es[..k + 1] == [es[0]] + es[1..][..k];
        assert st.log + es[..k + 1] == next.st.log + es[1..][..k];
        assert PerformAll(d, st, es).Log() == st.log + es[..k + 1];
        assert st.log + [es[0]] + es[1..] == st.log + es;
      } else {
        assert es[..1] == [es[0]];
        assert PerformAll(d, st, es).Log() == st.log + es[..1];
      }
    }
  }

  /** `log` continues `st.log` with effects of active modules, as login and subscription describe them. */
  predicate ContinuesSafely(st: State, log: seq<Effect>) {
    && |log| >= |st.log| && log[..|st.log|] == st.log
    && forall k | |st.log| <= k < |log| :: ModuleOf(log[k]) in st.active && Concluding(st.login, st.rhsm, log[k])
  }

  lemma {:induction false} PerformAllIsSafe(d: Device, st: State, es: seq<Effect>)
    requires forall i | 0 <= i < |es| :: ModuleOf(es[i]) in st.active && Concluding(st.login, st.rhsm, es[i])
    ensures ContinuesSafely(st, PerformAll(d, st, es).Log())
    ensures PerformAll(d, st, es).Running? ==> PerformAll(d, st, es).st == st.(log := st.log + es)
  {
    hide PerformAll, ModuleOf, Concluding;
    PerformAllLog(d, st, es);
    var k :| 0 <= k <= |es| && PerformAll(d, st, es).Log() == st.log + es[..k];
    var log := st.log + es[..k];
    assert log[..|st.log|] == st.log;
    forall i | |st.log| <= i < |log| ensures ModuleOf(log[i]) in st.active && Concluding(st.login, st.rhsm, log[i]) {
      assert log[i] == es[i - |st.log|];
    }
  }

  /** Nothing but the log changes after the loop. */
  predicate OnlyLog(st: State, next: Progress) {
    next.Running? ==> next.st == st.(log := next.Log())
  }

  lemma {:induction false} LoginIsSafe(d: Device, st: State)
    ensures ContinuesSafely(st, FinishLogin(d, st).Log()) && OnlyLog(st, FinishLogin(d, st))
  {
    hide PerformAll, SplitKeys;
    if SSHKey in st.active && st.login.user.Some? {
      PerformAllIsSafe(d, st, LoginEffects(st.login.user.value, st.login));
    }
  }

  lemma {:induction false} RhsmIsSafe(d: Device, st: State)
    ensures ContinuesSafely(st, FinishRhsm(d, st).Log()) && OnlyLog(st, FinishRhsm(d, st))
  {
    hide PerformAll;
    var h := st.rhsm;
    if SubscriptionManager in st.active && h.organization.Some? && h.activationKey.Some? && h.insights.Some? {
      PerformAllIsSafe(d, st, [RegisterRhsm(h.organization.value, h.activationKey.value, h.insights.value)]);
    }
  }

  lemma {:induction false} ContinueTwice(st: State, mid: seq<Effect>, log: seq<Effect>)
    requires ContinuesSafely(st, mid) && ContinuesSafely(st.(log := mid), log)
    ensures ContinuesSafely(st, log)
  {
    hide ModuleOf, Concluding;
    assert log[..|st.log|] == log[..|mid|][..|st.log|];
    forall k | |st.log| <= k < |log| ensures ModuleOf(log[k]) in st.active && Concluding(st.login, st.rhsm, log[k]) {
      if k < |mid| {
        assert log[k] == log[..|mid|][k];
      }
    }
  }

  /** What happens after the loop comes from a login or subscription module that is active. */
  lemma {:induction false} FinishIsSafe(d: Device, st: State)
    ensures ContinuesSafely(st, Finish(d, st).log)
  {
    hide FinishLogin, FinishRhsm, ContinuesSafely;
    LoginIsSafe(d, st);
    var first := FinishLogin(d, st);
    if first.Running? {
      RhsmIsSafe(d, first.st);
      ContinueTwice(st, first.Log(), FinishRhsm(d, first.st).Log());
    }
  }

  /** The main result, for every input: each effect is either caused by one message - a file that is
      exactly the name, mode, length, data and digest declared since the previous deploy, a command or
      a disk exactly as described since the previous execute - or it belongs to the login or the
      subscription that all messages describe; and its module is active when it happens. */
  lemma {:induction false} EveryEffectIsJustified(d: Device, si: ServiceInfo, k: nat)
    requires k < |Process(d, si).log|
    ensures
      var ts, e := Triples(d.codec, si), Process(d, si).log[k];
      || HasCause(d, ts, e)
      || (Concluding(DeclaredLogin(ts), DeclaredRhsm(ts), e) && ModuleOf(e) in ActiveAfter(ts))
  {
    hide Interp, Finish, Triples, HasCause, Concluding, DeclaredLogin, DeclaredRhsm, DeclaredCommand, DeclaredDisk, FileTracks, ModuleOf;
    var ts := Triples(d.codec, si);
    LoopIsSafe(d, ts);
    var r := Interp(d, INIT, ts);
    if r.Running? {
      FinishIsSafe(d, r.st);
      if k < |r.st.log| {
        assert Process(d, si).log[k] == Finish(d, r.st).log[..|r.st.log|][k] == r.Log()[k];
      }
    } else {
      assert Process(d, si).log[k] == r.Log()[k];
    }
  }
}
