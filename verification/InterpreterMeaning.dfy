/** The device's interpreter, said once more without it: which messages are admitted, which effects they
cause, and how it ends - read off the list of messages and the exit statuses alone. */
module InterpreterMeaning {
  import opened Outcomes
  import opened ByteStrings
  import opened Crypto
  import opened CborGrammar
  import opened ServiceInfos
  import opened DeviceInterpreter
  import opened InterpreterSafety
  import ServiceInfoApi
  import E = OnboardingEffects

  // ------------------------------------------------- exit statuses

  /** After this effect onboarding goes on: it worked, or it is a command that may fail or a
      registration, and ended with an error code. */
  predicate GoesOn(d: Device, log: seq<Effect>, e: Effect) {
    d.run(log, e) == Succeeded ||
    (d.run(log, e) == NonZeroExit &&
     match e
     case RunCommand(_, _, mayFail, _, _) => mayFail
     case RegisterRhsm(_, _, _) => true
     case _ => false)
  }

  /** An effect that is performed is logged; it ends onboarding exactly if it does not go on. */
  lemma {:induction false} PerformIs(d: Device, st: State, e: Effect, next: State)
    ensures Perform(d, st, e, next) ==
            if GoesOn(d, st.log, e) then Running(next.(log := st.log + [e])) else Stopped(Report(st.log + [e], Err(EffectFailed)))
  {
  }

  /** Every effect in the log went on. */
  predicate Fine(d: Device, log: seq<Effect>) {
    forall k | 0 <= k < |log| :: GoesOn(d, log[..k], log[k])
  }

  /** The last effect, and only the last, did not go on. */
  predicate LastFailed(d: Device, log: seq<Effect>) {
    log != [] && Fine(d, log[..|log| - 1]) && !GoesOn(d, log[..|log| - 1], log[|log| - 1])
  }

  /** What the log of a step, or of a report, says of its end. */
  predicate Sound(d: Device, p: Progress) {
    if p.Stopped? && p.report.result == Err(EffectFailed) then LastFailed(d, p.report.log) else Fine(d, p.Log())
  }

  lemma {:induction false} FineSnoc(d: Device, log: seq<Effect>, e: Effect)
    requires Fine(d, log)
    ensures GoesOn(d, log, e) ==> Fine(d, log + [e])
    ensures !GoesOn(d, log, e) ==> LastFailed(d, log + [e])
  {
    hide GoesOn;
    var all := log + [e];
    assert all[..|all| - 1] == log;
    forall k | 0 <= k < |log| ensures GoesOn(d, all[..k], all[k]) {
      assert all[..k] == log[..k];
    }
  }

  lemma {:induction false} PerformIsSound(d: Device, st: State, e: Effect, next: State)
    requires Fine(d, st.log)
    ensures Sound(d, Perform(d, st, e, next))
  {
    PerformIs(d, st, e, next);
    FineSnoc(d, st.log, e);
    hide Perform, GoesOn, Fine, LastFailed;
  }

  lemma {:induction false} FileStepIsSound(d: Device, st: State, key: Key, v: Value)
    requires Fine(d, st.log)
    ensures Sound(d, FileStep(d, st, key, v))
  {
    hide Fine, LastFailed, Perform, DestinationPath;
    var f := st.file;
    if key.Sha? && f.path.Some? && f.contents.Some? && Absolute(f.path.value) {
      PerformIsSound(d, st, WriteFile(DestinationPath(d, f.path.value), f.contents.value, if f.mode.Some? then f.mode.value else DEFAULT_MODE),
                     st.(file := NEW_FILE));
    }
  }

  lemma {:induction false} CommandStepIsSound(d: Device, st: State, key: Key, v: Value)
    requires Fine(d, st.log)
    ensures Sound(d, CommandStep(d, st, key, v))
  {
    hide Fine, LastFailed, Perform, TextArray;
    var c := st.command;
    if key.Execute? && c.command.Some? {
      PerformIsSound(d, st, RunCommand(c.command.value, c.args, c.mayFail, c.returnStdout, c.returnStderr), st.(command := NEW_COMMAND));
    }
  }

  lemma {:induction false} DiskStepIsSound(d: Device, st: State, key: Key, v: Value)
    requires Fine(d, st.log)
    ensures Sound(d, DiskStep(d, st, key, v))
  {
    hide Fine, LastFailed, Perform;
    var k := st.disk;
    if key.Execute? && k.disk.Some? && k.pin.Some? && k.config.Some? {
      PerformIsSound(d, st, EncryptDisk(k.disk.value, k.pin.value, k.config.value, k.reencrypt), st.(disk := NEW_DISK));
    }
  }

  lemma {:induction false} StepIsSound(d: Device, st: State, t: Triple)
    requires Fine(d, st.log)
    ensures Sound(d, Step(d, st, t))
  {
    hide Fine, LastFailed, FileStep, CommandStep, DiskStep, Classify;
    FileStepIsSound(d, st, Classify(t.key), t.value);
    CommandStepIsSound(d, st, Classify(t.key), t.value);
    DiskStepIsSound(d, st, Classify(t.key), t.value);
  }

  lemma {:induction false} InterpIsSound(d: Device, st: State, ts: seq<Triple>)
    requires Fine(d, st.log)
    ensures Sound(d, Interp(d, st, ts))
    decreases |ts|
  {
    hide Step, Fine, LastFailed;
    if ts != [] {
      StepIsSound(d, st, ts[0]);
      var next := Step(d, st, ts[0]);
      if next.Running? {
        InterpIsSound(d, next.st, ts[1..]);
      }
    }
  }

  lemma {:induction false} PerformAllIsSound(d: Device, st: State, es: seq<Effect>)
    requires Fine(d, st.log)
    ensures Sound(d, PerformAll(d, st, es))
    decreases |es|
  {
    hide Perform, Fine, LastFailed;
    if es != [] {
      PerformIsSound(d, st, es[0], st);
      var next := Perform(d, st, es[0], st);
      if next.Running? {
        PerformAllIsSound(d, next.st, es[1..]);
      }
    }
  }

  lemma {:induction false} FinishIsSound(d: Device, st: State)
    requires Fine(d, st.log)
    ensures Sound(d, Stopped(Finish(d, st)))
  {
    hide PerformAll, Fine, LastFailed, LoginEffects;
    if SSHKey in st.active && st.login.user.Some? {
      PerformAllIsSound(d, st, LoginEffects(st.login.user.value, st.login));
    }
    var first := FinishLogin(d, st);
    if first.Running? {
      var h := first.st.rhsm;
      if h.organization.Some? && h.activationKey.Some? && h.insights.Some? {
        PerformAllIsSound(d, first.st, [RegisterRhsm(h.organization.value, h.activationKey.value, h.insights.value)]);
      }
    }
  }

  /** For any input: every effect but the last went on, and onboarding fails for an effect exactly if
      the last one did not. */
  lemma {:induction false} FailsForAnEffectIff(d: Device, si: ServiceInfo)
    ensures
      var r := Process(d, si);
      && (r.result == Err(EffectFailed) <==> LastFailed(d, r.log))
      && (r.result != Err(EffectFailed) ==> Fine(d, r.log))
  {
    hide Interp, Finish, Triples, GoesOn;
    var ts := Triples(d.codec, si);
    assert Fine(d, INIT.log);
    InterpIsSound(d, INIT, ts);
    var p := Interp(d, INIT, ts);
    if p.Running? {
      FinishIsSound(d, p.st);
    }
    var log := Process(d, si).log;
    if Fine(d, log) && log != [] {
      assert GoesOn(d, log[..|log| - 1], log[|log| - 1]);
    }
  }

  // ------------------------------------------------- what a message causes

  /** The effect of message `t` after the messages `ts`, if it has one. */
  function Caused(d: Device, ts: seq<Triple>, t: Triple): Option<Effect> {
    var key := Classify(t.key);
    if key.Active? || t.mod !in ActiveAfter(ts) then None
    else if t.mod == BinaryFile && key.Sha? then
      var name, data, kind := DeclaredName(ts), PendingData(ts), if key.algorithm == "256" then Sha256 else Sha384;
      if name.Some? && Absolute(name.value) && DeclaredLength(ts) == Some(|data|) &&
         (key.algorithm == "256" || key.algorithm == "384") &&
         t.value == Blob(d.digest(kind, data)) && |d.digest(kind, data)| == (if key.algorithm == "256" then 32 else 48)
      then Some(WriteFile(DestinationPath(d, name.value), data, if DeclaredMode(ts).Some? then DeclaredMode(ts).value else 0x180))
      else None
    else if t.mod == Command && key.Execute? then
      var c := DeclaredCommand(ts);
      if c.command.Some? then Some(RunCommand(c.command.value, c.args, c.mayFail, c.returnStdout, c.returnStderr)) else None
    else if t.mod == DiskEncryptionClevis && key.Execute? then
      var k := DeclaredDisk(ts);
      if k.disk.Some? && k.pin.Some? && k.config.Some? then Some(EncryptDisk(k.disk.value, k.pin.value, k.config.value, k.reencrypt)) else None
    else None
  }

  /** Where a file ends up: at its path, or at its path beneath the configured prefix - unless it begins
      with two slashes, when the prefix is dropped. */
  lemma {:induction false} BeneathPrefixIff(d: Device, path: string)
    requires Absolute(path)
    ensures
      match d.prefix
      case None => DestinationPath(d, path) == path
      case Some(base) =>
        && (base == "" || "//" <= path ==> DestinationPath(d, path) == path[1..])
        && (base != "" ==>
              var directory := if base[|base| - 1] == '/' then base[..|base| - 1] else base;
              DestinationPath(d, path) == directory + path <==> !("//" <= path))
  {
    assert path == "/" + path[1..];
    if d.prefix.Some? && d.prefix.value != "" {
      var base := d.prefix.value;
      assert base == base[..|base| - 1] + [base[|base| - 1]];
      assert (base + "/") + path[1..] == base + ("/" + path[1..]);
      if base[|base| - 1] == '/' {
        assert base + path[1..] == base[..|base| - 1] + ("/" + path[1..]);
      }
      assert "//" <= path <==> |path| > 1 && path[1] == '/';
    }
  }

  /** The effects of all messages, in order. */
  function AllCaused(d: Device, ts: seq<Triple>): seq<Effect>
    decreases |ts|
  {
    if ts == [] then []
    else
      var before, e := ts[..|ts| - 1], Caused(d, ts[..|ts| - 1], ts[|ts| - 1]);
      AllCaused(d, before) + if e.Some? then [e.value] else []
  }

  /** Message `t` is admitted after the messages `ts`: its module is active, its value has the type its
      key asks for, what may be given once is given once, and what ends something finds it complete. */
  predicate Admissible(d: Device, ts: seq<Triple>, t: Triple) {
    if Classify(t.key).Active? then t.value.Bool? else t.mod in ActiveAfter(ts) && Admitted(d, ts, t)
  }

  predicate Admitted(d: Device, ts: seq<Triple>, t: Triple) {
    var key, v := Classify(t.key), t.value;
    match t.mod
    case SSHKey => key.Username? || key.Password? || key.SshKeys? ==> v.Text?
    case Reboot => key.RebootKey? ==> v.Bool?
    case SubscriptionManager => (key.OrganizationId? || key.ActivationKey? ==> v.Text?) && (key.PerformInsights? ==> v.Bool?)
    case BinaryFile =>
      && (key.FileName? ==> v.Text? && DeclaredName(ts).None?)
      && (key.Length? ==> v.Number? && v.number % U64 <= MAX_ALLOC && DeclaredLength(ts).None?)
      && (key.Data? ==> v.Blob? && DeclaredLength(ts).Some?)
      && (key.Mode? ==> v.Number? && DeclaredMode(ts).None?)
      && (key.Sha? ==> Caused(d, ts, t).Some?)
    case Command =>
      && (key.CommandKey? ==> v.Text? && DeclaredCommand(ts).command.None?)
      && (key.Args? ==> v.Array? && forall i | 0 <= i < |v.elements| :: v.elements[i].Text?)
      && (key.MayFail? || key.ReturnStdout? || key.ReturnStderr? ==> v.Bool?)
      && (key.Execute? ==> Caused(d, ts, t).Some?)
    case DiskEncryptionClevis =>
      && (key.DiskLabel? ==> v.Text? && DeclaredDisk(ts).disk.None?)
      && (key.Pin? ==> v.Text? && DeclaredDisk(ts).pin.None?)
      && (key.Config? ==> v.Text? && DeclaredDisk(ts).config.None?)
      && (key.Reencrypt? ==> v.Bool?)
      && (key.Execute? ==> Caused(d, ts, t).Some?)
    case _ => true
  }

  lemma {:induction false} TextArrayIff(vs: seq<Value>)
    ensures TextArray(vs).Some? <==> forall i | 0 <= i < |vs| :: vs[i].Text?
  {
    if vs != [] {
      TextArrayIff(vs[1..]);
      assert forall i | 1 <= i < |vs| :: vs[i] == vs[1..][i - 1];
    }
  }

  /** What a step does, in terms of the list alone. */
  predicate Means(d: Device, ts: seq<Triple>, st: State, t: Triple, next: Progress) {
    var e := Caused(d, ts, t);
    && next.Log() == st.log + (if e.Some? then [e.value] else [])
    && (next.Running? <==> Admissible(d, ts, t) && (e.Some? ==> GoesOn(d, st.log, e.value)))
  }

  /** Performing the effect that a message causes. */
  lemma {:induction false} PerformMeans(d: Device, ts: seq<Triple>, st: State, t: Triple, e: Effect, next: State)
    requires Caused(d, ts, t) == Some(e) && Admissible(d, ts, t)
    ensures Means(d, ts, st, t, Perform(d, st, e, next))
  {
    PerformIs(d, st, e, next);
    hide Caused, Admissible, Perform, GoesOn;
  }

  /** Recording something, or refusing to. */
  lemma {:induction false} RecordMeans(d: Device, ts: seq<Triple>, st: State, t: Triple, next: Progress)
    requires Caused(d, ts, t).None? && next.Log() == st.log && (next.Running? <==> Admissible(d, ts, t))
    ensures Means(d, ts, st, t, next)
  {
    hide Caused, Admissible, GoesOn;
    assert st.log + [] == st.log;
  }

  lemma {:induction false} FileKeysRecord(d: Device, ts: seq<Triple>, st: State, t: Triple)
    requires FileTracks(st.file, ts) && t.mod == BinaryFile && !Classify(t.key).Sha?
    ensures
      var next := FileStep(d, st, Classify(t.key), t.value);
      next.Log() == st.log && (next.Running? <==> Admitted(d, ts, t))
  {
    LengthAndContents(st.file, ts);
    hide Classify, Latest, PendingData, DeployFile, ActiveAfter, Caused;
  }

  lemma {:induction false} FileRecords(d: Device, ts: seq<Triple>, st: State, t: Triple)
    requires FileTracks(st.file, ts) && t.mod == BinaryFile && !Classify(t.key).Sha? && !Classify(t.key).Active?
    ensures Caused(d, ts, t).None?
    ensures
      var next := FileStep(d, st, Classify(t.key), t.value);
      next.Log() == st.log && (next.Running? <==> Admitted(d, ts, t))
  {
    FileKeysRecord(d, ts, st, t);
    hide Classify, Latest, PendingData, ActiveAfter, FileStep, Admitted, FileTracks, DestinationPath;
  }

  lemma {:induction false} FileDeploys(d: Device, ts: seq<Triple>, st: State, t: Triple)
    requires FileTracks(st.file, ts) && t.mod == BinaryFile && Classify(t.key).Sha? && t.mod in ActiveAfter(ts)
    ensures Admitted(d, ts, t) <==> Caused(d, ts, t).Some?
    ensures
      var next, e := FileStep(d, st, Classify(t.key), t.value), Caused(d, ts, t);
      if e.Some? then next == Perform(d, st, e.value, st.(file := NEW_FILE)) else !next.Running? && next.Log() == st.log
  {
    hide Classify, DeclaredName, DeclaredLength, DeclaredMode, PendingData, DestinationPath, Perform, ActiveAfter;
  }

  lemma {:induction false} FileMeans(d: Device, ts: seq<Triple>, st: State, t: Triple)
    requires Tracks(st, ts) && t.mod == BinaryFile && t.mod in st.active && !Classify(t.key).Active?
    ensures Means(d, ts, st, t, FileStep(d, st, Classify(t.key), t.value))
  {
    TracksFile(st, ts);
    ActiveIs(st, ts);
    hide Classify, Tracks, FileTracks, FileStep, Caused, Admitted, Means, Perform, ActiveAfter;
    var e := Caused(d, ts, t);
    if !Classify(t.key).Sha? {
      FileRecords(d, ts, st, t);
      RecordMeans(d, ts, st, t, FileStep(d, st, Classify(t.key), t.value));
    } else {
      FileDeploys(d, ts, st, t);
      if e.Some? {
        PerformMeans(d, ts, st, t, e.value, st.(file := NEW_FILE));
      } else {
        RecordMeans(d, ts, st, t, FileStep(d, st, Classify(t.key), t.value));
      }
    }
  }

  lemma {:induction false} CommandRecords(d: Device, ts: seq<Triple>, st: State, t: Triple)
    requires st.command == DeclaredCommand(ts) && t.mod == Command && !Classify(t.key).Execute? && !Classify(t.key).Active?
    ensures Caused(d, ts, t).None?
    ensures
      var next := CommandStep(d, st, Classify(t.key), t.value);
      next.Log() == st.log && (next.Running? <==> Admitted(d, ts, t))
  {
    if Classify(t.key).Args? {
      ArgumentsRecord(d, ts, st, t);
    } else {
      OtherCommandKeysRecord(d, ts, st, t);
    }
    assert Caused(d, ts, t).None? by {
      hide Classify, DeclaredCommand, ActiveAfter, CommandStep, Admitted;
    }
    hide *;
  }

  lemma {:induction false} ArgumentsRecord(d: Device, ts: seq<Triple>, st: State, t: Triple)
    requires t.mod == Command && Classify(t.key).Args?
    ensures
      var next := CommandStep(d, st, Classify(t.key), t.value);
      next.Log() == st.log && (next.Running? <==> Admitted(d, ts, t))
  {
    if t.value.Array? {
      TextArrayIff(t.value.elements);
    }
    hide Classify, DeclaredCommand, Caused, TextArray;
  }

  lemma {:induction false} OtherCommandKeysRecord(d: Device, ts: seq<Triple>, st: State, t: Triple)
    requires st.command == DeclaredCommand(ts) && t.mod == Command
    requires !Classify(t.key).Args? && !Classify(t.key).Execute? && !Classify(t.key).Active?
    ensures
      var next := CommandStep(d, st, Classify(t.key), t.value);
      next.Log() == st.log && (next.Running? <==> Admitted(d, ts, t))
  {
    hide Classify, DeclaredCommand, Caused, TextArray;
  }

  lemma {:induction false} CommandRuns(d: Device, ts: seq<Triple>, st: State, t: Triple)
    requires st.command == DeclaredCommand(ts) && t.mod == Command && Classify(t.key).Execute? && t.mod in ActiveAfter(ts)
    ensures Admitted(d, ts, t) <==> Caused(d, ts, t).Some?
    ensures
      var next, e := CommandStep(d, st, Classify(t.key), t.value), Caused(d, ts, t);
      if e.Some? then next == Perform(d, st, e.value, st.(command := NEW_COMMAND)) else !next.Running? && next.Log() == st.log
  {
    hide Classify, DeclaredCommand, Perform, ActiveAfter;
  }

  lemma {:induction false} CommandMeans(d: Device, ts: seq<Triple>, st: State, t: Triple)
    requires Tracks(st, ts) && t.mod == Command && t.mod in st.active && !Classify(t.key).Active?
    ensures Means(d, ts, st, t, CommandStep(d, st, Classify(t.key), t.value))
  {
    TracksCommand(st, ts);
    ActiveIs(st, ts);
    hide Classify, Tracks, CommandStep, Caused, Admitted, Means, Perform, ActiveAfter, DeclaredCommand, DeclaredDisk;
    var e := Caused(d, ts, t);
    if !Classify(t.key).Execute? {
      CommandRecords(d, ts, st, t);
      RecordMeans(d, ts, st, t, CommandStep(d, st, Classify(t.key), t.value));
    } else {
      CommandRuns(d, ts, st, t);
      if e.Some? {
        PerformMeans(d, ts, st, t, e.value, st.(command := NEW_COMMAND));
      } else {
        RecordMeans(d, ts, st, t, CommandStep(d, st, Classify(t.key), t.value));
      }
    }
  }

  lemma {:induction false} DiskRecords(d: Device, ts: seq<Triple>, st: State, t: Triple)
    requires st.disk == DeclaredDisk(ts) && t.mod == DiskEncryptionClevis && !Classify(t.key).Execute? && !Classify(t.key).Active?
    ensures Caused(d, ts, t).None?
    ensures
      var next := DiskStep(d, st, Classify(t.key), t.value);
      next.Log() == st.log && (next.Running? <==> Admitted(d, ts, t))
  {
    hide Classify, DeclaredDisk, ActiveAfter;
  }

  lemma {:induction false} DiskRuns(d: Device, ts: seq<Triple>, st: State, t: Triple)
    requires st.disk == DeclaredDisk(ts) && t.mod == DiskEncryptionClevis && Classify(t.key).Execute? && t.mod in ActiveAfter(ts)
    ensures Admitted(d, ts, t) <==> Caused(d, ts, t).Some?
    ensures
      var next, e := DiskStep(d, st, Classify(t.key), t.value), Caused(d, ts, t);
      if e.Some? then next == Perform(d, st, e.value, st.(disk := NEW_DISK)) else !next.Running? && next.Log() == st.log
  {
    hide Classify, DeclaredDisk, Perform, ActiveAfter;
  }

  lemma {:induction false} DiskMeans(d: Device, ts: seq<Triple>, st: State, t: Triple)
    requires Tracks(st, ts) && t.mod == DiskEncryptionClevis && t.mod in st.active && !Classify(t.key).Active?
    ensures Means(d, ts, st, t, DiskStep(d, st, Classify(t.key), t.value))
  {
    TracksCommand(st, ts);
    ActiveIs(st, ts);
    hide Classify, Tracks, DiskStep, Caused, Admitted, Means, Perform, ActiveAfter, DeclaredCommand, DeclaredDisk;
    var e := Caused(d, ts, t);
    if !Classify(t.key).Execute? {
      DiskRecords(d, ts, st, t);
      RecordMeans(d, ts, st, t, DiskStep(d, st, Classify(t.key), t.value));
    } else {
      DiskRuns(d, ts, st, t);
      if e.Some? {
        PerformMeans(d, ts, st, t, e.value, st.(disk := NEW_DISK));
      } else {
        RecordMeans(d, ts, st, t, DiskStep(d, st, Classify(t.key), t.value));
      }
    }
  }

  lemma {:induction false} RestRecords(d: Device, ts: seq<Triple>, st: State, t: Triple)
    requires t.mod != BinaryFile && t.mod != Command && t.mod != DiskEncryptionClevis
    ensures Caused(d, ts, t).None?
    ensures
      var next := Dispatch(d, st, t.mod, Classify(t.key), t.value);
      next.Log() == st.log && (next.Running? <==> Admitted(d, ts, t))
  {
    hide Classify, ActiveAfter;
  }

  lemma {:induction false} ActivationRecords(d: Device, ts: seq<Triple>, st: State, t: Triple)
    requires Classify(t.key).Active?
    ensures Caused(d, ts, t).None?
    ensures
      var next := Activate(st, t.mod, t.value);
      next.Log() == st.log && (next.Running? <==> Admissible(d, ts, t))
  {
    hide Classify, ActiveAfter;
  }

  lemma {:induction false} InactiveCausesNothing(d: Device, ts: seq<Triple>, t: Triple)
    requires !Classify(t.key).Active? && t.mod !in ActiveAfter(ts)
    ensures Caused(d, ts, t).None? && !Admissible(d, ts, t)
  {
    hide Classify, ActiveAfter;
  }

  lemma {:induction false} StepMeans(d: Device, ts: seq<Triple>, st: State, t: Triple)
    requires Tracks(st, ts)
    ensures Means(d, ts, st, t, Step(d, st, t))
  {
    ActiveIs(st, ts);
    hide Classify, Tracks, FileStep, CommandStep, DiskStep, LoginStep, RhsmStep, RebootStep, Activate, Caused, Admitted, Means, ActiveAfter;
    if Classify(t.key).Active? {
      ActivationRecords(d, ts, st, t);
      RecordMeans(d, ts, st, t, Step(d, st, t));
    } else if t.mod !in st.active {
      InactiveCausesNothing(d, ts, t);
      RecordMeans(d, ts, st, t, Step(d, st, t));
    } else if t.mod == BinaryFile {
      FileMeans(d, ts, st, t);
    } else if t.mod == Command {
      CommandMeans(d, ts, st, t);
    } else if t.mod == DiskEncryptionClevis {
      DiskMeans(d, ts, st, t);
    } else {
      RestRecords(d, ts, st, t);
      RecordMeans(d, ts, st, t, Step(d, st, t));
    }
  }

  // ------------------------------------------------- all messages

  /** Message `j` is admitted, and its effect, if it has one, goes on. */
  predicate PassesAt(d: Device, ts: seq<Triple>, j: nat)
    requires j < |ts|
  {
    var before, e := ts[..j], Caused(d, ts[..j], ts[j]);
    Admissible(d, before, ts[j]) && (e.Some? ==> GoesOn(d, AllCaused(d, before), e.value))
  }

  predicate Passes(d: Device, ts: seq<Triple>) {
    forall j | 0 <= j < |ts| :: PassesAt(d, ts, j)
  }

  lemma {:induction false} PassesSnoc(d: Device, ts: seq<Triple>, t: Triple)
    ensures
      Passes(d, ts + [t]) <==>
        Passes(d, ts) && Admissible(d, ts, t) && (Caused(d, ts, t).Some? ==> GoesOn(d, AllCaused(d, ts), Caused(d, ts, t).value))
  {
    hide Admissible, Caused, GoesOn, AllCaused;
    var all := ts + [t];
    assert all[..|ts|] == ts;
    forall j | 0 <= j < |ts| ensures PassesAt(d, all, j) <==> PassesAt(d, ts, j) {
      assert all[..j] == ts[..j];
    }
    assert PassesAt(d, all, |ts|) <==> Admissible(d, ts, t) && (Caused(d, ts, t).Some? ==> GoesOn(d, AllCaused(d, ts), Caused(d, ts, t).value));
  }

  lemma {:induction false} AllCausedSnoc(d: Device, ts: seq<Triple>, t: Triple)
    ensures AllCaused(d, ts + [t]) == AllCaused(d, ts) + (if Caused(d, ts, t).Some? then [Caused(d, ts, t).value] else [])
  {
    hide Caused;
    assert (ts + [t])[..|ts + [t]| - 1] == ts;
  }

  lemma {:induction false} TracksAfter(d: Device, ts: seq<Triple>)
    ensures Interp(d, INIT, ts).Running? ==> Tracks(Interp(d, INIT, ts).st, ts)
  {
    LoopIsSafe(d, ts);
  }

  /** The loop: it comes through exactly if every message passes, and the effects are then exactly
      those the messages cause. */
  lemma {:induction false} LoopMeans(d: Device, ts: seq<Triple>)
    ensures Interp(d, INIT, ts).Running? <==> Passes(d, ts)
    ensures Interp(d, INIT, ts).Running? ==> Interp(d, INIT, ts).Log() == AllCaused(d, ts)
    decreases |ts|
  {
    hide Step, Tracks, Passes, Caused, Admissible, GoesOn, AllCaused, Interp;
    if ts == [] {
      NothingMeans(d);
    } else {
      var before, t := ts[..|ts| - 1], ts[|ts| - 1];
      assert before + [t] == ts;
      LoopMeans(d, before);
      TracksAfter(d, before);
      InterpSnoc(d, INIT, before, t);
      PassesSnoc(d, before, t);
      AllCausedSnoc(d, before, t);
      var p := Interp(d, INIT, before);
      if p.Running? {
        StepMeans(d, before, p.st, t);
      }
    }
  }

  lemma {:induction false} NothingMeans(d: Device)
    ensures Interp(d, INIT, []) == Running(INIT) && Passes(d, []) && AllCaused(d, []) == []
  {
  }

  // ------------------------------------------------- the end

  /** The effects of a login, and of a subscription, if they are active. */
  function OfLogin(active: set<Module>, l: Login): seq<Effect> {
    if SSHKey in active && l.user.Some? then
      (if l.password.Some? then [CreateUserWithPassword(l.user.value, l.password.value)] else []) +
      (if l.keys.Some? then [CreateUser(l.user.value)] + InstallKeys(l.user.value, SplitKeys(l.keys.value)) else [])
    else []
  }

  function OfRhsm(active: set<Module>, h: Rhsm): seq<Effect> {
    if SubscriptionManager in active && h.organization.Some? && h.activationKey.Some? && h.insights.Some?
    then [RegisterRhsm(h.organization.value, h.activationKey.value, h.insights.value)] else []
  }

  /** The effects after the messages: the login, then the subscription. */
  function Concluded(ts: seq<Triple>): seq<Effect> {
    OfLogin(ActiveAfter(ts), DeclaredLogin(ts)) + OfRhsm(ActiveAfter(ts), DeclaredRhsm(ts))
  }

  /** An active login has a user and a credential, an active subscription everything. */
  predicate CompleteLogin(active: set<Module>, l: Login) {
    SSHKey in active ==> l.user.Some? && (l.password.Some? || l.keys.Some?)
  }

  predicate CompleteRhsm(active: set<Module>, h: Rhsm) {
    SubscriptionManager in active ==> h.organization.Some? && h.activationKey.Some? && h.insights.Some?
  }

  predicate Complete(ts: seq<Triple>) {
    CompleteLogin(ActiveAfter(ts), DeclaredLogin(ts)) && CompleteRhsm(ActiveAfter(ts), DeclaredRhsm(ts))
  }

  /** All these effects go on, one after the other. */
  predicate AllGoOn(d: Device, log: seq<Effect>, es: seq<Effect>) {
    forall i | 0 <= i < |es| :: GoesOn(d, log + es[..i], es[i])
  }

  function DeclaredReboot(ts: seq<Triple>): bool {
    FlagOf(Latest(ts, Reboot, RebootKey))
  }

  lemma {:induction false} PerformAllMeans(d: Device, st: State, es: seq<Effect>)
    ensures PerformAll(d, st, es).Running? <==> AllGoOn(d, st.log, es)
    ensures AllGoOn(d, st.log, es) ==> PerformAll(d, st, es) == Running(st.(log := st.log + es))
    decreases |es|
  {
    hide GoesOn, Perform;
    if es == [] {
      assert st.log + es == st.log;
    } else {
      PerformIs(d, st, es[0], st);
      assert st.log + es[..0] == st.log;
      AllGoOnCons(d, st.log, es);
      var next := Perform(d, st, es[0], st);
      if next.Running? {
        PerformAllMeans(d, next.st, es[1..]);
        assert next.st.log + es[1..] == st.log + es;
      }
    }
  }

  lemma {:induction false} AllGoOnCons(d: Device, log: seq<Effect>, es: seq<Effect>)
    requires es != []
    ensures AllGoOn(d, log, es) <==> GoesOn(d, log, es[0]) && AllGoOn(d, log + [es[0]], es[1..])
  {
    hide GoesOn;
    var tail := es[1..];
    assert log + es[..0] == log;
    forall i | 0 <= i < |tail| ensures log + [es[0]] + tail[..i] == log + es[..i + 1] && tail[i] == es[i + 1] {
    }
    if AllGoOn(d, log + [es[0]], tail) && GoesOn(d, log, es[0]) {
      forall i | 0 <= i < |es| ensures GoesOn(d, log + es[..i], es[i]) {
        if i > 0 {
          assert GoesOn(d, log + [es[0]] + tail[..i - 1], tail[i - 1]);
        }
      }
    }
    if AllGoOn(d, log, es) {
      forall i | 0 <= i < |tail| ensures GoesOn(d, log + [es[0]] + tail[..i], tail[i]) {
        assert GoesOn(d, log + es[..i + 1], es[i + 1]);
      }
    }
  }

  lemma {:induction false} AllGoOnConcat(d: Device, log: seq<Effect>, a: seq<Effect>, b: seq<Effect>)
    ensures AllGoOn(d, log, a + b) <==> AllGoOn(d, log, a) && AllGoOn(d, log + a, b)
    decreases |a|
  {
    hide GoesOn, AllGoOn;
    if a == [] {
      assert a + b == b && log + a == log;
      assert AllGoOn(d, log, a) by { NothingGoesOn(d, log); }
    } else {
      AllGoOnCons(d, log, a);
      AllGoOnCons(d, log, a + b);
      assert (a + b)[1..] == a[1..] + b && log + [a[0]] + a[1..] == log + a;
      AllGoOnConcat(d, log + [a[0]], a[1..], b);
    }
  }

  lemma {:induction false} NothingGoesOn(d: Device, log: seq<Effect>)
    ensures AllGoOn(d, log, [])
  {
  }

  lemma {:induction false} LoginMeans(d: Device, st: State)
    ensures FinishLogin(d, st).Running? <==> CompleteLogin(st.active, st.login) && AllGoOn(d, st.log, OfLogin(st.active, st.login))
    ensures FinishLogin(d, st).Running? ==> FinishLogin(d, st) == Running(st.(log := st.log + OfLogin(st.active, st.login)))
  {
    PerformAllMeans(d, st, OfLogin(st.active, st.login));
    NothingGoesOn(d, st.log);
    hide PerformAll, AllGoOn, SplitKeys, InstallKeys;
    assert st.log + [] == st.log;
  }

  lemma {:induction false} RhsmMeans(d: Device, st: State)
    ensures FinishRhsm(d, st).Running? <==> CompleteRhsm(st.active, st.rhsm) && AllGoOn(d, st.log, OfRhsm(st.active, st.rhsm))
    ensures FinishRhsm(d, st).Running? ==> FinishRhsm(d, st) == Running(st.(log := st.log + OfRhsm(st.active, st.rhsm)))
  {
    PerformAllMeans(d, st, OfRhsm(st.active, st.rhsm));
    NothingGoesOn(d, st.log);
    hide PerformAll, AllGoOn;
    assert st.log + [] == st.log;
  }

  lemma {:induction false} PerformAllIsNotOk(d: Device, st: State, es: seq<Effect>)
    ensures PerformAll(d, st, es).Stopped? ==> !PerformAll(d, st, es).report.result.Ok?
    decreases |es|
  {
    hide Survives;
    if es != [] && Perform(d, st, es[0], st).Running? {
      PerformAllIsNotOk(d, Perform(d, st, es[0], st).st, es[1..]);
    }
  }

  lemma {:induction false} FinishPartsAreNotOk(d: Device, st: State)
    ensures FinishLogin(d, st).Stopped? ==> !FinishLogin(d, st).report.result.Ok?
    ensures FinishRhsm(d, st).Stopped? ==> !FinishRhsm(d, st).report.result.Ok?
  {
    if st.login.user.Some? {
      PerformAllIsNotOk(d, st, LoginEffects(st.login.user.value, st.login));
    }
    var h := st.rhsm;
    if h.organization.Some? && h.activationKey.Some? && h.insights.Some? {
      PerformAllIsNotOk(d, st, [RegisterRhsm(h.organization.value, h.activationKey.value, h.insights.value)]);
    }
    hide PerformAll, LoginEffects;
  }

  /** The two parts of the end. */
  lemma {:induction false} FinishParts(d: Device, st: State)
    ensures
      var r, first, second := Finish(d, st), OfLogin(st.active, st.login), OfRhsm(st.active, st.rhsm);
      && (r.result.Ok? <==> CompleteLogin(st.active, st.login) && CompleteRhsm(st.active, st.rhsm) && AllGoOn(d, st.log, first + second))
      && (r.result.Ok? ==> r.log == st.log + (first + second) && r.result.value == st.reboot)
  {
    var first, second := OfLogin(st.active, st.login), OfRhsm(st.active, st.rhsm);
    var mid := st.(log := st.log + first);
    LoginMeans(d, st);
    RhsmMeans(d, mid);
    FinishPartsAreNotOk(d, st);
    FinishPartsAreNotOk(d, mid);
    AllGoOnConcat(d, st.log, first, second);
    hide FinishLogin, FinishRhsm, AllGoOn, OfLogin, OfRhsm, CompleteLogin, CompleteRhsm;
    assert st.log + first + second == st.log + (first + second);
  }

  lemma {:induction false} FinishMeans(d: Device, st: State, ts: seq<Triple>)
    requires Tracks(st, ts)
    ensures
      var r := Finish(d, st);
      && (r.result.Ok? <==> Complete(ts) && AllGoOn(d, st.log, Concluded(ts)))
      && (r.result.Ok? ==> r.log == st.log + Concluded(ts) && r.result.value == st.reboot)
  {
    ActiveIs(st, ts);
    TracksLogin(st, ts);
    FinishParts(d, st);
    hide Tracks, ActiveAfter, DeclaredLogin, DeclaredRhsm, Finish, AllGoOn, OfLogin, OfRhsm, CompleteLogin, CompleteRhsm;
  }

  lemma {:induction false} RebootSnoc(d: Device, st: State, ts: seq<Triple>, t: Triple)
    requires st.reboot == DeclaredReboot(ts)
    ensures Step(d, st, t).Running? ==> Step(d, st, t).st.reboot == DeclaredReboot(ts + [t])
  {
    LatestSnoc(ts, t, Reboot, RebootKey);
    hide Classify, Latest, TextArray, Survives, DestinationPath;
  }

  lemma {:induction false} RebootIs(d: Device, ts: seq<Triple>)
    ensures Interp(d, INIT, ts).Running? ==> Interp(d, INIT, ts).st.reboot == DeclaredReboot(ts)
    decreases |ts|
  {
    hide Step, DeclaredReboot, Interp;
    if ts == [] {
      assert Interp(d, INIT, []) == Running(INIT) by { NothingMeans(d); }
      NoReboot();
    } else {
      var before, t := ts[..|ts| - 1], ts[|ts| - 1];
      assert before + [t] == ts;
      RebootIs(d, before);
      InterpSnoc(d, INIT, before, t);
      if Interp(d, INIT, before).Running? {
        RebootSnoc(d, Interp(d, INIT, before).st, before, t);
      }
    }
  }

  lemma {:induction false} NoReboot()
    ensures !DeclaredReboot([]) && !INIT.reboot
  {
  }

  /** The meaning of the interpreter, for every input: onboarding succeeds exactly if every message
      passes, login and subscription are complete and their effects go on; it then has performed
      exactly the effects the messages cause and conclude with, in order, and reboots as declared. */
  lemma {:induction false} SucceedsIff(d: Device, si: ServiceInfo)
    ensures
      var ts, r := Triples(d.codec, si), Process(d, si);
      && (r.result.Ok? <==> Passes(d, ts) && Complete(ts) && AllGoOn(d, AllCaused(d, ts), Concluded(ts)))
      && (r.result.Ok? ==> r.log == AllCaused(d, ts) + Concluded(ts) && r.result.value == DeclaredReboot(ts))
  {
    hide Interp, Finish, Triples, Passes, Complete, AllGoOn, AllCaused, Concluded, DeclaredReboot, Tracks;
    var ts := Triples(d.codec, si);
    LoopMeans(d, ts);
    RebootIs(d, ts);
    TracksAfter(d, ts);
    var p := Interp(d, INIT, ts);
    StoppedIsNotOk(d, INIT, ts);
    if p.Running? {
      FinishMeans(d, p.st, ts);
    }
  }

  lemma {:induction false} StoppedIsNotOk(d: Device, st: State, ts: seq<Triple>)
    ensures Interp(d, st, ts).Stopped? ==> !Interp(d, st, ts).report.result.Ok?
    decreases |ts|
  {
    hide Step;
    if ts != [] {
      StepIsNotOk(d, st, ts[0]);
      if Step(d, st, ts[0]).Running? {
        StoppedIsNotOk(d, Step(d, st, ts[0]).st, ts[1..]);
      }
    }
  }

  lemma {:induction false} StepIsNotOk(d: Device, st: State, t: Triple)
    ensures Step(d, st, t).Stopped? ==> !Step(d, st, t).report.result.Ok?
  {
    hide Classify, TextArray, Survives, DestinationPath;
  }

  // ------------------------------------------------- configurations

  lemma {:induction false} ExecuteMeans(d: Device, log: seq<Effect>, es: seq<Effect>)
    requires Fine(d, log)
    ensures
      var (all, ok) := E.Execute(d, log, es);
      && log <= all <= log + es && (ok <==> AllGoOn(d, log, es))
      && if ok then all == log + es && Fine(d, all) else LastFailed(d, all)
    decreases |es|
  {
    hide GoesOn, Survives, Fine, LastFailed, AllGoOn;
    if es == [] {
      NothingGoesOn(d, log);
      assert log + es == log;
    } else {
      ExecuteOne(d, log, es);
      FineSnoc(d, log, es[0]);
      AllGoOnCons(d, log, es);
      assert log + [es[0]] + es[1..] == log + es;
      if GoesOn(d, log, es[0]) {
        ExecuteMeans(d, log + [es[0]], es[1..]);
      }
    }
  }

  lemma {:induction false} ExecuteOne(d: Device, log: seq<Effect>, es: seq<Effect>)
    requires es != []
    ensures E.Execute(d, log, es) == if GoesOn(d, log, es[0]) then E.Execute(d, log + [es[0]], es[1..]) else (log + [es[0]], false)
  {
  }

  /** The result of any applicable configuration, from the exit statuses alone: if all configured
      effects go on, exactly these have happened, and otherwise those up to the first that does not. */
  lemma {:induction false} ConfigurationUpToFirstFailure(d: Device, cfg: ServiceInfoApi.Configuration, modules: set<Module>)
    requires ValueLaw(d.codec) && E.DigestLaw(d.digest) && E.Applicable(cfg, modules)
    ensures ServiceInfoApi.Messages(ServiceInfoApi.Compile(d.digest, cfg, modules)).Ok?
    ensures
      var es, r := E.Configured(d, cfg, modules), Process(d, E.Transmitted(d, cfg, modules));
      && r.log <= es
      && if AllGoOn(d, [], es) then r.log == es && r.result == Ok(E.ConfiguredReboot(cfg, modules))
         else LastFailed(d, r.log) && r.result == Err(EffectFailed)
  {
    hide Process, E.Configured, E.Transmitted, E.ConfiguredReboot, E.Execute, AllGoOn, LastFailed;
    var es := E.Configured(d, cfg, modules);
    E.ConfigurationTakesEffect(d, cfg, modules);
    ExecuteMeans(d, [], es);
    assert [] + es == es;
  }
}
