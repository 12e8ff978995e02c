/** Compiling, rewriting and interpreting a configuration performs exactly what it configures. */
module OnboardingEffects {
  import opened Outcomes
  import opened ByteStrings
  import opened Hexadecimal
  import opened Crypto
  import opened CborGrammar
  import opened ServiceInfos
  import opened ServiceInfoApi
  import opened DeviceInterpreter

  // ------------------------------------------------- what a configuration means

  /** A file the device can write: absolute path, a size the machine can hold, a 32-bit mode. */
  predicate Deployable(f: FileSpec) {
    Absolute(f.path) && |f.contents| <= MAX_ALLOC && (f.permissions.Some? ==> f.permissions.value < 0x1_0000_0000)
  }

  predicate AllDeployable(fs: seq<FileSpec>) {
    forall i | 0 <= i < |fs| :: Deployable(fs[i])
  }

  function FileEffect(d: Device, f: FileSpec): Effect
    requires Absolute(f.path)
  {
    WriteFile(DestinationPath(d, f.path), f.contents, if f.permissions.Some? then f.permissions.value else DEFAULT_MODE)
  }

  function FileEffects(d: Device, fs: seq<FileSpec>): seq<Effect>
    requires AllDeployable(fs)
  {
    if fs == [] then [] else FileEffects(d, fs[..|fs| - 1]) + [FileEffect(d, fs[|fs| - 1])]
  }

  function CommandEffect(c: CommandSpec): Effect {
    RunCommand(c.command, c.args, c.mayFail, c.returnStdout, c.returnStderr)
  }

  function CommandEffects(cs: seq<CommandSpec>): seq<Effect> {
    if cs == [] then [] else CommandEffects(cs[..|cs| - 1]) + [CommandEffect(cs[|cs| - 1])]
  }

  function DiskEffect(k: DiskSpec): Effect {
    EncryptDisk(k.disk, k.pin, k.config, k.reencrypt)
  }

  function DiskEffects(ks: seq<DiskSpec>): seq<Effect> {
    if ks == [] then [] else DiskEffects(ks[..|ks| - 1]) + [DiskEffect(ks[|ks| - 1])]
  }

  function UserEffects(u: User): seq<Effect> {
    (if u.password.Some? then [CreateUserWithPassword(u.username, u.password.value)] else []) +
    (if u.sshKeys.Some? then [CreateUser(u.username)] + InstallKeys(u.username, u.sshKeys.value) else [])
  }

  function ConfiguredUser(cfg: Configuration, modules: set<Module>): Option<User> {
    if SSHKey in modules then cfg.user else None
  }

  /** The configured effects before the login. */
  function Prepared(d: Device, cfg: Configuration, modules: set<Module>): seq<Effect>
    requires AllDeployable(Files(cfg, modules))
  {
    FileEffects(d, Files(cfg, modules)) + CommandEffects(Commands(cfg, modules)) + DiskEffects(Disks(cfg, modules))
  }

  /** The configured effects, in the order in which they have to happen. */
  function Configured(d: Device, cfg: Configuration, modules: set<Module>): seq<Effect>
    requires AllDeployable(Files(cfg, modules))
  {
    Prepared(d, cfg, modules) +
    (if ConfiguredUser(cfg, modules).Some? then UserEffects(ConfiguredUser(cfg, modules).value) else [])
  }

  function ConfiguredReboot(cfg: Configuration, modules: set<Module>): bool {
    Reboot in modules && cfg.reboot == Some(true)
  }

  /** Performing effects in order up to and including the first that fails. */
  function Execute(d: Device, log: seq<Effect>, es: seq<Effect>): (r: (seq<Effect>, bool))
    decreases |es|
  {
    if es == [] then (log, true)
    else if Survives(d, log, es[0]) then Execute(d, log + [es[0]], es[1..])
    else (log + [es[0]], false)
  }

  // ------------------------------------------------- joining and splitting keys

  lemma {:induction false} SplitHead(key: string, rest: string)
    requires ';' !in key
    ensures SplitKeys(key + ";" + rest) == [key] + SplitKeys(rest)
  {
    var s := key + ";" + rest;
    if key == [] {
      assert s[0] == ';' && s[1..] == rest;
    } else {
      assert s[0] == key[0] && s[1..] == key[1..] + ";" + rest;
      SplitHead(key[1..], rest);
      assert [key[0]] + key[1..] == key;
      assert ([key[1..]] + SplitKeys(rest))[1..] == SplitKeys(rest);
    }
  }

  lemma {:induction false} SplitOne(key: string)
    requires ';' !in key
    ensures SplitKeys(key) == [key]
  {
    if key != [] {
      SplitOne(key[1..]);
      assert [key[0]] + key[1..] == key;
    }
  }

  lemma {:induction false} PartsHaveNoSemicolon(s: string)
    ensures forall i | 0 <= i < |SplitKeys(s)| :: ';' !in SplitKeys(s)[i]
  {
    if s != [] {
      PartsHaveNoSemicolon(s[1..]);
      var others := SplitKeys(s[1..]);
      forall i | 0 <= i < |SplitKeys(s)| ensures ';' !in SplitKeys(s)[i] {
        if s[0] == ';' {
          assert i > 0 ==> SplitKeys(s)[i] == others[i - 1];
        } else {
          assert i > 0 ==> SplitKeys(s)[i] == others[1..][i - 1];
        }
      }
    }
  }

  /** The device recovers the configured keys exactly when there are some and none contains a semicolon. */
  lemma {:induction false} SplitInvertsJoin(keys: seq<string>)
    ensures SplitKeys(JoinKeys(keys)) == keys <==> keys != [] && forall k | k in keys :: ';' !in k
  {
    if keys != [] && forall k | k in keys :: ';' !in k {
      SplitsBack(keys);
    } else if SplitKeys(JoinKeys(keys)) == keys {
      PartsHaveNoSemicolon(JoinKeys(keys));
    }
  }

  lemma {:induction false} SplitsBack(keys: seq<string>)
    requires keys != [] && forall k | k in keys :: ';' !in k
    ensures SplitKeys(JoinKeys(keys)) == keys
  {
    hide SplitKeys;
    if |keys| == 1 {
      SplitOne(keys[0]);
    } else {
      SplitsBack(keys[1..]);
      SplitHead(keys[0], JoinKeys(keys[1..]));
      assert [keys[0]] + keys[1..] == keys;
    }
  }

  // ------------------------------------------------- performing effects

  lemma {:induction false} PerformAllExecutes(d: Device, st: State, es: seq<Effect>)
    ensures
      var (log, ok) := Execute(d, st.log, es);
      PerformAll(d, st, es) == if ok then Running(st.(log := log)) else Stopped(Report(log, Err(EffectFailed)))
    decreases |es|
  {
    hide Survives;
    if es != [] && Survives(d, st.log, es[0]) {
      PerformAllExecutes(d, st.(log := st.log + [es[0]]), es[1..]);
    }
  }

  lemma {:induction false} ExecuteConcat(d: Device, log: seq<Effect>, a: seq<Effect>, b: seq<Effect>)
    ensures
      var (mid, ok) := Execute(d, log, a);
      Execute(d, log, a + b) == if ok then Execute(d, mid, b) else (mid, false)
    decreases |a|
  {
    hide Survives;
    if a == [] {
      assert a + b == b;
    } else {
      assert (a + b)[1..] == a[1..] + b;
      if Survives(d, log, a[0]) {
        ExecuteConcat(d, log + [a[0]], a[1..], b);
      }
    }
  }

  /** Interpreting `ts` from `st` performs `es` and otherwise only makes `st` into `next`. */
  predicate Means(d: Device, st: State, ts: seq<Triple>, es: seq<Effect>, next: State) {
    var (log, ok) := Execute(d, st.log, es);
    Interp(d, st, ts) == if ok then Running(next.(log := log)) else Stopped(Report(log, Err(EffectFailed)))
  }

  lemma {:induction false} InterpConcat(d: Device, st: State, a: seq<Triple>, b: seq<Triple>)
    ensures Interp(d, st, a + b) ==
            match Interp(d, st, a)
            case Running(s) => Interp(d, s, b)
            case Stopped(report) => Stopped(report)
    decreases |a|
  {
    hide Step;
    if a == [] {
      assert a + b == b;
    } else {
      assert (a + b)[1..] == a[1..] + b;
      var next := Step(d, st, a[0]);
      if next.Running? {
        InterpConcat(d, next.st, a[1..], b);
      }
    }
  }

  /** Meanings compose. */
  lemma {:induction false} MeansConcat(d: Device, st: State, a: seq<Triple>, es: seq<Effect>, mid: State,
                                      b: seq<Triple>, fs: seq<Effect>, next: State)
    requires Means(d, st, a, es, mid)
    requires Means(d, mid.(log := Execute(d, st.log, es).0), b, fs, next)
    ensures Means(d, st, a + b, es + fs, next)
  {
    hide Interp, Execute;
    InterpConcat(d, st, a, b);
    ExecuteConcat(d, st.log, es, fs);
  }

  lemma {:induction false} MeansNothing(d: Device, st: State)
    ensures Means(d, st, [], [], st)
  {
  }

  /** A message that performs an effect. */
  lemma {:induction false} MeansEffect(d: Device, st: State, t: Triple, e: Effect, next: State)
    requires Step(d, st, t) == Perform(d, st, e, next)
    ensures Means(d, st, [t], [e], next)
  {
    hide Step, Survives;
    assert [t][1..] == [] && [e][1..] == [];
    var after := next.(log := st.log + [e]);
    assert Interp(d, after, []) == Running(after);
    assert Execute(d, st.log + [e], []) == (st.log + [e], true);
  }

  /** A message that only changes the state, then more. */
  lemma {:induction false} MeansCons(d: Device, st: State, t: Triple, mid: State, ts: seq<Triple>, es: seq<Effect>, next: State)
    requires Step(d, st, t) == Running(mid) && mid.log == st.log
    requires Means(d, mid, ts, es, next)
    ensures Means(d, st, [t] + ts, es, next)
  {
    hide Step, Execute;
    assert ([t] + ts)[1..] == ts;
  }

  // ------------------------------------------------- files

  /** A file's commands as the device receives them. */
  function FileMessages(h: Digest, f: FileSpec): seq<Triple> {
    [Triple(BinaryFile, "name", Text(f.path)), Triple(BinaryFile, "length", Number(|f.contents|))] +
    (if f.permissions.Some? then [Triple(BinaryFile, "mode", Number(f.permissions.value))] else []) +
    [Triple(BinaryFile, "data001", Blob(f.contents)), Triple(BinaryFile, "sha-384", Blob(h(Sha384, f.contents)))]
  }

  function AllFileMessages(h: Digest, fs: seq<FileSpec>): seq<Triple> {
    if fs == [] then [] else AllFileMessages(h, fs[..|fs| - 1]) + FileMessages(h, fs[|fs| - 1])
  }

  /** The hash of the libraries has the size of its type. */
  ghost predicate DigestLaw(h: Digest) {
    forall kind: HashType, b: Bytes :: |h(kind, b)| == kind.DigestSize()
  }

  /** The data and the digest of a named file with its length: the file is written. */
  lemma {:induction false} FileTail(d: Device, st: State, f: FileSpec)
    requires DigestLaw(d.digest) && Deployable(f) && BinaryFile in st.active
    requires st.file == FileInProgress(Some(f.path), Some(|f.contents|), Some([]), f.permissions)
    ensures Means(d, st, [Triple(BinaryFile, "data001", Blob(f.contents)),
                          Triple(BinaryFile, "sha-384", Blob(d.digest(Sha384, f.contents)))],
                  [FileEffect(d, f)], st.(file := NEW_FILE))
  {
    FileKeys();
    hide Classify, Means, DestinationPath, Survives;
    var t1 := Triple(BinaryFile, "data001", Blob(f.contents));
    var t2 := Triple(BinaryFile, "sha-384", Blob(d.digest(Sha384, f.contents)));
    var st1 := st.(file := st.file.(contents := Some(f.contents)));
    assert [] + f.contents == f.contents;
    assert Step(d, st, t1) == Running(st1);
    assert ShaType("384") == Some(Sha384) by { assert "384"[0] == '3' && "256"[0] == '2'; }
    assert Step(d, st1, t2) == Perform(d, st1, FileEffect(d, f), st1.(file := NEW_FILE));
    MeansEffect(d, st1, t2, FileEffect(d, f), st1.(file := NEW_FILE));
    assert st1.(file := NEW_FILE) == st.(file := NEW_FILE);
    MeansCons(d, st, t1, st1, [t2], [FileEffect(d, f)], st.(file := NEW_FILE));
    assert [t1] + [t2] == [t1, t2];
  }

  lemma {:induction false} OneFile(d: Device, st: State, f: FileSpec)
    requires DigestLaw(d.digest) && Deployable(f) && BinaryFile in st.active && st.file == NEW_FILE
    ensures Means(d, st, FileMessages(d.digest, f), [FileEffect(d, f)], st)
  {
    FileKeys();
    hide Classify, Means, DestinationPath, Survives, FileEffect;
    var e := [FileEffect(d, f)];
    var t1, t2 := Triple(BinaryFile, "name", Text(f.path)), Triple(BinaryFile, "length", Number(|f.contents|));
    var tail := [Triple(BinaryFile, "data001", Blob(f.contents)),
                 Triple(BinaryFile, "sha-384", Blob(d.digest(Sha384, f.contents)))];
    var st1 := st.(file := FileInProgress(Some(f.path), None, None, None));
    var st2 := st.(file := FileInProgress(Some(f.path), Some(|f.contents|), Some([]), None));
    assert st.(file := NEW_FILE) == st;
    assert |f.contents| % U64 == |f.contents|;
    assert Step(d, st, t1) == Running(st1) && Step(d, st1, t2) == Running(st2);
    var more := tail;
    if f.permissions.Some? {
      var t3 := Triple(BinaryFile, "mode", Number(f.permissions.value));
      var st3 := st.(file := st2.file.(mode := f.permissions));
      assert f.permissions.value % 0x1_0000_0000 == f.permissions.value;
      assert Step(d, st2, t3) == Running(st3);
      FileTail(d, st3, f);
      MeansCons(d, st2, t3, st3, tail, e, st);
      more := [t3] + tail;
    } else {
      FileTail(d, st2, f);
    }
    MeansCons(d, st1, t2, st2, more, e, st);
    MeansCons(d, st, t1, st1, [t2] + more, e, st);
    assert [t1] + ([t2] + more) == FileMessages(d.digest, f);
  }

  lemma {:induction false} ManyFiles(d: Device, st: State, fs: seq<FileSpec>)
    requires DigestLaw(d.digest) && AllDeployable(fs)
    requires fs != [] ==> BinaryFile in st.active && st.file == NEW_FILE
    ensures Means(d, st, AllFileMessages(d.digest, fs), FileEffects(d, fs), st)
    decreases |fs|
  {
    hide Means, FileMessages, FileEffect;
    if fs == [] {
      MeansNothing(d, st);
    } else {
      var before, f := fs[..|fs| - 1], fs[|fs| - 1];
      ManyFiles(d, st, before);
      var mid := st.(log := Execute(d, st.log, FileEffects(d, before)).0);
      OneFile(d, mid, f);
      MeansConcat(d, st, AllFileMessages(d.digest, before), FileEffects(d, before), st,
                  FileMessages(d.digest, f), [FileEffect(d, f)], mid);
      MeansLog(d, st, AllFileMessages(d.digest, fs), FileEffects(d, fs), mid);
    }
  }

  /** The log in the resulting state is immaterial: the meaning sets it. */
  lemma {:induction false} MeansLog(d: Device, st: State, ts: seq<Triple>, es: seq<Effect>, next: State)
    requires Means(d, st, ts, es, next)
    ensures forall log :: Means(d, st, ts, es, next.(log := log))
  {
    hide Interp, Execute;
  }

  // ------------------------------------------------- commands

  lemma {:induction false} TextsBack(ss: seq<string>)
    ensures TextArray(Texts(ss)) == Some(ss)
  {
    if ss != [] {
      TextsBack(ss[1..]);
      assert Texts(ss)[1..] == Texts(ss[1..]);
      assert [ss[0]] + ss[1..] == ss;
    }
  }

  /** The flags of a command and its execution. */
  lemma {:induction false} CommandTail(d: Device, st: State, c: CommandSpec)
    requires Command in st.active && st.command == CommandInProgress(Some(c.command), c.args, c.mayFail, false, false)
    ensures Means(d, st, [Triple(Command, "return_stdout", Bool(c.returnStdout)),
                          Triple(Command, "return_stderr", Bool(c.returnStderr)), Triple(Command, "execute", Bool(true))],
                  [CommandEffect(c)], st.(command := NEW_COMMAND))
  {
    OutputKeys();
    hide Classify, Means, Survives;
    var t1, t2 := Triple(Command, "return_stdout", Bool(c.returnStdout)), Triple(Command, "return_stderr", Bool(c.returnStderr));
    var t3 := Triple(Command, "execute", Bool(true));
    var st1 := st.(command := st.command.(returnStdout := c.returnStdout));
    var st2 := st.(command := st1.command.(returnStderr := c.returnStderr));
    assert Step(d, st, t1) == Running(st1) && Step(d, st1, t2) == Running(st2);
    assert Step(d, st2, t3) == Perform(d, st2, CommandEffect(c), st2.(command := NEW_COMMAND));
    MeansEffect(d, st2, t3, CommandEffect(c), st2.(command := NEW_COMMAND));
    assert st2.(command := NEW_COMMAND) == st.(command := NEW_COMMAND);
    MeansCons(d, st1, t2, st2, [t3], [CommandEffect(c)], st.(command := NEW_COMMAND));
    MeansCons(d, st, t1, st1, [t2] + [t3], [CommandEffect(c)], st.(command := NEW_COMMAND));
    assert [t1] + ([t2] + [t3]) == [t1, t2, t3];
  }

  lemma {:induction false} OneCommand(d: Device, st: State, c: CommandSpec)
    requires Command in st.active && st.command == NEW_COMMAND
    ensures Means(d, st, CommandCommands(c), [CommandEffect(c)], st)
  {
    CommandKeys();
    TextsBack(c.args);
    hide Classify, Means, Survives, TextArray, Texts;
    var t1, t2 := Triple(Command, "command", Text(c.command)), Triple(Command, "args", Array(Texts(c.args)));
    var t3 := Triple(Command, "may_fail", Bool(c.mayFail));
    var tail := [Triple(Command, "return_stdout", Bool(c.returnStdout)),
                 Triple(Command, "return_stderr", Bool(c.returnStderr)), Triple(Command, "execute", Bool(true))];
    var st1 := st.(command := NEW_COMMAND.(command := Some(c.command)));
    var st2 := st.(command := st1.command.(args := c.args));
    var st3 := st.(command := st2.command.(mayFail := c.mayFail));
    assert Step(d, st, t1) == Running(st1) && Step(d, st1, t2) == Running(st2) && Step(d, st2, t3) == Running(st3);
    CommandTail(d, st3, c);
    assert st3.(command := NEW_COMMAND) == st;
    MeansCons(d, st2, t3, st3, tail, [CommandEffect(c)], st);
    MeansCons(d, st1, t2, st2, [t3] + tail, [CommandEffect(c)], st);
    MeansCons(d, st, t1, st1, [t2] + ([t3] + tail), [CommandEffect(c)], st);
    assert [t1] + ([t2] + ([t3] + tail)) == CommandCommands(c);
  }

  lemma {:induction false} ManyCommands(d: Device, st: State, cs: seq<CommandSpec>)
    requires cs != [] ==> Command in st.active && st.command == NEW_COMMAND
    ensures Means(d, st, AllCommandCommands(cs), CommandEffects(cs), st)
    decreases |cs|
  {
    hide Means, CommandCommands, CommandEffect;
    if cs == [] {
      MeansNothing(d, st);
    } else {
      var before, c := cs[..|cs| - 1], cs[|cs| - 1];
      ManyCommands(d, st, before);
      var mid := st.(log := Execute(d, st.log, CommandEffects(before)).0);
      OneCommand(d, mid, c);
      MeansConcat(d, st, AllCommandCommands(before), CommandEffects(before), st, CommandCommands(c), [CommandEffect(c)], mid);
      MeansLog(d, st, AllCommandCommands(cs), CommandEffects(cs), mid);
    }
  }

  // ------------------------------------------------- disks

  lemma {:induction false} OneDisk(d: Device, st: State, k: DiskSpec)
    requires DiskEncryptionClevis in st.active && st.disk == NEW_DISK
    ensures Means(d, st, DiskCommands(k), [DiskEffect(k)], st)
  {
    DiskKeys();
    BindingKeys();
    OutputKeys();
    hide Classify, Means, Survives;
    var m := DiskEncryptionClevis;
    var t1, t2 := Triple(m, "disk-label", Text(k.disk)), Triple(m, "pin", Text(k.pin));
    var t3, t4, t5 := Triple(m, "config", Text(k.config)), Triple(m, "reencrypt", Bool(k.reencrypt)), Triple(m, "execute", Null);
    var st1 := st.(disk := NEW_DISK.(disk := Some(k.disk)));
    var st2 := st.(disk := st1.disk.(pin := Some(k.pin)));
    var st3 := st.(disk := st2.disk.(config := Some(k.config)));
    var st4 := st.(disk := st3.disk.(reencrypt := k.reencrypt));
    assert Step(d, st, t1) == Running(st1) && Step(d, st1, t2) == Running(st2);
    assert Step(d, st2, t3) == Running(st3) && Step(d, st3, t4) == Running(st4);
    assert Step(d, st4, t5) == Perform(d, st4, DiskEffect(k), st4.(disk := NEW_DISK));
    MeansEffect(d, st4, t5, DiskEffect(k), st4.(disk := NEW_DISK));
    assert st4.(disk := NEW_DISK) == st;
    MeansCons(d, st3, t4, st4, [t5], [DiskEffect(k)], st);
    MeansCons(d, st2, t3, st3, [t4] + [t5], [DiskEffect(k)], st);
    MeansCons(d, st1, t2, st2, [t3] + ([t4] + [t5]), [DiskEffect(k)], st);
    MeansCons(d, st, t1, st1, [t2] + ([t3] + ([t4] + [t5])), [DiskEffect(k)], st);
    assert [t1] + ([t2] + ([t3] + ([t4] + [t5]))) == DiskCommands(k);
  }

  lemma {:induction false} ManyDisks(d: Device, st: State, ks: seq<DiskSpec>)
    requires ks != [] ==> DiskEncryptionClevis in st.active && st.disk == NEW_DISK
    ensures Means(d, st, AllDiskCommands(ks), DiskEffects(ks), st)
    decreases |ks|
  {
    hide Means, DiskCommands, DiskEffect;
    if ks == [] {
      MeansNothing(d, st);
    } else {
      var before, k := ks[..|ks| - 1], ks[|ks| - 1];
      ManyDisks(d, st, before);
      var mid := st.(log := Execute(d, st.log, DiskEffects(before)).0);
      OneDisk(d, mid, k);
      MeansConcat(d, st, AllDiskCommands(before), DiskEffects(before), st, DiskCommands(k), [DiskEffect(k)], mid);
      MeansLog(d, st, AllDiskCommands(ks), DiskEffects(ks), mid);
    }
  }

  // ------------------------------------------------- rewriting

  lemma {:induction false} HexSuffixGoes(key: string)
    requires '|' !in key
    ensures EndsWithHex(key + HEX) && RemoveHex(key + HEX) == key
  {
    var s := key + HEX;
    assert s[|s| - 4..] == HEX;
    if key == [] {
      assert s == HEX && s[4..] == [];
    } else {
      assert s[0] == key[0] && s[0] != '|' && HEX[0] == '|';
      assert s[1..] == key[1..] + HEX;
      HexSuffixGoes(key[1..]);
      assert [key[0]] + key[1..] == key;
    }
  }

  lemma {:induction false} PlainKeysStay(key: string)
    requires '|' !in key
    ensures !EndsWithHex(key)
  {
    if |key| >= 4 {
      assert key[|key| - 4..][0] == key[|key| - 4] && HEX[0] == '|';
    }
  }

  lemma {:induction false} RewriteConcat(a: seq<Triple>, b: seq<Triple>, a': seq<Triple>, b': seq<Triple>)
    requires RewriteAll(a) == Ok(a') && RewriteAll(b) == Ok(b')
    ensures RewriteAll(a + b) == Ok(a' + b')
    decreases |a|
  {
    hide RewriteOne;
    if a == [] {
      assert a + b == b && a' + b' == b';
    } else {
      assert (a + b)[1..] == a[1..] + b;
      var t, others := RewriteOne(a[0]).value, RewriteAll(a[1..]).value;
      RewriteConcat(a[1..], b, others, b');
      assert [t] + (others + b') == a' + b';
    }
  }

  lemma {:induction false} RewritePlain(ts: seq<Triple>)
    requires forall i | 0 <= i < |ts| :: '|' !in ts[i].key
    ensures RewriteAll(ts) == Ok(ts)
    decreases |ts|
  {
    if ts != [] {
      hide EndsWithHex;
      PlainKeysStay(ts[0].key);
      RewritePlain(ts[1..]);
      assert [ts[0]] + ts[1..] == ts;
    }
  }

  lemma {:induction false} RewriteHex(m: Module, key: string, b: Bytes)
    requires '|' !in key
    ensures RewriteAll([Triple(m, key + HEX, Text(HexEncode(b)))]) == Ok([Triple(m, key, Blob(b))])
  {
    hide EndsWithHex, RemoveHex;
    HexSuffixGoes(key);
    HexRoundTrip(b);
    var t := Triple(m, key + HEX, Text(HexEncode(b)));
    assert [t][1..] == [];
    NothingToRewrite();
    assert RewriteOne(t) == Ok(Triple(m, key, Blob(b)));
    assert [Triple(m, key, Blob(b))] + [] == [Triple(m, key, Blob(b))];
  }

  lemma {:induction false} RewriteFile(h: Digest, f: FileSpec)
    ensures RewriteAll(FileCommands(h, f)) == Ok(FileMessages(h, f))
  {
    hide RewriteAll, HexEncode;
    var a := [Triple(BinaryFile, "name", Text(f.path)), Triple(BinaryFile, "length", Number(|f.contents|))] +
             (if f.permissions.Some? then [Triple(BinaryFile, "mode", Number(f.permissions.value))] else []);
    var x, y := [Triple(BinaryFile, "data001" + HEX, Text(HexEncode(f.contents)))],
                [Triple(BinaryFile, "sha-384" + HEX, Text(HexEncode(h(Sha384, f.contents))))];
    var x', y' := [Triple(BinaryFile, "data001", Blob(f.contents))], [Triple(BinaryFile, "sha-384", Blob(h(Sha384, f.contents)))];
    RewritePlain(a);
    RewriteHex(BinaryFile, "data001", f.contents);
    RewriteHex(BinaryFile, "sha-384", h(Sha384, f.contents));
    RewriteConcat(x, y, x', y');
    RewriteConcat(a, x + y, a, x' + y');
    assert "data001" + HEX == "data001|hex" && "sha-384" + HEX == "sha-384|hex";
    assert a + (x + y) == FileCommands(h, f) && a + (x' + y') == FileMessages(h, f);
  }

  lemma {:induction false} RewriteFiles(h: Digest, fs: seq<FileSpec>)
    ensures RewriteAll(AllFileCommands(h, fs)) == Ok(AllFileMessages(h, fs))
    decreases |fs|
  {
    if fs == [] {
    } else {
      hide RewriteAll, FileCommands, FileMessages;
      var before, f := fs[..|fs| - 1], fs[|fs| - 1];
      RewriteFiles(h, before);
      RewriteFile(h, f);
      RewriteConcat(AllFileCommands(h, before), FileCommands(h, f), AllFileMessages(h, before), FileMessages(h, f));
    }
  }

  predicate PlainKeys(ts: seq<Triple>) {
    forall i | 0 <= i < |ts| :: '|' !in ts[i].key
  }

  lemma {:induction false} CommandKeysArePlain(cs: seq<CommandSpec>)
    ensures PlainKeys(AllCommandCommands(cs))
    decreases |cs|
  {
    if cs != [] {
      CommandKeysArePlain(cs[..|cs| - 1]);
      assert PlainKeys(CommandCommands(cs[|cs| - 1]));
      hide CommandCommands;
    }
  }

  lemma {:induction false} DiskKeysArePlain(ks: seq<DiskSpec>)
    ensures PlainKeys(AllDiskCommands(ks))
    decreases |ks|
  {
    if ks != [] {
      DiskKeysArePlain(ks[..|ks| - 1]);
      assert PlainKeys(DiskCommands(ks[|ks| - 1]));
      hide DiskCommands;
    }
  }

  /** The compiled commands as the device receives them. */
  function CompiledMessages(h: Digest, cfg: Configuration, modules: set<Module>): seq<Triple> {
    Group(BinaryFile, AllFileMessages(h, Files(cfg, modules))) +
    Group(Command, AllCommandCommands(Commands(cfg, modules))) +
    Group(DiskEncryptionClevis, AllDiskCommands(Disks(cfg, modules)))
  }

  lemma {:induction false} RewriteGroup(m: Module, ts: seq<Triple>, ts': seq<Triple>)
    requires RewriteAll(ts) == Ok(ts') && (ts == [] <==> ts' == [])
    ensures RewriteAll(Group(m, ts)) == Ok(Group(m, ts'))
  {
    hide RewriteAll;
    var a := [Activation(m)];
    assert PlainKeys(a);
    RewritePlain(a);
    if ts != [] {
      RewriteConcat(a, ts, a, ts');
    } else {
      NothingToRewrite();
    }
  }

  lemma {:induction false} FilesBothWays(h: Digest, fs: seq<FileSpec>)
    ensures AllFileCommands(h, fs) == [] <==> fs == []
    ensures AllFileMessages(h, fs) == [] <==> fs == []
  {
  }

  lemma {:induction false} RewriteCompiled(h: Digest, cfg: Configuration, modules: set<Module>)
    ensures RewriteAll(Compiled(h, cfg, modules)) == Ok(CompiledMessages(h, cfg, modules))
  {
    hide RewriteAll, Group, AllFileCommands, AllFileMessages, AllCommandCommands, AllDiskCommands, Files, Commands, Disks;
    var fs, cs, ks := Files(cfg, modules), Commands(cfg, modules), Disks(cfg, modules);
    RewriteFiles(h, fs);
    FilesBothWays(h, fs);
    CommandKeysArePlain(cs);
    RewritePlain(AllCommandCommands(cs));
    DiskKeysArePlain(ks);
    RewritePlain(AllDiskCommands(ks));
    RewriteGroup(BinaryFile, AllFileCommands(h, fs), AllFileMessages(h, fs));
    RewriteGroup(Command, AllCommandCommands(cs), AllCommandCommands(cs));
    RewriteGroup(DiskEncryptionClevis, AllDiskCommands(ks), AllDiskCommands(ks));
    var a, a' := Group(BinaryFile, AllFileCommands(h, fs)), Group(BinaryFile, AllFileMessages(h, fs));
    var b, c := Group(Command, AllCommandCommands(cs)), Group(DiskEncryptionClevis, AllDiskCommands(ks));
    RewriteConcat(a, b, a', b);
    RewriteConcat(a + b, c, a' + b, c);
  }

  // ------------------------------------------------- activation, login, reboot

  lemma {:induction false} MeansGroup(d: Device, st: State, m: Module, ts: seq<Triple>, es: seq<Effect>)
    requires ts == [] ==> es == []
    requires ts != [] ==> Means(d, st.(active := st.active + {m}), ts, es, st.(active := st.active + {m}))
    ensures Means(d, st, Group(m, ts), es, st.(active := if ts == [] then st.active else st.active + {m}))
  {
    UserKeys();
    hide Means, Classify;
    if ts == [] {
      MeansNothing(d, st);
    } else {
      var on := st.(active := st.active + {m});
      assert Step(d, st, Activation(m)) == Running(on);
      MeansCons(d, st, Activation(m), on, ts, es, on);
    }
  }

  function LoginOf(u: User): Login {
    Login(Some(u.username), u.password, if u.sshKeys.Some? then Some(JoinKeys(u.sshKeys.value)) else None)
  }

  lemma {:induction false} MeansCredentials(d: Device, st: State, u: User)
    requires SSHKey in st.active && st.login == Login(Some(u.username), None, None)
    ensures Means(d, st,
      (if u.password.Some? then [Triple(SSHKey, "password", Text(u.password.value))] else []) +
      (if u.sshKeys.Some? then [Triple(SSHKey, "sshkeys", Text(JoinKeys(u.sshKeys.value)))] else []),
      [], st.(login := LoginOf(u)))
  {
    UserKeys();
    LoginKeys();
    hide Means, Classify, JoinKeys;
    var st1 := st.(login := st.login.(password := u.password));
    var last := st.(login := LoginOf(u));
    var keys := if u.sshKeys.Some? then [Triple(SSHKey, "sshkeys", Text(JoinKeys(u.sshKeys.value)))] else [];
    MeansNothing(d, last);
    if u.sshKeys.Some? {
      assert Step(d, st1, keys[0]) == Running(last);
      MeansCons(d, st1, keys[0], last, [], [], last);
      assert [keys[0]] + [] == keys;
    } else {
      assert st1 == last;
    }
    if u.password.Some? {
      var t := Triple(SSHKey, "password", Text(u.password.value));
      assert Step(d, st, t) == Running(st1);
      MeansCons(d, st, t, st1, keys, [], last);
    } else {
      assert st1 == st && [] + keys == keys;
    }
  }

  lemma {:induction false} MeansUser(d: Device, u: User)
    ensures Means(d, INIT, UserTriples(u), [], INIT.(active := {SSHKey}, login := LoginOf(u)))
  {
    UserKeys();
    hide Means, Classify, JoinKeys;
    var t1, t2 := Triple(SSHKey, "active", Bool(true)), Triple(SSHKey, "username", Text(u.username));
    var more := (if u.password.Some? then [Triple(SSHKey, "password", Text(u.password.value))] else []) +
                (if u.sshKeys.Some? then [Triple(SSHKey, "sshkeys", Text(JoinKeys(u.sshKeys.value)))] else []);
    var st1 := INIT.(active := {SSHKey});
    var st2 := st1.(login := Login(Some(u.username), None, None));
    assert {} + {SSHKey} == {SSHKey};
    assert Step(d, INIT, t1) == Running(st1) && Step(d, st1, t2) == Running(st2);
    MeansCredentials(d, st2, u);
    var last := INIT.(active := {SSHKey}, login := LoginOf(u));
    assert st2.(login := LoginOf(u)) == last;
    MeansCons(d, st1, t2, st2, more, [], last);
    MeansCons(d, INIT, t1, st1, [t2] + more, [], last);
    assert [t1] + ([t2] + more) == UserTriples(u);
  }

  lemma {:induction false} MeansReboot(d: Device, st: State, b: bool)
    ensures Means(d, st, RebootTriples(b), [], st.(active := st.active + {Reboot}, reboot := b))
  {
    UserKeys();
    LoginKeys();
    hide Means, Classify;
    var t1, t2 := Triple(Reboot, "active", Bool(true)), Triple(Reboot, "reboot", Bool(b));
    var st1 := st.(active := st.active + {Reboot});
    var st2 := st1.(reboot := b);
    assert Step(d, st, t1) == Running(st1) && Step(d, st1, t2) == Running(st2);
    MeansNothing(d, st2);
    MeansCons(d, st1, t2, st2, [], [], st2);
    MeansCons(d, st, t1, st1, [t2] + [], [], st2);
    assert [t1] + ([t2] + []) == RebootTriples(b);
  }

  // ------------------------------------------------- the whole pipeline

  /** A login the device can set up: a password or at least one key, and no key with a semicolon. */
  predicate Usable(u: User) {
    && (u.password.Some? || u.sshKeys.Some?)
    && (u.sshKeys.Some? ==> u.sshKeys.value != [] && forall k | k in u.sshKeys.value :: ';' !in k)
  }

  predicate Applicable(cfg: Configuration, modules: set<Module>) {
    && AllDeployable(Files(cfg, modules))
    && (ConfiguredUser(cfg, modules).Some? ==> Usable(ConfiguredUser(cfg, modules).value))
  }

  lemma {:induction false} EmptyBothWays(cs: seq<CommandSpec>, ks: seq<DiskSpec>)
    ensures AllCommandCommands(cs) == [] <==> cs == []
    ensures AllDiskCommands(ks) == [] <==> ks == []
  {
  }

  /** Files, commands and disks, from any state with nothing in progress. */
  lemma {:induction false} MeansCompiled(d: Device, st: State, cfg: Configuration, modules: set<Module>)
    requires DigestLaw(d.digest) && AllDeployable(Files(cfg, modules))
    requires st.file == NEW_FILE && st.command == NEW_COMMAND && st.disk == NEW_DISK
    ensures
      var a1 := if Files(cfg, modules) == [] then st.active else st.active + {BinaryFile};
      var a2 := if Commands(cfg, modules) == [] then a1 else a1 + {Command};
      Means(d, st, CompiledMessages(d.digest, cfg, modules),
            FileEffects(d, Files(cfg, modules)) + CommandEffects(Commands(cfg, modules)) + DiskEffects(Disks(cfg, modules)),
            st.(active := if Disks(cfg, modules) == [] then a2 else a2 + {DiskEncryptionClevis}))
  {
    var fs, cs, ks := Files(cfg, modules), Commands(cfg, modules), Disks(cfg, modules);
    FilesBothWays(d.digest, fs);
    EmptyBothWays(cs, ks);
    var fe, ce, ke := FileEffects(d, fs), CommandEffects(cs), DiskEffects(ks);
    assert (fs == [] ==> fe == []) && (cs == [] ==> ce == []) && (ks == [] ==> ke == []);
    hide Means, Group, FileEffects, CommandEffects, DiskEffects, AllFileMessages, AllCommandCommands, AllDiskCommands,
         Files, Commands, Disks, Execute;
    var ft, ct, kt := AllFileMessages(d.digest, fs), AllCommandCommands(cs), AllDiskCommands(ks);
    var gf, gc, gk := Group(BinaryFile, ft), Group(Command, ct), Group(DiskEncryptionClevis, kt);
    ManyFiles(d, st.(active := st.active + {BinaryFile}), fs);
    MeansGroup(d, st, BinaryFile, ft, fe);
    var st1 := st.(active := if fs == [] then st.active else st.active + {BinaryFile});
    var st1' := st1.(log := Execute(d, st.log, fe).0);
    ManyCommands(d, st1'.(active := st1'.active + {Command}), cs);
    MeansGroup(d, st1', Command, ct, ce);
    var st2 := st1'.(active := if cs == [] then st1'.active else st1'.active + {Command});
    MeansConcat(d, st, gf, fe, st1, gc, ce, st2);
    var st2' := st2.(log := Execute(d, st.log, fe + ce).0);
    ManyDisks(d, st2'.(active := st2'.active + {DiskEncryptionClevis}), ks);
    MeansGroup(d, st2', DiskEncryptionClevis, kt, ke);
    var st3 := st2'.(active := if ks == [] then st2'.active else st2'.active + {DiskEncryptionClevis});
    MeansConcat(d, st, gf + gc, fe + ce, st2, gk, ke, st3);
    MeansLog(d, st, gf + gc + gk, fe + ce + ke, st3);
    assert st3.(log := st.log) == st.(active := st3.active);
  }

  /** What the device makes of a login: the keys are those of the joined text, cut at semicolons. */
  function ReceivedEffects(u: User): seq<Effect> {
    LoginEffects(u.username, LoginOf(u))
  }

  /** A login with neither a password nor keys. */
  predicate NoCredential(user: Option<User>) {
    user.Some? && user.value.password.None? && user.value.sshKeys.None?
  }

  /** The login is set up from what the messages carried, and nothing else remains to do. */
  lemma {:induction false} FinishMeans(d: Device, st: State, user: Option<User>)
    requires user.Some? ==> st.login == LoginOf(user.value)
    requires (SSHKey in st.active <==> user.Some?) && SubscriptionManager !in st.active
    ensures NoCredential(user) ==> Finish(d, st) == Report(st.log, Err(CredentialMissing))
    ensures !NoCredential(user) ==>
      var (log, ok) := Execute(d, st.log, if user.Some? then ReceivedEffects(user.value) else []);
      Finish(d, st) == Report(log, if ok then Ok(st.reboot) else Err(EffectFailed))
  {
    hide PerformAll, SplitKeys, JoinKeys, LoginEffects;
    if user.Some? {
      PerformAllExecutes(d, st, ReceivedEffects(user.value));
    }
  }

  lemma {:induction false} InstalledKeysDiffer(user: string, a: seq<string>, b: seq<string>)
    requires InstallKeys(user, a) == InstallKeys(user, b)
    ensures a == b
  {
    forall i | 0 <= i < |a| ensures i < |b| && a[i] == b[i] {
      assert InstallKeys(user, a)[i] == InstallKeys(user, b)[i];
    }
  }

  /** The device does what was configured for a login exactly if the login is usable. */
  lemma {:induction false} ReceivedIffUsable(u: User)
    requires !NoCredential(Some(u))
    ensures ReceivedEffects(u) == UserEffects(u) <==> Usable(u)
  {
    hide SplitKeys, JoinKeys, InstallKeys;
    if u.sshKeys.Some? {
      var keys := u.sshKeys.value;
      var received := SplitKeys(JoinKeys(keys));
      SplitInvertsJoin(keys);
      if ReceivedEffects(u) == UserEffects(u) {
        var first := (if u.password.Some? then [CreateUserWithPassword(u.username, u.password.value)] else []) + [CreateUser(u.username)];
        assert ReceivedEffects(u) == first + InstallKeys(u.username, received);
        assert UserEffects(u) == first + InstallKeys(u.username, keys);
        assert InstallKeys(u.username, received) == ReceivedEffects(u)[|first|..] == UserEffects(u)[|first|..];
        InstalledKeysDiffer(u.username, received, keys);
      }
    }
  }

  /** The messages that reach the device. */
  function Delivered(h: Digest, cfg: Configuration, modules: set<Module>): seq<Triple> {
    var user := ConfiguredUser(cfg, modules);
    (if user.Some? then UserTriples(user.value) else []) + CompiledMessages(h, cfg, modules) +
    (if Reboot in modules && cfg.reboot.Some? then RebootTriples(cfg.reboot.value) else [])
  }

  lemma {:induction false} MessagesOfCompiled(h: Digest, cfg: Configuration, modules: set<Module>)
    ensures Messages(Compile(h, cfg, modules)) == Ok(Delivered(h, cfg, modules))
  {
    hide Compiled, CompiledMessages, RewriteAll, UserTriples, RebootTriples;
    RewriteCompiled(h, cfg, modules);
    NothingToRewrite();
  }

  lemma {:induction false} MeansDelivered(d: Device, cfg: Configuration, modules: set<Module>) returns (last: State)
    requires DigestLaw(d.digest) && AllDeployable(Files(cfg, modules))
    ensures Means(d, INIT, Delivered(d.digest, cfg, modules),
                  FileEffects(d, Files(cfg, modules)) + CommandEffects(Commands(cfg, modules)) + DiskEffects(Disks(cfg, modules)),
                  last)
    ensures last.reboot == ConfiguredReboot(cfg, modules)
    ensures (SSHKey in last.active <==> ConfiguredUser(cfg, modules).Some?) && SubscriptionManager !in last.active
    ensures ConfiguredUser(cfg, modules).Some? ==> last.login == LoginOf(ConfiguredUser(cfg, modules).value)
  {
    hide Means, CompiledMessages, UserTriples, RebootTriples, FileEffects, CommandEffects, DiskEffects, Files, Commands, Disks;
    var user := ConfiguredUser(cfg, modules);
    var es := FileEffects(d, Files(cfg, modules)) + CommandEffects(Commands(cfg, modules)) + DiskEffects(Disks(cfg, modules));
    var ut := if user.Some? then UserTriples(user.value) else [];
    var rt := if Reboot in modules && cfg.reboot.Some? then RebootTriples(cfg.reboot.value) else [];
    var ct := CompiledMessages(d.digest, cfg, modules);
    var st1 := if user.Some? then INIT.(active := {SSHKey}, login := LoginOf(user.value)) else INIT;
    if user.Some? {
      MeansUser(d, user.value);
    } else {
      MeansNothing(d, INIT);
    }
    assert Execute(d, INIT.log, []) == ([], true) && st1.(log := []) == st1;
    MeansCompiled(d, st1, cfg, modules);
    var a1 := if Files(cfg, modules) == [] then st1.active else st1.active + {BinaryFile};
    var a2 := if Commands(cfg, modules) == [] then a1 else a1 + {Command};
    var st2 := st1.(active := if Disks(cfg, modules) == [] then a2 else a2 + {DiskEncryptionClevis});
    MeansConcat(d, INIT, ut, [], st1, ct, es, st2);
    assert [] + es == es;
    var st2' := st2.(log := Execute(d, INIT.log, es).0);
    if rt != [] {
      MeansReboot(d, st2', cfg.reboot.value);
      last := st2'.(active := st2'.active + {Reboot}, reboot := cfg.reboot.value);
    } else {
      MeansNothing(d, st2');
      last := st2';
      RebootIsNotSilent(cfg, modules);
    }
    MeansConcat(d, INIT, ut + ct, es, st2, rt, [], last);
    assert es + [] == es;
  }

  lemma {:induction false} RebootIsNotSilent(cfg: Configuration, modules: set<Module>)
    ensures Reboot in modules && cfg.reboot.Some? ==> RebootTriples(cfg.reboot.value) != []
  {
  }

  lemma {:induction false} DeliverableConcat(a: seq<Triple>, b: seq<Triple>)
    requires Deliverable(a) && Deliverable(b)
    ensures Deliverable(a + b)
  {
    hide Addressable, Spellable;
  }

  lemma {:induction false} DeliverableGroup(m: Module, ts: seq<Triple>)
    requires !m.Unsupported? && Deliverable(ts)
    ensures Deliverable(Group(m, ts))
  {
    KnownIsAddressable(m);
    assert Deliverable([Activation(m)]);
    DeliverableConcat([Activation(m)], ts);
    hide Addressable, Spellable;
  }

  lemma {:induction false} DeliverableLogin(u: User)
    ensures Deliverable(UserTriples(u))
  {
    KnownIsAddressable(SSHKey);
    hide Addressable, JoinKeys;
  }

  lemma {:induction false} DeliverableReboot(b: bool)
    ensures Deliverable(RebootTriples(b))
  {
    KnownIsAddressable(Reboot);
    hide Addressable;
  }

  lemma {:induction false} AllDelivered(h: Digest, cfg: Configuration, modules: set<Module>)
    requires AllDeployable(Files(cfg, modules))
    ensures Deliverable(Delivered(h, cfg, modules))
  {
    hide Files, Commands, Disks, Deliverable, AllFileMessages, AllCommandCommands, AllDiskCommands, Group, UserTriples, RebootTriples;
    assert Deliverable([]) by { NothingDeliverable(); }
    DeliverableFiles(h, Files(cfg, modules));
    DeliverableCommands(Commands(cfg, modules));
    DeliverableDisks(Disks(cfg, modules));
    var user := ConfiguredUser(cfg, modules);
    if user.Some? {
      DeliverableLogin(user.value);
    }
    if cfg.reboot.Some? {
      DeliverableReboot(cfg.reboot.value);
    }
    var f := Group(BinaryFile, AllFileMessages(h, Files(cfg, modules)));
    var c := Group(Command, AllCommandCommands(Commands(cfg, modules)));
    var k := Group(DiskEncryptionClevis, AllDiskCommands(Disks(cfg, modules)));
    DeliverableGroup(BinaryFile, AllFileMessages(h, Files(cfg, modules)));
    DeliverableGroup(Command, AllCommandCommands(Commands(cfg, modules)));
    DeliverableGroup(DiskEncryptionClevis, AllDiskCommands(Disks(cfg, modules)));
    DeliverableConcat(f, c);
    DeliverableConcat(f + c, k);
    assert CompiledMessages(h, cfg, modules) == f + c + k;
    var ut := if user.Some? then UserTriples(user.value) else [];
    DeliverableConcat(ut, f + c + k);
    DeliverableConcat(ut + (f + c + k), if Reboot in modules && cfg.reboot.Some? then RebootTriples(cfg.reboot.value) else []);
  }

  lemma {:induction false} NothingDeliverable()
    ensures Deliverable([])
  {
  }

  lemma {:induction false} DeliverableFiles(h: Digest, fs: seq<FileSpec>)
    requires AllDeployable(fs)
    ensures Deliverable(AllFileMessages(h, fs))
    decreases |fs|
  {
    hide Addressable;
    if fs != [] {
      KnownIsAddressable(BinaryFile);
      assert Deployable(fs[|fs| - 1]);
      DeliverableFiles(h, fs[..|fs| - 1]);
      assert Deliverable(FileMessages(h, fs[|fs| - 1]));
      hide FileMessages;
    }
  }

  lemma {:induction false} TextsSpellable(ss: seq<string>)
    ensures forall i | 0 <= i < |Texts(ss)| :: Spellable(Texts(ss)[i])
  {
    if ss != [] {
      TextsSpellable(ss[1..]);
    }
  }

  lemma {:induction false} DeliverableCommands(cs: seq<CommandSpec>)
    ensures Deliverable(AllCommandCommands(cs))
    decreases |cs|
  {
    hide Addressable, Texts;
    if cs != [] {
      KnownIsAddressable(Command);
      TextsSpellable(cs[|cs| - 1].args);
      DeliverableCommands(cs[..|cs| - 1]);
      assert Deliverable(CommandCommands(cs[|cs| - 1]));
      hide CommandCommands;
    }
  }

  lemma {:induction false} DeliverableDisks(ks: seq<DiskSpec>)
    ensures Deliverable(AllDiskCommands(ks))
    decreases |ks|
  {
    hide Addressable;
    if ks != [] {
      KnownIsAddressable(DiskEncryptionClevis);
      DeliverableDisks(ks[..|ks| - 1]);
      assert Deliverable(DiskCommands(ks[|ks| - 1]));
      hide DiskCommands;
    }
  }

  /** What reaches the device. */
  function Transmitted(d: Device, cfg: Configuration, modules: set<Module>): ServiceInfo
    requires Messages(Compile(d.digest, cfg, modules)).Ok?
  {
    AddAll(d.codec, [], Messages(Compile(d.digest, cfg, modules)).value)
  }

  /** Whatever the login is: compiling, rewriting and interpreting performs the configured files,
      commands and disks in order up to the first that fails; then a login without credentials is
      an error, and any other is set up with the keys as the device cuts them. */
  lemma {:induction false} EveryConfiguration(d: Device, cfg: Configuration, modules: set<Module>)
    requires ValueLaw(d.codec) && DigestLaw(d.digest) && AllDeployable(Files(cfg, modules))
    ensures Messages(Compile(d.digest, cfg, modules)).Ok?
    ensures
      var user := ConfiguredUser(cfg, modules);
      var (before, prepared) := Execute(d, [], Prepared(d, cfg, modules));
      var (log, ok) := Execute(d, before, if user.Some? then ReceivedEffects(user.value) else []);
      Process(d, Transmitted(d, cfg, modules)) ==
        if !prepared then Report(before, Err(EffectFailed))
        else if NoCredential(user) then Report(before, Err(CredentialMissing))
        else Report(log, if ok then Ok(ConfiguredReboot(cfg, modules)) else Err(EffectFailed))
  {
    hide Messages, Compile, AddAll, Triples, Delivered, Interp, Finish, Execute, ReceivedEffects, ConfiguredUser,
         FileEffects, CommandEffects, DiskEffects, Files, Commands, Disks, ConfiguredReboot, Deliverable, NoCredential;
    MessagesOfCompiled(d.digest, cfg, modules);
    var ts := Delivered(d.digest, cfg, modules);
    AllDelivered(d.digest, cfg, modules);
    NoTriples(d.codec);
    TriplesOfAdded(d.codec, [], ts);
    assert [] + ts == ts;
    var last := MeansDelivered(d, cfg, modules);
    var (before, prepared) := Execute(d, [], Prepared(d, cfg, modules));
    if prepared {
      FinishMeans(d, last.(log := before), ConfiguredUser(cfg, modules));
    }
  }

  /** The main result: for every applicable configuration, compiling it, rewriting it and
      interpreting it on the device performs exactly the configured effects, in order, up to the
      first that fails; then, and only then, onboarding fails. In particular no message is refused
      for a module that is not active. */
  lemma {:induction false} ConfigurationTakesEffect(d: Device, cfg: Configuration, modules: set<Module>)
    requires ValueLaw(d.codec) && DigestLaw(d.digest) && Applicable(cfg, modules)
    ensures Messages(Compile(d.digest, cfg, modules)).Ok?
    ensures
      var (log, ok) := Execute(d, [], Configured(d, cfg, modules));
      Process(d, Transmitted(d, cfg, modules)) == Report(log, if ok then Ok(ConfiguredReboot(cfg, modules)) else Err(EffectFailed))
  {
    EveryConfiguration(d, cfg, modules);
    var user := ConfiguredUser(cfg, modules);
    if user.Some? {
      ReceivedIffUsable(user.value);
    }
    hide Process, Execute, Transmitted, UserEffects, ReceivedEffects, ConfiguredReboot, FileEffects, CommandEffects, DiskEffects;
    ExecuteConcat(d, [], Prepared(d, cfg, modules), if user.Some? then UserEffects(user.value) else []);
  }

  /** A machine on which every effect works. */
  ghost predicate Flawless(d: Device) {
    forall log: seq<Effect>, e: Effect :: Survives(d, log, e)
  }

  lemma {:induction false} FlawlessExecutes(d: Device, log: seq<Effect>, es: seq<Effect>)
    requires Flawless(d)
    ensures Execute(d, log, es) == (log + es, true)
    decreases |es|
  {
    hide Survives;
    if es != [] {
      FlawlessExecutes(d, log + [es[0]], es[1..]);
      assert log + [es[0]] + es[1..] == log + es;
    } else {
      assert log + [] == log;
    }
  }

  /** The exact condition on the login: where every effect works, the device does what was configured,
      and reports success, if and only if the configured login is usable. */
  lemma {:induction false} TakesEffectIffUsable(d: Device, cfg: Configuration, modules: set<Module>)
    requires ValueLaw(d.codec) && DigestLaw(d.digest) && AllDeployable(Files(cfg, modules)) && Flawless(d)
    ensures Messages(Compile(d.digest, cfg, modules)).Ok?
    ensures
      Process(d, Transmitted(d, cfg, modules)) == Report(Configured(d, cfg, modules), Ok(ConfiguredReboot(cfg, modules)))
      <==> (ConfiguredUser(cfg, modules).Some? ==> Usable(ConfiguredUser(cfg, modules).value))
  {
    EveryConfiguration(d, cfg, modules);
    var user := ConfiguredUser(cfg, modules);
    var es := Prepared(d, cfg, modules);
    var received := if user.Some? then ReceivedEffects(user.value) else [];
    FlawlessExecutes(d, [], es);
    FlawlessExecutes(d, es, received);
    if user.Some? && !NoCredential(user) {
      ReceivedIffUsable(user.value);
    }
    hide Process, Execute, Transmitted, ReceivedEffects, ConfiguredReboot, FileEffects, CommandEffects, DiskEffects, Flawless;
    assert [] + es == es;
    var configured := if user.Some? then UserEffects(user.value) else [];
    assert Configured(d, cfg, modules) == es + configured;
    assert es + received == es + configured ==> received == (es + received)[|es|..] == (es + configured)[|es|..] == configured;
  }

  lemma {:induction false} NoTriples(c: ValueCodec)
    ensures Triples(c, []) == []
  {
  }
}
