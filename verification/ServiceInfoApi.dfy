/** From configuration to ServiceInfo: the API server compiles the configuration into a command list
(serviceinfo-api-server/src/main.rs) and the owner server rewrites it for the device
(owner-onboarding-server/src/handlers.rs). */
module ServiceInfoApi {
  import opened Outcomes
  import opened ByteStrings
  import opened Hexadecimal
  import opened Crypto
  import opened ServiceInfos

  datatype FileSpec = FileSpec(path: string, contents: Bytes, permissions: Option<nat>)
  datatype CommandSpec = CommandSpec(command: string, args: seq<string>, mayFail: bool, returnStdout: bool, returnStderr: bool)
  datatype DiskSpec = DiskSpec(disk: string, pin: string, config: string, reencrypt: bool)
  datatype User = User(username: string, password: Option<string>, sshKeys: Option<seq<string>>)

  datatype Configuration = Configuration(
    user: Option<User>,
    files: Option<seq<FileSpec>>,
    commands: Option<seq<CommandSpec>>,
    disks: Option<seq<DiskSpec>>,
    reboot: Option<bool>)

  datatype Reply = Reply(user: Option<User>, extra: Option<seq<Triple>>, reboot: Option<bool>)

  type Digest = (HashType, Bytes) -> Bytes

  // ------------------------------------------------- compilation

  function FileCommands(h: Digest, f: FileSpec): seq<Triple> {
    [Triple(BinaryFile, "name", Text(f.path)), Triple(BinaryFile, "length", Number(|f.contents|))] +
    (if f.permissions.Some? then [Triple(BinaryFile, "mode", Number(f.permissions.value))] else []) +
    [Triple(BinaryFile, "data001|hex", Text(HexEncode(f.contents))),
     Triple(BinaryFile, "sha-384|hex", Text(HexEncode(h(Sha384, f.contents))))]
  }

  function Texts(ss: seq<string>): seq<Value> {
    if ss == [] then [] else [Text(ss[0])] + Texts(ss[1..])
  }

  function CommandCommands(c: CommandSpec): seq<Triple> {
    [Triple(Command, "command", Text(c.command)), Triple(Command, "args", Array(Texts(c.args))),
     Triple(Command, "may_fail", Bool(c.mayFail)), Triple(Command, "return_stdout", Bool(c.returnStdout)),
     Triple(Command, "return_stderr", Bool(c.returnStderr)), Triple(Command, "execute", Bool(true))]
  }

  function DiskCommands(k: DiskSpec): seq<Triple> {
    [Triple(DiskEncryptionClevis, "disk-label", Text(k.disk)), Triple(DiskEncryptionClevis, "pin", Text(k.pin)),
     Triple(DiskEncryptionClevis, "config", Text(k.config)), Triple(DiskEncryptionClevis, "reencrypt", Bool(k.reencrypt)),
     Triple(DiskEncryptionClevis, "execute", Null)]
  }

  function AllFileCommands(h: Digest, fs: seq<FileSpec>): seq<Triple> {
    if fs == [] then [] else AllFileCommands(h, fs[..|fs| - 1]) + FileCommands(h, fs[|fs| - 1])
  }

  function AllCommandCommands(cs: seq<CommandSpec>): seq<Triple> {
    if cs == [] then [] else AllCommandCommands(cs[..|cs| - 1]) + CommandCommands(cs[|cs| - 1])
  }

  function AllDiskCommands(ks: seq<DiskSpec>): seq<Triple> {
    if ks == [] then [] else AllDiskCommands(ks[..|ks| - 1]) + DiskCommands(ks[|ks| - 1])
  }

  function Activation(m: Module): Triple {
    Triple(m, "active", Bool(true))
  }

  /** The commands of one module, preceded by its activation if there are any. */
  function Group(m: Module, ts: seq<Triple>): seq<Triple> {
    if ts == [] then [] else [Activation(m)] + ts
  }

  /** The configured items that the device's modules allow. */
  function Files(cfg: Configuration, modules: set<Module>): seq<FileSpec> {
    if BinaryFile in modules && cfg.files.Some? then cfg.files.value else []
  }

  function Commands(cfg: Configuration, modules: set<Module>): seq<CommandSpec> {
    if Command in modules && cfg.commands.Some? then cfg.commands.value else []
  }

  function Disks(cfg: Configuration, modules: set<Module>): seq<DiskSpec> {
    if DiskEncryptionClevis in modules && cfg.disks.Some? then cfg.disks.value else []
  }

  function Compiled(h: Digest, cfg: Configuration, modules: set<Module>): seq<Triple> {
    Group(BinaryFile, AllFileCommands(h, Files(cfg, modules))) +
    Group(Command, AllCommandCommands(Commands(cfg, modules))) +
    Group(DiskEncryptionClevis, AllDiskCommands(Disks(cfg, modules)))
  }

  /** What the API server answers. */
  function Compile(h: Digest, cfg: Configuration, modules: set<Module>): Reply {
    var extra := Compiled(h, cfg, modules);
    Reply(if SSHKey in modules then cfg.user else None,
          if extra == [] then None else Some(extra),
          if Reboot in modules then cfg.reboot else None)
  }

  class ReplyBuilder {
    var enabled: set<Module>
    var extra: Option<seq<Triple>>

    /** The commands added so far. */
    function Added(): seq<Triple>
      reads this
    {
      if extra.None? then [] else extra.value
    }

    constructor ()
      ensures enabled == {} && extra == None
    {
      enabled, extra := {}, None;
    }

    /** `add_extra`: the first command of a module switches the module on. */
    method AddExtra(t: Triple)
      modifies this
      ensures enabled == old(enabled) + {t.mod} && extra.Some?
      ensures Added() == old(Added()) +
                         (if t.mod in old(enabled) then [] else [Activation(t.mod)]) + [t]
    {
      if extra.None? {
        extra := Some([]);
      }
      if t.mod !in enabled {
        enabled := enabled + {t.mod};
        extra := Some(extra.value + [Activation(t.mod)]);
      }
      extra := Some(extra.value + [t]);
    }

    /** What the builder holds: `before`, then the commands of `m`; `m` is on if it has any. */
    ghost predicate Holds(before: seq<Triple>, m: Module, ts: seq<Triple>)
      reads this
    {
      Added() == before + Group(m, ts) && (m in enabled <==> ts != []) && (extra.None? <==> Added() == [])
    }

    method AddNext(t: Triple, ghost before: seq<Triple>, ghost done: seq<Triple>)
      requires Holds(before, t.mod, done)
      modifies this
      ensures Holds(before, t.mod, done + [t]) && enabled == old(enabled) + {t.mod}
    {
      hide Group, Activation;
      GroupSnoc(before, t.mod, done, t);
      AddExtra(t);
    }

    /** The several calls made for one configured item. */
    method AddItem(m: Module, ts: seq<Triple>, ghost before: seq<Triple>, ghost done: seq<Triple>)
      requires ts != [] && forall i | 0 <= i < |ts| :: ts[i].mod == m
      requires Holds(before, m, done)
      modifies this
      ensures Holds(before, m, done + ts) && enabled == old(enabled) + {m}
    {
      hide Holds;
      assert done + ts[..0] == done;
      for i := 0 to |ts|
        invariant Holds(before, m, done + ts[..i])
        invariant enabled == if i == 0 then old(enabled) else old(enabled) + {m}
      {
        assert done + ts[..i + 1] == (done + ts[..i]) + [ts[i]];
        AddNext(ts[i], before, done + ts[..i]);
      }
      assert ts[..|ts|] == ts;
    }

    method AddFiles(h: Digest, files: seq<FileSpec>, ghost before: seq<Triple>)
      requires Holds(before, BinaryFile, [])
      modifies this
      ensures Holds(before, BinaryFile, AllFileCommands(h, files))
      ensures enabled <= old(enabled) + {BinaryFile}
    {
      hide FileCommands, Group, Holds;
      for i := 0 to |files|
        invariant Holds(before, BinaryFile, AllFileCommands(h, files[..i]))
        invariant enabled <= old(enabled) + {BinaryFile}
      {
        FileCommandsShape(h, files[i]);
        assert files[..i + 1][..i] == files[..i];
        AddItem(BinaryFile, FileCommands(h, files[i]), before, AllFileCommands(h, files[..i]));
      }
      assert files[..|files|] == files;
    }

    method AddCommands(commands: seq<CommandSpec>, ghost before: seq<Triple>)
      requires Holds(before, Command, [])
      modifies this
      ensures Holds(before, Command, AllCommandCommands(commands))
      ensures enabled <= old(enabled) + {Command}
    {
      hide CommandCommands, Group, Holds;
      for i := 0 to |commands|
        invariant Holds(before, Command, AllCommandCommands(commands[..i]))
        invariant enabled <= old(enabled) + {Command}
      {
        CommandCommandsShape(commands[i]);
        assert commands[..i + 1][..i] == commands[..i];
        AddItem(Command, CommandCommands(commands[i]), before, AllCommandCommands(commands[..i]));
      }
      assert commands[..|commands|] == commands;
    }

    method AddDisks(disks: seq<DiskSpec>, ghost before: seq<Triple>)
      requires Holds(before, DiskEncryptionClevis, [])
      modifies this
      ensures Holds(before, DiskEncryptionClevis, AllDiskCommands(disks))
      ensures enabled <= old(enabled) + {DiskEncryptionClevis}
    {
      hide DiskCommands, Group, Holds;
      for i := 0 to |disks|
        invariant Holds(before, DiskEncryptionClevis, AllDiskCommands(disks[..i]))
        invariant enabled <= old(enabled) + {DiskEncryptionClevis}
      {
        DiskCommandsShape(disks[i]);
        assert disks[..i + 1][..i] == disks[..i];
        AddItem(DiskEncryptionClevis, DiskCommands(disks[i]), before, AllDiskCommands(disks[..i]));
      }
      assert disks[..|disks|] == disks;
    }
  }

  lemma {:induction false} NoCommands(m: Module)
    ensures Group(m, []) == []
  {
  }

  lemma {:induction false} GroupSnoc(before: seq<Triple>, m: Module, ts: seq<Triple>, t: Triple)
    ensures before + Group(m, ts + [t]) ==
            before + Group(m, ts) + (if ts == [] then [Activation(m)] else []) + [t]
  {
  }

  lemma {:induction false} FileCommandsShape(h: Digest, f: FileSpec)
    ensures FileCommands(h, f) != [] && forall i | 0 <= i < |FileCommands(h, f)| :: FileCommands(h, f)[i].mod == BinaryFile
  {
  }

  lemma {:induction false} CommandCommandsShape(c: CommandSpec)
    ensures CommandCommands(c) != [] && forall i | 0 <= i < |CommandCommands(c)| :: CommandCommands(c)[i].mod == Command
  {
  }

  lemma {:induction false} DiskCommandsShape(k: DiskSpec)
    ensures DiskCommands(k) != [] && forall i | 0 <= i < |DiskCommands(k)| :: DiskCommands(k)[i].mod == DiskEncryptionClevis
  {
  }

  // ------------------------------------------------- what the list of modules decides

  /** The commands for one module. */
  function Of(ts: seq<Triple>, m: Module): seq<Triple> {
    if ts == [] then [] else (if ts[0].mod == m then [ts[0]] else []) + Of(ts[1..], m)
  }

  /** The commands of the reply. */
  function Extra(r: Reply): seq<Triple> {
    if r.extra.None? then [] else r.extra.value
  }

  lemma {:induction false} OfCons(ts: seq<Triple>, m: Module)
    requires ts != []
    ensures Of(ts, m) == (if ts[0].mod == m then [ts[0]] else []) + Of(ts[1..], m)
  {
  }

  lemma {:induction false} OfConcat(a: seq<Triple>, b: seq<Triple>, m: Module)
    ensures Of(a + b, m) == Of(a, m) + Of(b, m)
  {
    if a == [] {
      assert a + b == b;
    } else {
      OfCons(a + b, m);
      OfCons(a, m);
      assert (a + b)[0] == a[0] && (a + b)[1..] == a[1..] + b;
      OfConcat(a[1..], b, m);
      hide Of;
      var head, tail := if a[0].mod == m then [a[0]] else [], Of(a[1..], m);
      assert head + tail + Of(b, m) == head + (tail + Of(b, m));
    }
  }

  predicate AllFor(ts: seq<Triple>, m: Module) {
    forall i | 0 <= i < |ts| :: ts[i].mod == m
  }

  lemma {:induction false} OfOne(ts: seq<Triple>, m: Module, k: Module)
    requires AllFor(ts, k)
    ensures Of(ts, m) == if m == k then ts else []
  {
    if ts != [] {
      assert AllFor(ts[1..], k);
      OfOne(ts[1..], m, k);
      assert ts == [ts[0]] + ts[1..];
    }
  }

  lemma {:induction false} AllForModules(h: Digest, fs: seq<FileSpec>, cs: seq<CommandSpec>, ks: seq<DiskSpec>)
    ensures AllFor(AllFileCommands(h, fs), BinaryFile) && AllFor(AllCommandCommands(cs), Command)
    ensures AllFor(AllDiskCommands(ks), DiskEncryptionClevis)
    decreases |fs| + |cs| + |ks|
  {
    hide FileCommands, CommandCommands, DiskCommands;
    if fs != [] {
      FileCommandsShape(h, fs[|fs| - 1]);
      AllForModules(h, fs[..|fs| - 1], cs, ks);
    } else if cs != [] {
      CommandCommandsShape(cs[|cs| - 1]);
      AllForModules(h, fs, cs[..|cs| - 1], ks);
    } else if ks != [] {
      DiskCommandsShape(ks[|ks| - 1]);
      AllForModules(h, fs, cs, ks[..|ks| - 1]);
    }
  }

  /** What is compiled for a module: everything configured if the device has it, nothing otherwise. */
  function Wanted(h: Digest, cfg: Configuration, modules: set<Module>, m: Module): seq<Triple> {
    if m !in modules then []
    else if m == BinaryFile && cfg.files.Some? then Group(m, AllFileCommands(h, cfg.files.value))
    else if m == Command && cfg.commands.Some? then Group(m, AllCommandCommands(cfg.commands.value))
    else if m == DiskEncryptionClevis && cfg.disks.Some? then Group(m, AllDiskCommands(cfg.disks.value))
    else []
  }

  /** The reply, module by module: nothing for a module that the device lacks. */
  ghost predicate AnswersModules(h: Digest, cfg: Configuration, modules: set<Module>, r: Reply) {
    && (forall i | 0 <= i < |Extra(r)| :: Extra(r)[i].mod in modules)
    && (forall m: Module :: Of(Extra(r), m) == Wanted(h, cfg, modules, m))
    && Extra(r) == Of(Extra(r), BinaryFile) + Of(Extra(r), Command) + Of(Extra(r), DiskEncryptionClevis)
    && r.extra != Some([])
    && r.user == (if SSHKey in modules then cfg.user else None) && r.reboot == (if Reboot in modules then cfg.reboot else None)
  }

  lemma {:induction false} GroupFor(m: Module, ts: seq<Triple>)
    requires AllFor(ts, m)
    ensures AllFor(Group(m, ts), m)
  {
  }

  lemma {:induction false} OfParts(f: seq<Triple>, c: seq<Triple>, k: seq<Triple>, m: Module)
    requires AllFor(f, BinaryFile) && AllFor(c, Command) && AllFor(k, DiskEncryptionClevis)
    ensures Of(f + c + k, m) ==
            if m == BinaryFile then f else if m == Command then c else if m == DiskEncryptionClevis then k else []
  {
    hide AllFor, Of;
    OfConcat(f + c, k, m);
    OfConcat(f, c, m);
    OfOne(f, m, BinaryFile);
    OfOne(c, m, Command);
    OfOne(k, m, DiskEncryptionClevis);
  }

  /** The three parts of the reply. */
  lemma {:induction false} PartsWanted(h: Digest, cfg: Configuration, modules: set<Module>, m: Module)
    ensures
      var f := Group(BinaryFile, AllFileCommands(h, Files(cfg, modules)));
      var c := Group(Command, AllCommandCommands(Commands(cfg, modules)));
      var k := Group(DiskEncryptionClevis, AllDiskCommands(Disks(cfg, modules)));
      && Extra(Compile(h, cfg, modules)) == f + c + k
      && AllFor(f, BinaryFile) && AllFor(c, Command) && AllFor(k, DiskEncryptionClevis)
      && Wanted(h, cfg, modules, m) ==
         (if m == BinaryFile then f else if m == Command then c else if m == DiskEncryptionClevis then k else [])
  {
    AllForModules(h, Files(cfg, modules), Commands(cfg, modules), Disks(cfg, modules));
    GroupFor(BinaryFile, AllFileCommands(h, Files(cfg, modules)));
    GroupFor(Command, AllCommandCommands(Commands(cfg, modules)));
    GroupFor(DiskEncryptionClevis, AllDiskCommands(Disks(cfg, modules)));
    assert AllFileCommands(h, []) == [] && AllCommandCommands([]) == [] && AllDiskCommands([]) == [];
    hide AllFileCommands, AllCommandCommands, AllDiskCommands, AllFor;
  }

  lemma {:induction false} WantedIsAllowed(h: Digest, cfg: Configuration, modules: set<Module>, m: Module)
    ensures Wanted(h, cfg, modules, m) != [] ==> m in modules
  {
  }

  /** The device's list of modules decides what is compiled. */
  lemma {:induction false} ModulesDecide(h: Digest, cfg: Configuration, modules: set<Module>)
    ensures AnswersModules(h, cfg, modules, Compile(h, cfg, modules))
  {
    hide Wanted, Of, Group, AllFileCommands, AllCommandCommands, AllDiskCommands, Files, Commands, Disks;
    var f := Group(BinaryFile, AllFileCommands(h, Files(cfg, modules)));
    var c := Group(Command, AllCommandCommands(Commands(cfg, modules)));
    var k := Group(DiskEncryptionClevis, AllDiskCommands(Disks(cfg, modules)));
    var r := Compile(h, cfg, modules);
    PartsWanted(h, cfg, modules, BinaryFile);
    PartsWanted(h, cfg, modules, Command);
    PartsWanted(h, cfg, modules, DiskEncryptionClevis);
    WantedIsAllowed(h, cfg, modules, BinaryFile);
    WantedIsAllowed(h, cfg, modules, Command);
    WantedIsAllowed(h, cfg, modules, DiskEncryptionClevis);
    forall m: Module ensures Of(Extra(r), m) == Wanted(h, cfg, modules, m) {
      PartsWanted(h, cfg, modules, m);
      OfParts(f, c, k, m);
    }
    AllowedParts(f, c, k, modules);
  }

  lemma {:induction false} AllowedParts(f: seq<Triple>, c: seq<Triple>, k: seq<Triple>, modules: set<Module>)
    requires AllFor(f, BinaryFile) && AllFor(c, Command) && AllFor(k, DiskEncryptionClevis)
    requires (f != [] ==> BinaryFile in modules) && (c != [] ==> Command in modules) && (k != [] ==> DiskEncryptionClevis in modules)
    ensures forall i | 0 <= i < |f + c + k| :: (f + c + k)[i].mod in modules
  {
  }

  /** Each group after what was there before. */
  lemma {:induction false} ThreeGroups(h: Digest, cfg: Configuration, modules: set<Module>)
    ensures
      [] + Group(BinaryFile, AllFileCommands(h, Files(cfg, modules))) + Group(Command, AllCommandCommands(Commands(cfg, modules))) +
      Group(DiskEncryptionClevis, AllDiskCommands(Disks(cfg, modules))) == Compiled(h, cfg, modules)
  {
    hide AllFileCommands, AllCommandCommands, AllDiskCommands, Group, Files, Commands, Disks;
    var files := Group(BinaryFile, AllFileCommands(h, Files(cfg, modules)));
    assert [] + files == files;
  }

  /** `serviceinfo_handler`. */
  method ServiceInfoHandler(h: Digest, cfg: Configuration, modules: set<Module>) returns (r: Reply)
    ensures r == Compile(h, cfg, modules) && AnswersModules(h, cfg, modules, r)
  {
    ModulesDecide(h, cfg, modules);
    ThreeGroups(h, cfg, modules);
    hide AnswersModules, AllFileCommands, AllCommandCommands, AllDiskCommands, Group, Files, Commands, Disks, Compiled;
    NoCommands(BinaryFile);
    NoCommands(Command);
    NoCommands(DiskEncryptionClevis);
    var builder := new ReplyBuilder();
    builder.AddFiles(h, Files(cfg, modules), []);
    ghost var files := builder.Added();
    assert files + [] == files;
    builder.AddCommands(Commands(cfg, modules), files);
    ghost var commands := builder.Added();
    assert commands + [] == commands;
    builder.AddDisks(Disks(cfg, modules), commands);
    r := Reply(if SSHKey in modules then cfg.user else None, builder.extra, if Reboot in modules then cfg.reboot else None);
  }

  // ------------------------------------------------- the owner server's rewriting

  datatype RewriteError = NonHex | InvalidHex

  const HEX := "|hex"

  /** `str::replace("|hex", "")`. */
  function RemoveHex(s: string): string {
    if s == [] then []
    else if HEX <= s then RemoveHex(s[4..])
    else [s[0]] + RemoveHex(s[1..])
  }

  /** Parts with "|hex" between them. */
  function Woven(parts: seq<string>): string {
    if parts == [] then [] else if |parts| == 1 then parts[0] else parts[0] + "|hex" + Woven(parts[1..])
  }

  function Concatenated(parts: seq<string>): string {
    if parts == [] then [] else parts[0] + Concatenated(parts[1..])
  }

  predicate FreeOfHex(s: string) {
    forall i | 0 <= i <= |s| :: !("|hex" <= s[i..])
  }

  /** What is removed from a key: every "|hex" in it, and nothing else. */
  lemma {:induction false} RemovesEveryHex(s: string) returns (parts: seq<string>)
    ensures parts != [] && s == Woven(parts) && forall i | 0 <= i < |parts| :: FreeOfHex(parts[i])
    ensures RemoveHex(s) == Concatenated(parts)
  {
    if s == [] {
      parts := [[]];
      assert FreeOfHex([]);
    } else if HEX <= s {
      var others := RemovesEveryHex(s[4..]);
      parts := [[]] + others;
      assert parts[1..] == others && s == "|hex" + s[4..];
      assert FreeOfHex([]);
    } else {
      var others := RemovesEveryHex(s[1..]);
      parts := [[s[0]] + others[0]] + others[1..];
      LongerPart(s[0], others);
      assert s == [s[0]] + s[1..];
      OneMoreFree(s[0], others[0]);
    }
  }

  lemma {:induction false} LongerPart(c: char, parts: seq<string>)
    requires parts != []
    ensures
      var longer := [[c] + parts[0]] + parts[1..];
      && Woven(longer) == [c] + Woven(parts) && Concatenated(longer) == [c] + Concatenated(parts)
      && [c] + parts[0] <= [c] + Woven(parts)
  {
    var longer := [[c] + parts[0]] + parts[1..];
    assert longer[1..] == parts[1..] && longer[0] == [c] + parts[0];
    WovenFrom(longer);
    WovenFrom(parts);
    hide Woven, Concatenated;
    var p, w, k := parts[0], Woven(parts[1..]), Concatenated(parts[1..]);
    Regroup([c], p, "|hex", w);
    Regroup([c], p, [], k);
    assert p + [] == p && ([c] + p) + [] == [c] + p;
  }

  lemma {:induction false} WovenFrom(parts: seq<string>)
    requires parts != []
    ensures Woven(parts) == if |parts| == 1 then parts[0] else parts[0] + "|hex" + Woven(parts[1..])
    ensures Concatenated(parts) == parts[0] + Concatenated(parts[1..])
  {
  }

  lemma {:induction false} Regroup(a: string, b: string, c: string, d: string)
    ensures (a + b) + c + d == a + (b + c + d) && a + b <= a + (b + c + d)
  {
  }

  lemma {:induction false} OneMoreFree(c: char, part: string)
    requires FreeOfHex(part)
    ensures !("|hex" <= [c] + part) ==> FreeOfHex([c] + part)
  {
    var s := [c] + part;
    if !("|hex" <= s) {
      forall i | 0 <= i <= |s| ensures !("|hex" <= s[i..]) {
        if i > 0 {
          assert s[i..] == part[i - 1..];
        } else {
          assert s[0..] == s;
        }
      }
    }
  }

  predicate EndsWithHex(s: string) {
    |s| >= 4 && s[|s| - 4..] == HEX
  }

  function RewriteOne(t: Triple): Outcome<Triple, RewriteError> {
    if !EndsWithHex(t.key) then Ok(t)
    else if !t.value.Text? then Err(NonHex)
    else
      match HexDecode(t.value.text)
      case None => Err(InvalidHex)
      case Some(b) => Ok(Triple(t.mod, RemoveHex(t.key), Blob(b)))
  }

  function RewriteAll(ts: seq<Triple>): Outcome<seq<Triple>, RewriteError> {
    if ts == [] then Ok([]) else
    match RewriteOne(ts[0])
    case Err(e) => Err(e)
    case Panic(c) => Panic(c)
    case Ok(t) =>
      match RewriteAll(ts[1..])
      case Err(e) => Err(e)
      case Panic(c) => Panic(c)
      case Ok(others) => Ok([t] + others)
  }

  /** `join(";")`. */
  function JoinKeys(keys: seq<string>): string {
    if keys == [] then [] else if |keys| == 1 then keys[0] else keys[0] + ";" + JoinKeys(keys[1..])
  }

  function UserTriples(u: User): seq<Triple> {
    [Triple(SSHKey, "active", Bool(true)), Triple(SSHKey, "username", Text(u.username))] +
    (if u.password.Some? then [Triple(SSHKey, "password", Text(u.password.value))] else []) +
    (if u.sshKeys.Some? then [Triple(SSHKey, "sshkeys", Text(JoinKeys(u.sshKeys.value)))] else [])
  }

  function RebootTriples(b: bool): seq<Triple> {
    [Triple(Reboot, "active", Bool(true)), Triple(Reboot, "reboot", Bool(b))]
  }

  /** The messages for the device, in order. */
  function Messages(r: Reply): Outcome<seq<Triple>, RewriteError> {
    match RewriteAll(if r.extra.Some? then r.extra.value else [])
    case Err(e) => Err(e)
    case Panic(c) => Panic(c)
    case Ok(extra) =>
      Ok((if r.user.Some? then UserTriples(r.user.value) else []) + extra +
         (if r.reboot.Some? then RebootTriples(r.reboot.value) else []))
  }

  function Joined(done: seq<Triple>, r: Outcome<seq<Triple>, RewriteError>): Outcome<seq<Triple>, RewriteError> {
    if r.Ok? then Ok(done + r.value) else r
  }

  lemma {:induction false} RewriteStep(done: seq<Triple>, ts: seq<Triple>)
    requires ts != []
    ensures Joined(done, RewriteAll(ts)) ==
            if RewriteOne(ts[0]).Ok? then Joined(done + [RewriteOne(ts[0]).value], RewriteAll(ts[1..]))
            else RewriteOne(ts[0]).PropagateFailure()
  {
    hide RewriteOne;
    var others := RewriteAll(ts[1..]);
    if RewriteOne(ts[0]).Ok? && others.Ok? {
      var t := RewriteOne(ts[0]).value;
      assert done + ([t] + others.value) == (done + [t]) + others.value;
    }
  }

  /** The loop over the API server's commands. */
  method AddRewritten(c: ValueCodec, si: ServiceInfo, extra: seq<Triple>) returns (out: Outcome<ServiceInfo, RewriteError>)
    ensures RewriteAll(extra).Ok? ==> out == Ok(AddAll(c, si, RewriteAll(extra).value))
    ensures !RewriteAll(extra).Ok? ==> out == RewriteAll(extra).PropagateFailure()
  {
    hide RewriteOne, RewriteAll, Add;
    var r := si;
    ghost var done: seq<Triple> := [];
    assert extra[0..] == extra && (RewriteAll(extra).Ok? ==> [] + RewriteAll(extra).value == RewriteAll(extra).value);
    for i := 0 to |extra|
      invariant r == AddAll(c, si, done)
      invariant RewriteAll(extra) == Joined(done, RewriteAll(extra[i..]))
    {
      var t := RewriteOne(extra[i]);
      assert extra[i..][1..] == extra[i + 1..];
      RewriteStep(done, extra[i..]);
      if !t.Ok? {
        return t.PropagateFailure();
      }
      AddAllConcat(c, si, done, [t.value]);
      assert [t.value][1..] == [];
      r := Add(c, r, t.value);
      done := done + [t.value];
    }
    NothingToRewrite();
    assert extra[|extra|..] == [] && done + [] == done;
    out := Ok(r);
  }

  lemma {:induction false} NothingToRewrite()
    ensures RewriteAll([]) == Ok([])
  {
  }

  /** The second half of `perform_service_info`. */
  method PerformServiceInfo(c: ValueCodec, r: Reply) returns (out: Outcome<ServiceInfo, RewriteError>)
    ensures Messages(r).Ok? ==> out == Ok(AddAll(c, [], Messages(r).value))
    ensures !Messages(r).Ok? ==> out == Messages(r).PropagateFailure()
  {
    hide RewriteAll, AddAll, UserTriples, RebootTriples;
    var user := if r.user.Some? then UserTriples(r.user.value) else [];
    var extra := if r.extra.Some? then r.extra.value else [];
    var reboot := if r.reboot.Some? then RebootTriples(r.reboot.value) else [];
    var si := AddMany(c, [], user);
    var rewritten := AddRewritten(c, si, extra);
    if !rewritten.Ok? {
      return rewritten;
    }
    ghost var mid := RewriteAll(extra).value;
    AddAllConcat(c, [], user, mid);
    AddAllConcat(c, [], user + mid, reboot);
    si := AddMany(c, rewritten.value, reboot);
    out := Ok(si);
  }

  /** A sequence of `add` calls. */
  method AddMany(c: ValueCodec, si: ServiceInfo, ts: seq<Triple>) returns (r: ServiceInfo)
    ensures r == AddAll(c, si, ts)
  {
    hide Add;
    r := si;
    for i := 0 to |ts|
      invariant AddAll(c, r, ts[i..]) == AddAll(c, si, ts)
    {
      assert ts[i..][1..] == ts[i + 1..];
      r := Add(c, r, ts[i]);
    }
    assert ts[|ts|..] == [];
  }
}
