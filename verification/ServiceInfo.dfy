/** ServiceInfo on the wire: data-formats/src/types.rs, data-formats/src/constants/serviceinfo_names.rs. */
module ServiceInfos {
  import opened Outcomes
  import opened ByteStrings
  import opened CborGrammar

  datatype Module =
    | DevMod | SSHKey | BinaryFile | Command | Reboot | DiskEncryptionClevis | SubscriptionManager
    | Unsupported(name: string)

  /** The printed name of a module. */
  function Name(m: Module): string {
    match m
    case DevMod => "devmod"
    case SSHKey => "org.fedoraiot.sshkey"
    case BinaryFile => "org.fedoraiot.binaryfile"
    case Command => "org.fedoraiot.command"
    case Reboot => "org.fedoraiot.reboot"
    case DiskEncryptionClevis => "org.fedoraiot.diskencryption-clevis"
    case SubscriptionManager => "com.redhat.subscriptionmanager"
    case Unsupported(name) => name
  }

  function ParseModule(s: string): Module {
    if s == "org.fedoraiot.binaryfile" then BinaryFile
    else if s == "org.fedoraiot.command" then Command
    else if s == "org.fedoraiot.sshkey" then SSHKey
    else if s == "org.fedoraiot.diskencryption-clevis" then DiskEncryptionClevis
    else if s == "org.fedoraiot.reboot" then Reboot
    else if s == "com.redhat.subscriptionmanager" then SubscriptionManager
    else if s == "devmod" then DevMod
    else Unsupported(s)
  }

  /** CBOR values as the program looks at them. */
  datatype Value =
    | Bool(flag: bool)
    | Text(text: string)
    | Blob(blob: Bytes)
    | Number(number: int)
    | Array(elements: seq<Value>)
    | Null
    | OtherValue

  datatype ValueCodec = ValueCodec(encode: Value -> Bytes, decode: Bytes -> Option<Value>)

  /** The values CBOR has a spelling for: integers fit its sixty-four bit argument. */
  predicate Spellable(v: Value) {
    match v
    case Number(n) => n < U64 && -n <= U64
    case Array(vs) => forall i | 0 <= i < |vs| :: Spellable(vs[i])
    case _ => true
  }

  ghost predicate ValueLaw(c: ValueCodec) {
    forall v: Value :: Spellable(v) ==> c.decode(c.encode(v)) == Some(v)
  }

  /** The transmitted list: "module:key" and an encoded value. */
  type ServiceInfo = seq<(string, Bytes)>

  datatype Triple = Triple(mod: Module, key: string, value: Value)

  /** `ServiceInfo::add`. */
  function Add(c: ValueCodec, si: ServiceInfo, t: Triple): ServiceInfo {
    si + [(Name(t.mod) + ":" + t.key, c.encode(t.value))]
  }

  function AddAll(c: ValueCodec, si: ServiceInfo, ts: seq<Triple>): ServiceInfo
    decreases |ts|
  {
    if ts == [] then si else AddAll(c, Add(c, si, ts[0]), ts[1..])
  }

  /** Position of the first colon. */
  function FindColon(s: string): Option<nat> {
    if s == [] then None
    else if s[0] == ':' then Some(0)
    else
      match FindColon(s[1..])
      case None => None
      case Some(i) => Some(i + 1)
  }

  lemma {:induction false} FirstColon(a: string, b: string)
    requires ':' !in a
    ensures FindColon(a + ":" + b) == Some(|a|)
  {
    if a == [] {
      assert (a + ":" + b)[0] == ':';
    } else {
      assert (a + ":" + b)[0] == a[0];
      assert (a + ":" + b)[1..] == a[1..] + ":" + b;
      FirstColon(a[1..], b);
    }
  }

  lemma {:induction false} FindColonInRange(s: string)
    ensures FindColon(s).Some? ==> FindColon(s).value < |s|
  {
    if s != [] {
      FindColonInRange(s[1..]);
    }
  }

  /** One step of `ServiceInfoIter`: None ends the iteration. */
  function ReadEntry(c: ValueCodec, e: (string, Bytes)): Option<Triple> {
    FindColonInRange(e.0);
    match FindColon(e.0)
    case None => None
    case Some(i) =>
      match c.decode(e.1)
      case None => None
      case Some(v) => Some(Triple(ParseModule(e.0[..i]), e.0[i + 1..], v))
  }

  /** What a loop over the iterator sees. */
  function Triples(c: ValueCodec, si: ServiceInfo): seq<Triple> {
    if si == [] then [] else
    match ReadEntry(c, si[0])
    case None => []
    case Some(t) => [t] + Triples(c, si[1..])
  }

  /** The loop sees exactly the longest prefix of well-formed entries, in order. */
  lemma {:induction false} TriplesAreLongestPrefix(c: ValueCodec, si: ServiceInfo)
    ensures |Triples(c, si)| <= |si|
    ensures forall i | 0 <= i < |Triples(c, si)| :: ReadEntry(c, si[i]) == Some(Triples(c, si)[i])
    ensures |Triples(c, si)| < |si| ==> ReadEntry(c, si[|Triples(c, si)|]).None?
  {
    hide ReadEntry;
    if si != [] && ReadEntry(c, si[0]).Some? {
      TriplesAreLongestPrefix(c, si[1..]);
      var ts, rest := Triples(c, si), Triples(c, si[1..]);
      forall i | 0 <= i < |ts| ensures ReadEntry(c, si[i]) == Some(ts[i]) {
        if i > 0 {
          assert ts[i] == rest[i - 1] && si[i] == si[1..][i - 1];
        }
      }
    }
  }

  // ------------------------------------------------- what is added is what is seen

  lemma {:induction false} NamesHaveNoColon(m: Module)
    requires !m.Unsupported?
    ensures ':' !in Name(m)
  {
  }

  lemma {:induction false} NamesParse(m: Module)
    requires !m.Unsupported?
    ensures ParseModule(Name(m)) == m
  {
    match m
    case DevMod => assert |Name(m)| == 6;
    case SSHKey => assert |Name(m)| == 20 && Name(m)[14] == 's';
    case BinaryFile => assert |Name(m)| == 24;
    case Command => assert |Name(m)| == 21;
    case Reboot => assert |Name(m)| == 20 && Name(m)[14] == 'r';
    case DiskEncryptionClevis => assert |Name(m)| == 35;
    case SubscriptionManager => assert |Name(m)| == 30;
  }

  /** A module whose printed name reads back as the module: every module the program knows, and every
      other name without a colon. */
  predicate Addressable(m: Module) {
    ':' !in Name(m) && ParseModule(Name(m)) == m
  }

  lemma {:induction false} KnownIsAddressable(m: Module)
    requires !m.Unsupported?
    ensures Addressable(m)
  {
    hide Name, ParseModule;
    NamesHaveNoColon(m);
    NamesParse(m);
  }

  /** An added entry is read back exactly if its module is addressable. */
  lemma {:induction false} ReadAddedIff(c: ValueCodec, t: Triple)
    requires ValueLaw(c) && Spellable(t.value)
    ensures ReadEntry(c, (Name(t.mod) + ":" + t.key, c.encode(t.value))) == Some(t) <==> Addressable(t.mod)
  {
    hide Name, ParseModule, FindColon, Spellable;
    var n := Name(t.mod);
    var s := n + ":" + t.key;
    if ':' !in n {
      FirstColon(n, t.key);
      assert s[..|n|] == n && s[|n| + 1..] == t.key;
    } else {
      EarlierColon(n, t.key);
      var i := FindColon(s).value;
      assert |s[i + 1..]| > |t.key|;
    }
  }

  /** A colon inside the name is found first. */
  lemma {:induction false} EarlierColon(n: string, key: string)
    requires ':' in n
    ensures FindColon(n + ":" + key).Some? && FindColon(n + ":" + key).value < |n|
  {
    var s := n + ":" + key;
    if n[0] != ':' {
      assert s[1..] == n[1..] + ":" + key;
      EarlierColon(n[1..], key);
    }
  }

  lemma {:induction false} TriplesOfConcat(c: ValueCodec, si: ServiceInfo, more: ServiceInfo)
    requires |Triples(c, si)| == |si|
    ensures Triples(c, si + more) == Triples(c, si) + Triples(c, more)
  {
    hide ReadEntry;
    if si == [] {
      assert si + more == more;
    } else {
      assert (si + more)[1..] == si[1..] + more;
      TriplesOfConcat(c, si[1..], more);
    }
  }

  /** Messages that are read back as they were added. */
  predicate Deliverable(ts: seq<Triple>) {
    forall i | 0 <= i < |ts| :: Addressable(ts[i].mod) && Spellable(ts[i].value)
  }

  /** Reading inverts adding. */
  lemma {:induction false} TriplesOfAdded(c: ValueCodec, si: ServiceInfo, ts: seq<Triple>)
    requires ValueLaw(c) && |Triples(c, si)| == |si|
    requires Deliverable(ts)
    ensures Triples(c, AddAll(c, si, ts)) == Triples(c, si) + ts
    decreases |ts|
  {
    hide ReadEntry, Name, Addressable, Spellable;
    if ts != [] {
      var entry := (Name(ts[0].mod) + ":" + ts[0].key, c.encode(ts[0].value));
      ReadAddedIff(c, ts[0]);
      TriplesOfConcat(c, si, [entry]);
      var none: ServiceInfo := [];
      assert [entry][1..] == none;
      assert Triples(c, [entry]) == [ts[0]];
      TriplesOfAdded(c, Add(c, si, ts[0]), ts[1..]);
      assert (Triples(c, si) + [ts[0]]) + ts[1..] == Triples(c, si) + ts;
    }
  }

  lemma {:induction false} AddAllConcat(c: ValueCodec, si: ServiceInfo, a: seq<Triple>, b: seq<Triple>)
    ensures AddAll(c, si, a + b) == AddAll(c, AddAll(c, si, a), b)
    decreases |a|
  {
    if a == [] {
      assert a + b == b;
    } else {
      assert (a + b)[1..] == a[1..] + b;
      AddAllConcat(c, Add(c, si, a[0]), a[1..], b);
    }
  }

  // ------------------------------------------------- keys

  /** The keys the device understands. Distinct spellings stay distinct, so one classification
      serves every module. */
  datatype Key =
    | Active | Username | Password | SshKeys | RebootKey | OrganizationId | ActivationKey | PerformInsights
    | FileName | Length | Data | Mode | Sha(algorithm: string)
    | CommandKey | Args | MayFail | ReturnStdout | ReturnStderr | Execute
    | DiskLabel | Pin | Config | Reencrypt | UnknownKey

  predicate StartsWith(s: string, prefix: string) {
    prefix <= s
  }

  /** The second field of a key split at dashes. */
  function UpToDash(s: string): string {
    if s == [] || s[0] == '-' then [] else [s[0]] + UpToDash(s[1..])
  }

  function Classify(k: string): Key {
    if k == "active" then Active
    else if k == "name" then FileName
    else if k == "length" then Length
    else if StartsWith(k, "data") then Data
    else if k == "mode" then Mode
    else if StartsWith(k, "sha-") then Sha(UpToDash(k[4..]))
    else if k == "command" then CommandKey
    else if k == "args" then Args
    else if k == "may_fail" then MayFail
    else if k == "return_stdout" then ReturnStdout
    else if k == "return_stderr" then ReturnStderr
    else if k == "execute" then Execute
    else if k == "disk-label" then DiskLabel
    else if k == "pin" then Pin
    else if k == "config" then Config
    else if k == "reencrypt" then Reencrypt
    else if k == "username" then Username
    else if k == "password" then Password
    else if k == "sshkeys" then SshKeys
    else if k == "reboot" then RebootKey
    else if k == "organization_id" then OrganizationId
    else if k == "activation_key" then ActivationKey
    else if k == "perform_insights" then PerformInsights
    else UnknownKey
  }

  lemma {:induction false} FileKeys()
    ensures Classify("name") == FileName && Classify("length") == Length && Classify("mode") == Mode
    ensures Classify("data001") == Data && Classify("sha-384") == Sha("384")
  {
    assert "data"[0] == 'd' && "name"[0] == 'n' && "sha-"[0] == 's' && "active"[0] == 'a';
    assert "length"[0] == 'l' && "mode"[0] == 'm';
    assert "data001"[..4] == "data";
    assert "sha-384"[0] == 's' && "sha-384"[..4] == "sha-" && "sha-384"[4..] == "384";
    assert "384"[1..] == "84" && "84"[1..] == "4" && "4"[1..] == "";
    assert UpToDash("384") == "384";
  }

  lemma {:induction false} CommandKeys()
    ensures Classify("command") == CommandKey && Classify("args") == Args && Classify("may_fail") == MayFail
  {
    assert "data"[0] == 'd' && "command"[0] == 'c' && "sha-"[0] == 's' && "name"[0] == 'n';
    assert "args"[0] == 'a' && "mode"[0] == 'm' && "may_fail"[0] == 'm';
  }

  lemma {:induction false} OutputKeys()
    ensures Classify("return_stdout") == ReturnStdout && Classify("return_stderr") == ReturnStderr && Classify("execute") == Execute
  {
    assert "data"[0] == 'd' && "return_stdout"[0] == 'r' && "sha-"[0] == 's' && "return_stdout"[10] == 'o';
    assert "return_stderr"[10] == 'e' && "return_stderr"[0] == 'r' && "command"[0] == 'c' && "execute"[0] == 'e';
  }

  lemma {:induction false} DiskKeys()
    ensures Classify("disk-label") == DiskLabel && Classify("pin") == Pin
  {
    assert "data"[1] == 'a' && "disk-label"[1] == 'i' && "sha-"[0] == 's' && "disk-label"[0] == 'd';
  }

  lemma {:induction false} BindingKeys()
    ensures Classify("config") == Config && Classify("reencrypt") == Reencrypt
  {
    assert "active"[0] == 'a' && "config"[0] == 'c' && "length"[0] == 'l' && "data"[0] == 'd';
    assert "sha-"[0] == 's' && "reencrypt"[0] == 'r';
  }

  lemma {:induction false} UserKeys()
    ensures Classify("active") == Active && Classify("username") == Username && Classify("password") == Password
  {
    assert "data"[0] == 'd' && "active"[0] == 'a' && "sha-"[0] == 's' && "may_fail"[0] == 'm';
    assert "username"[0] == 'u' && "password"[0] == 'p';
  }

  lemma {:induction false} LoginKeys()
    ensures Classify("sshkeys") == SshKeys && Classify("reboot") == RebootKey
  {
    assert "command"[0] == 'c' && "sshkeys"[0] == 's' && "execute"[0] == 'e' && "data"[0] == 'd';
    assert "sha-"[1] == 'h' && "sshkeys"[1] == 's' && "active"[0] == 'a' && "reboot"[0] == 'r';
    assert "length"[0] == 'l' && "config"[0] == 'c' && "sha-"[0] == 's';
  }
}
