/**
  config/config.go: the settings of one probe module, decoded from the YAML
  mapping under its name, and the configuration file that holds the modules.

  YAML decoding itself is abstract: a module's node arrives either as a
  decoding error or as the keys it holds, and the file as an error or as its
  module entries in document order.
*/
module Config {
  import opened GoTypes

  /** The settings of one probe module (the `Module` struct). */
  datatype Module = Module(
    username: string,
    password: string,
    secret: seq<byte>,
    singleConnect: bool,
    legacySingleConnect: bool,
    privLevel: uint8,
    port: string,
    timeout: Duration)

  /** What decoding guarantees of every module it accepts. */
  predicate Valid(m: Module)
  {
    m.username != "" && m.password != "" && m.secret != []
  }

  /** The anonymous struct the YAML node is decoded into before any check. */
  datatype Temp = Temp(
    username: string,
    password: string,
    secret: string,
    singleConnect: bool,
    legacySingleConnect: bool,
    timeout: int64,
    privLevel: uint8,
    port: string)

  const DefaultPort: string := "probe"

  /** The timeout, in seconds, of a module that gives none. */
  const DefaultTimeout: int64 := 5

  /** The values the struct holds before decoding. */
  const Defaults: Temp := Temp("", "", "", false, false, DefaultTimeout, 0, DefaultPort)

  /** The keys a module's YAML mapping gives, each `None` when the key is absent. */
  datatype YamlFields = YamlFields(
    username: Option<string>,
    password: Option<string>,
    secret: Option<string>,
    singleConnect: Option<bool>,
    legacySingleConnect: Option<bool>,
    timeout: Option<int64>,
    privLevel: Option<uint8>,
    port: Option<string>)

  /** A module's YAML node as the decoder reads it: a type error (an unknown key, a value
      of the wrong type or out of range) or the keys it holds. */
  datatype YamlNode = NodeError(message: string) | Node(fields: YamlFields)

  function GetOr<T>(o: Option<T>, default: T): T
  {
    match o
    case Some(v) => v
    case None => default
  }

  /** Decoding a mapping into a struct: each key present replaces the value held, the rest stay. */
  function Overlay(t: Temp, f: YamlFields): (r: Temp)
    ensures r.username == (if f.username.Some? then f.username.value else t.username)
    ensures r.password == (if f.password.Some? then f.password.value else t.password)
    ensures r.secret == (if f.secret.Some? then f.secret.value else t.secret)
    ensures r.singleConnect == (if f.singleConnect.Some? then f.singleConnect.value else t.singleConnect)
    ensures r.legacySingleConnect == (if f.legacySingleConnect.Some? then f.legacySingleConnect.value else t.legacySingleConnect)
    ensures r.timeout == (if f.timeout.Some? then f.timeout.value else t.timeout)
    ensures r.privLevel == (if f.privLevel.Some? then f.privLevel.value else t.privLevel)
    ensures r.port == (if f.port.Some? then f.port.value else t.port)
  {
    Temp(
      GetOr(f.username, t.username),
      GetOr(f.password, t.password),
      GetOr(f.secret, t.secret),
      GetOr(f.singleConnect, t.singleConnect),
      GetOr(f.legacySingleConnect, t.legacySingleConnect),
      GetOr(f.timeout, t.timeout),
      GetOr(f.privLevel, t.privLevel),
      GetOr(f.port, t.port))
  }

  datatype ModuleError = UnmarshalFailed(message: string) | EmptyUsername | EmptyPassword | EmptySecret
  {
    /** The field a check error is about. */
    function Field(): string
      requires !UnmarshalFailed?
    {
      match this
      case EmptyUsername => "username"
      case EmptyPassword => "password"
      case EmptySecret => "secret"
    }

    /** The error's text: the decoder's own message, or the field followed by "must not be empty". */
    function Message(): (r: string)
      ensures UnmarshalFailed? ==> r == message
      ensures !UnmarshalFailed? ==> r == Field() + " must not be empty"
    {
      match this
      case UnmarshalFailed(m) => m
      case EmptyUsername => "username must not be empty"
      case EmptyPassword => "password must not be empty"
      case EmptySecret => "secret must not be empty"
    }
  }

  /** The checks run on the decoded struct, in order: the first that fails is reported. */
  function Check(t: Temp): (e: Option<ModuleError>)
    ensures e == None <==> t.username != "" && t.password != "" && t.secret != ""
    ensures e == Some(EmptyUsername) <==> t.username == ""
    ensures e == Some(EmptyPassword) <==> t.username != "" && t.password == ""
    ensures e == Some(EmptySecret) <==> t.username != "" && t.password != "" && t.secret == ""
  {
    if t.username == "" then Some(EmptyUsername)
    else if t.password == "" then Some(EmptyPassword)
    else if t.secret == "" then Some(EmptySecret)
    else None
  }

  /** The module a checked struct becomes: the timeout turns from seconds into a
      duration and the secret from a string into its bytes. */
  function FromTemp(t: Temp): (m: Module)
    ensures Check(t) == None ==> Valid(m)
  {
    Module(t.username, t.password, Bytes(t.secret), t.singleConnect, t.legacySingleConnect,
           t.privLevel, t.port, Seconds(t.timeout))
  }

  /** What `Module.UnmarshalYAML` makes of a module's YAML node. */
  function DecodeModule(node: YamlNode): (r: Result<Module, ModuleError>)
    ensures node.NodeError? ==> r == Err(UnmarshalFailed(node.message))
    ensures r.Ok? ==> Valid(r.value)
  {
    match node
    case NodeError(message) => Err(UnmarshalFailed(message))
    case Node(f) =>
      var t := Overlay(Defaults, f);
      match Check(t)
      case Some(e) => Err(e)
      case None => Ok(FromTemp(t))
  }

  /** A key the mapping leaves out takes its default in the decoded module. */
  lemma DecodeDefaults(f: YamlFields)
    requires DecodeModule(Node(f)).Ok?
    ensures var m := DecodeModule(Node(f)).value;
      (f.timeout.None? ==> m.timeout as int == 5 * Second as int) &&
      (f.port.None? ==> m.port == "probe") &&
      (f.privLevel.None? ==> m.privLevel == 0) &&
      (f.singleConnect.None? ==> !m.singleConnect) &&
      (f.legacySingleConnect.None? ==> !m.legacySingleConnect)
  {
  }

  /** Username, password and secret must be given and non-empty; they are checked in
      that order, so the error names the first that is missing. */
  lemma DecodeChecksInOrder(f: YamlFields)
    ensures var r := DecodeModule(Node(f));
      var user, pass, secret := GetOr(f.username, ""), GetOr(f.password, ""), GetOr(f.secret, "");
      (r == Err(EmptyUsername) <==> user == "") &&
      (r == Err(EmptyPassword) <==> user != "" && pass == "") &&
      (r == Err(EmptySecret) <==> user != "" && pass != "" && secret == "") &&
      (r.Ok? <==> user != "" && pass != "" && secret != "")
  {
  }

  /** An accepted module holds the values the mapping gave (or their defaults): the
      secret as the bytes of the given string, the timeout as that many seconds. */
  lemma DecodeCopies(f: YamlFields)
    requires DecodeModule(Node(f)).Ok?
    ensures var m, t := DecodeModule(Node(f)).value, Overlay(Defaults, f);
      m.username == t.username && m.password == t.password && m.secret == Bytes(t.secret) &&
      m.singleConnect == t.singleConnect && m.legacySingleConnect == t.legacySingleConnect &&
      m.port == t.port && m.privLevel == t.privLevel && m.timeout == Seconds(t.timeout) &&
      (-MaxSeconds <= t.timeout as int <= MaxSeconds ==> m.timeout as int == t.timeout as int * Second as int)
  {
  }

  /** The Go variable of type `Module` that `UnmarshalYAML` fills through its pointer receiver. */
  class ModuleVar {
    var username: string
    var password: string
    var secret: seq<byte>
    var singleConnect: bool
    var legacySingleConnect: bool
    var privLevel: uint8
    var port: string
    var timeout: Duration

    function Value(): Module
      reads this
    {
      Module(username, password, secret, singleConnect, legacySingleConnect, privLevel, port, timeout)
    }

    /** A variable holding the zero value of `Module`. */
    constructor ()
      ensures Value() == ZeroModule
    {
      username, password, secret := "", "", [];
      singleConnect, legacySingleConnect := false, false;
      privLevel, port, timeout := 0, "", 0;
    }

    /** `Module.UnmarshalYAML`: decode into a struct of defaults, check it, and only then
        copy its fields into the receiver, which an error leaves as it was. */
    method UnmarshalYAML(node: YamlNode) returns (err: Option<ModuleError>)
      modifies this
      ensures var r := DecodeModule(node);
        (r.Err? ==> err == Some(r.error) && Value() == old(Value())) &&
        (r.Ok? ==> err == None && Value() == r.value)
    {
      var temp := Defaults;
      match node {
        case NodeError(message) =>
          return Some(UnmarshalFailed(message));
        case Node(f) =>
          temp := Overlay(temp, f);
      }
      if temp.username == "" {
        return Some(EmptyUsername);
      }
      if temp.password == "" {
        return Some(EmptyPassword);
      }
      if temp.secret == "" {
        return Some(EmptySecret);
      }
      username := temp.username;
      password := temp.password;
      secret := Bytes(temp.secret);
      singleConnect := temp.singleConnect;
      legacySingleConnect := temp.legacySingleConnect;
      timeout := Seconds(temp.timeout);
      port := temp.port;
      privLevel := temp.privLevel;
      return None;
    }
  }

  /** The configuration file: modules by name. */
  datatype Config = Config(modules: map<string, Module>)

  /** The value under a module's name: a null node (`~`, or nothing after the colon),
      which the decoder stores as the zero Module without calling `UnmarshalYAML`,
      or a node that `UnmarshalYAML` decodes. */
  datatype EntryValue = NullValue | Present(node: YamlNode)

  type Entry = (string, EntryValue)

  /** The file's YAML document as the decoder reads it: an error outside the `modules`
      mapping (malformed YAML, an unknown top-level key) or the entries of that mapping
      in document order. */
  datatype YamlDoc = DocError(message: string) | Doc(entries: seq<Entry>)

  /** A type error, which the YAML decoder collects and reports once decoding is over. */
  datatype Issue = BadNode(name: string, message: string) | DuplicateKey(name: string)

  datatype LoadError =
    | ReadFailed(message: string)
    | SyntaxError(message: string)
    | InvalidModule(name: string, error: ModuleError)
    | TypeErrors(issues: seq<Issue>)

  /** The zero value of `Module`. */
  const ZeroModule: Module := Module("", "", [], false, false, 0, "", 0)

  /** What decoding can store under a name: a module that passed the checks, or the zero
      Module of a null entry. */
  predicate Admissible(m: Module)
  {
    Valid(m) || m == ZeroModule
  }

  /** The module an entry's value decodes to. */
  function DecodeValue(v: EntryValue): (r: Result<Module, ModuleError>)
    ensures v.NullValue? ==> r == Ok(ZeroModule)
    ensures r.Ok? ==> Admissible(r.value)
    ensures v.Present? ==> r == DecodeModule(v.node)
    ensures v.Present? && r.Ok? ==> Valid(r.value)
  {
    match v
    case NullValue => Ok(ZeroModule)
    case Present(node) => DecodeModule(node)
  }

  /** How far decoding the `modules` mapping has got: the modules stored so far and the type
      errors collected, or the error of a check that aborted decoding. */
  datatype DecodeState = Partial(modules: map<string, Module>, issues: seq<Issue>) | Aborted(error: LoadError)

  /** Decoding one more entry. The value is decoded first: a type error is collected and
      nothing is stored; a failed check aborts. A decoded value whose name is already stored
      is a type error; otherwise it is stored under its name. */
  function DecodeEntry(s: DecodeState, e: Entry): (t: DecodeState)
    ensures s.Aborted? ==> t == s
    ensures s.Partial? && t.Partial? ==> t.modules.Keys <= s.modules.Keys + {e.0}
    ensures s.Partial? && t.Partial? && s.issues != [] ==> t.issues != []
  {
    match s
    case Aborted(_) => s
    case Partial(modules, issues) =>
      match DecodeValue(e.1)
      case Err(UnmarshalFailed(message)) => Partial(modules, issues + [BadNode(e.0, message)])
      case Err(error) => Aborted(InvalidModule(e.0, error))
      case Ok(m) =>
        if e.0 in modules then Partial(modules, issues + [DuplicateKey(e.0)])
        else Partial(modules[e.0 := m], issues)
  }

  function Names(entries: seq<Entry>): set<string>
  {
    set i | 0 <= i < |entries| :: entries[i].0
  }

  predicate AllDecode(entries: seq<Entry>)
  {
    forall i :: 0 <= i < |entries| ==> DecodeValue(entries[i].1).Ok?
  }

  /** Decoding the entries of the `modules` mapping in document order. Only stored names
      appear, every stored module is admissible, and an abort means some entry failed a check. */
  function DecodeMapping(entries: seq<Entry>): (s: DecodeState)
    ensures s.Partial? ==> s.modules.Keys <= Names(entries)
    ensures s.Partial? ==> forall name :: name in s.modules ==> Admissible(s.modules[name])
    ensures s.Aborted? ==> !AllDecode(entries)
  {
    if entries == [] then Partial(map[], [])
    else
      var n := |entries| - 1;
      var init := entries[..n];
      assert forall i :: 0 <= i < n ==> init[i] == entries[i];
      assert Names(entries) == Names(init) + {entries[n].0};
      DecodeEntry(DecodeMapping(init), entries[n])
  }

  /** The `modules` mapping as `yaml.UnmarshalStrict` leaves it: the aborting check's error,
      else the type errors collected, else the modules stored. */
  function DecodeEntries(entries: seq<Entry>): (r: Result<map<string, Module>, LoadError>)
    ensures DecodeMapping(entries).Aborted? ==> r == Err(DecodeMapping(entries).error)
    ensures DecodeMapping(entries).Partial? && DecodeMapping(entries).issues != [] ==>
      r == Err(TypeErrors(DecodeMapping(entries).issues))
    ensures r.Ok? ==> forall name :: name in r.value ==> Admissible(r.value[name])
  {
    match DecodeMapping(entries)
    case Aborted(e) => Err(e)
    case Partial(modules, issues) => if issues == [] then Ok(modules) else Err(TypeErrors(issues))
  }

  predicate DistinctNames(entries: seq<Entry>)
  {
    forall i, j :: 0 <= i < j < |entries| ==> entries[i].0 != entries[j].0
  }

  lemma DistinctNamesStep(entries: seq<Entry>)
    requires entries != []
    ensures var n := |entries| - 1;
      DistinctNames(entries) <==> DistinctNames(entries[..n]) && entries[n].0 !in Names(entries[..n])
  {
    var n := |entries| - 1;
    var init := entries[..n];
    assert forall i :: 0 <= i < n ==> init[i] == entries[i];
    if DistinctNames(init) && entries[n].0 !in Names(init) {
      forall i, j | 0 <= i < j < |entries| ensures entries[i].0 != entries[j].0 {
        if j == n {
          assert entries[i].0 in Names(init);
        } else {
          assert init[i].0 != init[j].0;
        }
      }
    }
    if DistinctNames(entries) {
      forall i, j | 0 <= i < j < n ensures init[i].0 != init[j].0 {
        assert entries[i].0 != entries[j].0;
      }
    }
  }

  predicate Clean(s: DecodeState)
  {
    s.Partial? && s.issues == []
  }

  /** Decoding the mapping ends with no error exactly when no name repeats and every entry
      decodes; every name is then stored. */
  lemma {:induction false} DecodeMappingClean(entries: seq<Entry>)
    ensures Clean(DecodeMapping(entries)) <==> DistinctNames(entries) && AllDecode(entries)
    ensures Clean(DecodeMapping(entries)) ==> DecodeMapping(entries).modules.Keys == Names(entries)
  {
    if entries != [] {
      var n := |entries| - 1;
      var init := entries[..n];
      assert forall i :: 0 <= i < n ==> init[i] == entries[i];
      assert Names(entries) == Names(init) + {entries[n].0};
      assert AllDecode(entries) <==> AllDecode(init) && DecodeValue(entries[n].1).Ok?;
      DecodeMappingClean(init);
      DistinctNamesStep(entries);
    }
  }

  /** An entry leaves decoding clean only when decoding was clean, its value decodes and its
      name is new; the value is then stored under the name. */
  lemma DecodeEntryClean(s: DecodeState, e: Entry)
    requires Clean(DecodeEntry(s, e))
    ensures Clean(s) && DecodeValue(e.1).Ok? && e.0 !in s.modules
    ensures DecodeEntry(s, e).modules == s.modules[e.0 := DecodeValue(e.1).value]
  {
  }

  /** After a clean decoding each name holds the module its own entry decodes to. */
  lemma {:induction false} DecodeMappingValues(entries: seq<Entry>, i: nat)
    requires Clean(DecodeMapping(entries)) && i < |entries|
    ensures DecodeValue(entries[i].1).Ok?
    ensures entries[i].0 in DecodeMapping(entries).modules
    ensures DecodeMapping(entries).modules[entries[i].0] == DecodeValue(entries[i].1).value
  {
    var n := |entries| - 1;
    var init := entries[..n];
    var prev := DecodeMapping(init);
    assert DecodeMapping(entries) == DecodeEntry(prev, entries[n]);
    DecodeEntryClean(prev, entries[n]);
    var v := DecodeValue(entries[n].1).value;
    assert DecodeMapping(entries).modules == prev.modules[entries[n].0 := v];
    if i < n {
      assert init[i] == entries[i];
      DecodeMappingValues(init, i);
      assert entries[i].0 in prev.modules;
      assert entries[i].0 != entries[n].0;
      assert prev.modules[entries[i].0] == DecodeValue(entries[i].1).value;
    } else {
      assert i == n;
    }
  }

  /** Decoding the mapping succeeds exactly when no name repeats and every entry decodes. */
  lemma DecodeEntriesOk(entries: seq<Entry>)
    ensures DecodeEntries(entries).Ok? <==> DistinctNames(entries) && AllDecode(entries)
  {
    DecodeMappingClean(entries);
  }

  /** In a decoded mapping each name holds the module its own entry decodes to: the checked
      module of a present entry, the zero Module of a null one. */
  lemma DecodeEntriesValues(entries: seq<Entry>, i: nat)
    requires DecodeEntries(entries).Ok? && i < |entries|
    ensures DecodeValue(entries[i].1).Ok?
    ensures entries[i].0 in DecodeEntries(entries).value
    ensures DecodeEntries(entries).value[entries[i].0] == DecodeValue(entries[i].1).value
    ensures entries[i].1.Present? ==> Valid(DecodeEntries(entries).value[entries[i].0])
  {
    DecodeMappingValues(entries, i);
  }

  /** A repeated name is reported only once its value has decoded: if that value fails a
      check, the check's error is what decoding reports. */
  lemma RepeatedNameFailingCheck()
    ensures var good := YamlFields(Some("u"), Some("p"), Some("s"), None, None, None, None, None);
      DecodeEntries([("a", Present(Node(good))), ("a", Present(Node(good.(username := Some("")))))])
        == Err(InvalidModule("a", EmptyUsername))
  {
  }

  /** A repeated name whose value decodes is a type error, and decoding carries on. */
  lemma RepeatedNameCollected()
    ensures var good := YamlFields(Some("u"), Some("p"), Some("s"), None, None, None, None, None);
      DecodeEntries([("a", Present(Node(good))), ("a", Present(Node(good))), ("b", Present(NodeError("bad")))])
        == Err(TypeErrors([DuplicateKey("a"), BadNode("b", "bad")]))
  {
    var good := YamlFields(Some("u"), Some("p"), Some("s"), None, None, None, None, None);
    var entries := [("a", Present(Node(good))), ("a", Present(Node(good))), ("b", Present(NodeError("bad")))];
    assert entries[..1] == [entries[0]] && entries[..2] == [entries[0], entries[1]];
    var m := DecodeValue(entries[0].1).value;
    assert DecodeMapping(entries[..1]) == Partial(map["a" := m], []);
    assert DecodeMapping(entries[..2]) == Partial(map["a" := m], [DuplicateKey("a")]);
    assert DecodeValue(entries[2].1) == Err(UnmarshalFailed("bad"));
    assert DecodeMapping(entries) == DecodeEntry(DecodeMapping(entries[..2]), entries[2]);
    assert DecodeMapping(entries).issues == [DuplicateKey("a"), BadNode("b", "bad")];
  }

  /** `LoadFromFile`: the file's bytes, or the error reading it, and the document
      `yaml.UnmarshalStrict` reads from those bytes. */
  function LoadFromFile(file: Result<seq<byte>, string>, parse: seq<byte> -> YamlDoc): (r: Result<Config, LoadError>)
    ensures file.Err? ==> r == Err(ReadFailed(file.error))
    ensures file.Ok? && parse(file.value).DocError? ==> r == Err(SyntaxError(parse(file.value).message))
    ensures r.Ok? ==> file.Ok? && parse(file.value).Doc?
    ensures r.Ok? ==> forall name :: name in r.value.modules ==> Admissible(r.value.modules[name])
  {
    match file
    case Err(e) => Err(ReadFailed(e))
    case Ok(bytes) =>
      match parse(bytes)
      case DocError(message) => Err(SyntaxError(message))
      case Doc(entries) =>
        match DecodeEntries(entries)
        case Err(e) => Err(e)
        case Ok(modules) => Ok(Config(modules))
  }

  /** Loading succeeds exactly when the file is read, its document decodes, no module name
      repeats and every entry decodes; the configuration then maps each name to its module. */
  lemma LoadFromFileOk(file: Result<seq<byte>, string>, parse: seq<byte> -> YamlDoc)
    ensures LoadFromFile(file, parse).Ok? <==>
      file.Ok? && parse(file.value).Doc? &&
      DistinctNames(parse(file.value).entries) && AllDecode(parse(file.value).entries)
    ensures LoadFromFile(file, parse).Ok? ==>
      var entries, modules := parse(file.value).entries, LoadFromFile(file, parse).value.modules;
      modules.Keys == Names(entries) &&
      forall i :: 0 <= i < |entries| ==> modules[entries[i].0] == DecodeValue(entries[i].1).value
  {
    if file.Ok? && parse(file.value).Doc? {
      var entries := parse(file.value).entries;
      DecodeMappingClean(entries);
      if DecodeEntries(entries).Ok? {
        forall i | 0 <= i < |entries|
          ensures DecodeEntries(entries).value[entries[i].0] == DecodeValue(entries[i].1).value
        {
          DecodeMappingValues(entries, i);
        }
      }
    }
  }

  /** A file whose `modules` mapping is empty loads: no check asks for at least one module. */
  lemma NoModulesLoad(file: seq<byte>, parse: seq<byte> -> YamlDoc)
    requires parse(file) == Doc([])
    ensures LoadFromFile(Ok(file), parse) == Ok(Config(map[]))
  {
  }

  /** A module whose value is null loads as the zero Module: empty credentials and secret,
      timeout 0, none of the checks run. */
  lemma NullModuleLoads(file: seq<byte>, parse: seq<byte> -> YamlDoc)
    requires parse(file) == Doc([("test", NullValue)])
    ensures LoadFromFile(Ok(file), parse) == Ok(Config(map["test" := ZeroModule]))
    ensures !Valid(ZeroModule)
  {
  }

  /** The `ok-min` case: only the three required keys. */
  lemma MinimalModule()
    ensures DecodeModule(Node(YamlFields(Some("test"), Some("password"), Some("secret"), None, None, None, None, None)))
         == Ok(Module("test", "password", Bytes("secret"), false, false, 0, "probe", 5_000_000_000))
  {
  }

  /** The `all-options` case: every key given, `timeout: 2` becoming two seconds. */
  lemma AllOptionsModule()
    ensures DecodeModule(Node(YamlFields(Some("test"), Some("test"), Some("secret"), Some(true), Some(true), Some(2), Some(1), Some("tty0"))))
         == Ok(Module("test", "test", Bytes("secret"), true, true, 1, "tty0", 2_000_000_000))
  {
  }
}
