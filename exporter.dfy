/**
  main.go, `metricsHandler`: how one scrape request picks the target and the
  module to probe, and what it answers. Rendering the metrics in the text
  exposition format is left to the response's list of samples.
*/
module Exporter {
  import opened GoTypes
  import opened Config
  import opened Collector

  /** The parts of an HTTP request the handler reads: the decoded query and the caller's address. */
  datatype Request = Request(query: map<string, seq<string>>, remoteAddr: string)

  /** `url.Values.Get`: the first value given for the key, or "" when there is none. */
  function QueryGet(query: map<string, seq<string>>, key: string): (v: string)
    ensures key !in query || query[key] == [] ==> v == ""
    ensures key in query && query[key] != [] ==> v == query[key][0]
    ensures v != "" ==> key in query && v in query[key]
  {
    if key in query && query[key] != [] then query[key][0] else ""
  }

  const StatusBadRequest: int := 400

  datatype RequestError = NoTarget | NoModule | UnknownModule(name: string)
  {
    /** The text `http.Error` is given for the error. */
    function Message(): (m: string)
      ensures NoTarget? ==> m == "no target specified"
      ensures NoModule? ==> m == "no module specified"
      ensures UnknownModule? ==> m == "unknown module " + Quote(name)
    {
      match this
      case NoTarget => "no target specified"
      case NoModule => "no module specified"
      case UnknownModule(name) => "unknown module " + Quote(name)
    }
  }

  /** What `NewCollector` is called with. */
  datatype CollectorArgs = CollectorArgs(target: string, remoteAddress: string, probeModule: Module)

  /** The guards of the handler, in order: a target, then a module name, then a module of that name. */
  function Dispatch(r: Request, config: Config): (res: Result<CollectorArgs, RequestError>)
    ensures var target, name := QueryGet(r.query, "target"), QueryGet(r.query, "module");
      (res == Err(NoTarget) <==> target == "") &&
      (res == Err(NoModule) <==> target != "" && name == "") &&
      (res == Err(UnknownModule(name)) <==> target != "" && name != "" && name !in config.modules) &&
      (res.Ok? <==> target != "" && name != "" && name in config.modules) &&
      (res.Ok? ==> res.value == CollectorArgs(target, r.remoteAddr, config.modules[name]))
  {
    var target := QueryGet(r.query, "target");
    if target == "" then Err(NoTarget)
    else
      var name := QueryGet(r.query, "module");
      if name == "" then Err(NoModule)
      else if name !in config.modules then Err(UnknownModule(name))
      else Ok(CollectorArgs(target, r.remoteAddr, config.modules[name]))
  }

  /** What the handler writes: an error page (`http.Error` ends the message with a newline)
      or the metrics a fresh registry gathered from its one collector. */
  datatype Response = ErrorPage(status: int, body: string) | MetricsPage(samples: seq<Sample>)

  /** `metricsHandler`: the guards, then one collector built from the target, the caller's
      address and the looked-up module, registered in a registry of its own and collected once.
      The configuration is a value, so the handler cannot change it. */
  method MetricsHandler(r: Request, config: Config, send: Exchange, elapsed: real) returns (resp: Response)
    requires elapsed >= 0.0
    ensures match Dispatch(r, config)
      case Err(e) => resp == ErrorPage(StatusBadRequest, e.Message() + "\n")
      case Ok(args) =>
        resp == MetricsPage(Exposed(AfterCollect(Unset,
          send(NewClient(args.target, args.probeModule), args.probeModule.timeout,
            NewAuthenStart(args.probeModule, args.remoteAddress)), elapsed)))
  {
    var target := QueryGet(r.query, "target");
    if target == "" {
      return ErrorPage(StatusBadRequest, NoTarget.Message() + "\n");
    }
    var moduleName := QueryGet(r.query, "module");
    if moduleName == "" {
      return ErrorPage(StatusBadRequest, NoModule.Message() + "\n");
    }
    if moduleName !in config.modules {
      return ErrorPage(StatusBadRequest, UnknownModule(moduleName).Message() + "\n");
    }
    var m := config.modules[moduleName];
    var collector := new Collector(target, r.remoteAddr, m);
    var samples := collector.Collect(send, elapsed);
    return MetricsPage(samples);
  }

  /** A module name made of plain characters is quoted verbatim in the error message. */
  lemma UnknownModuleMessage(name: string)
    requires forall i :: 0 <= i < |name| ==> IsPlain(name[i])
    ensures UnknownModule(name).Message() == "unknown module \"" + name + "\""
  {
    QuotePlain(name);
  }

  /** Two different module names are never reported with the same message. */
  lemma UnknownModuleMessagesDistinct(a: string, b: string)
    requires a != b
    ensures UnknownModule(a).Message() != UnknownModule(b).Message()
  {
    var p := "unknown module ";
    if UnknownModule(a).Message() == UnknownModule(b).Message() {
      assert Quote(a) == UnknownModule(a).Message()[|p|..];
      assert Quote(b) == UnknownModule(b).Message()[|p|..];
      QuoteInjective(a, b);
    }
  }

  /** With a configuration that loading accepted, every probe the handler starts goes to a
      non-empty target, and unless the module's entry was null (the zero Module) it carries a
      non-empty secret, username and password. */
  lemma DispatchedProbeHasCredentials(r: Request, file: Result<seq<byte>, string>, parse: seq<byte> -> YamlDoc)
    requires LoadFromFile(file, parse).Ok?
    requires Dispatch(r, LoadFromFile(file, parse).value).Ok?
    ensures var args := Dispatch(r, LoadFromFile(file, parse).value).value;
      var client, start := NewClient(args.target, args.probeModule), NewAuthenStart(args.probeModule, args.remoteAddress);
      client.addr != "" &&
      (args.probeModule != ZeroModule ==> client.connConfig.secret != [] && start.user != "" && start.data != [])
  {
  }

  /** A module whose entry is null is probed with an empty secret, username and password and a
      zero timeout: the checks of `UnmarshalYAML` never ran on it. */
  lemma NullModuleProbe(r: Request, file: seq<byte>, parse: seq<byte> -> YamlDoc)
    requires parse(file) == Doc([("test", NullValue)])
    requires QueryGet(r.query, "target") != "" && QueryGet(r.query, "module") == "test"
    ensures LoadFromFile(Ok(file), parse).Ok?
    ensures var args := Dispatch(r, LoadFromFile(Ok(file), parse).value).value;
      var client, start := NewClient(args.target, args.probeModule), NewAuthenStart(args.probeModule, args.remoteAddress);
      client.connConfig.secret == [] && client.connConfig.readTimeout == 0 && start.user == "" && start.data == []
  {
    NullModuleLoads(file, parse);
  }
}
