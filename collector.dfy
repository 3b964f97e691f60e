/**
  collector/collector.go: one probe of a TACACS+ server and the three gauges
  that report it.

  The exchange itself, `tacplus.Client.SendAuthenStart`, is an oracle: a
  function from the client, the context's timeout and the AuthenStart request
  the collector builds to either an error or the server's reply. The time the exchange took is an
  input, in seconds.
*/
module Collector {
  import opened GoTypes
  import opened Config

  /** Values of the `tacplus` library's constants, which are those of RFC 8907, section 5.1. */
  const AuthenActionLogin: uint8 := 1
  const AuthenTypePAP: uint8 := 2
  const AuthenServiceLogin: uint8 := 1

  /** The authentication START request (`tacplus.AuthenStart`). */
  datatype AuthenStart = AuthenStart(
    action: uint8,
    privLvl: uint8,
    authenType: uint8,
    authenService: uint8,
    user: string,
    port: string,
    remAddr: string,
    data: seq<byte>)

  /** The connection settings of the client (`tacplus.ConnConfig`, the fields the collector sets). */
  datatype ConnConfig = ConnConfig(
    mux: bool,
    legacyMux: bool,
    secret: seq<byte>,
    readTimeout: Duration,
    writeTimeout: Duration)

  datatype Client = Client(addr: string, connConfig: ConnConfig)

  datatype AuthenReply = AuthenReply(status: uint8, serverMsg: string)

  /** A session the library hands back with a reply, by identity. */
  type Session = nat

  /** What `SendAuthenStart` returns: a reply with the session it may leave open, or an error. */
  datatype SendResult = Replied(reply: AuthenReply, session: Option<Session>) | SendFailed(error: string)

  /** `SendAuthenStart` as an oracle: its answer for a client, the timeout of the context it
      runs under, and a request. */
  type Exchange = (Client, Duration, AuthenStart) -> SendResult

  /** The client the probe uses: the target's address, the module's multiplexing flags
      and secret, and the module's timeout for both reads and writes. */
  function NewClient(target: string, m: Module): (c: Client)
    ensures c.addr == target
    ensures c.connConfig.mux == m.singleConnect && c.connConfig.legacyMux == m.legacySingleConnect
    ensures c.connConfig.secret == m.secret
    ensures c.connConfig.readTimeout == m.timeout && c.connConfig.writeTimeout == m.timeout
    ensures Valid(m) ==> c.connConfig.secret != []
  {
    Client(target, ConnConfig(m.singleConnect, m.legacySingleConnect, m.secret, m.timeout, m.timeout))
  }

  /** The START request: a PAP login at privilege level 0, whatever level the module names,
      carrying the module's username, port label and password bytes and the caller's address. */
  function NewAuthenStart(m: Module, remoteAddr: string): (a: AuthenStart)
    ensures a.action == AuthenActionLogin && a.privLvl == 0
    ensures a.authenType == AuthenTypePAP && a.authenService == AuthenServiceLogin
    ensures a.user == m.username && a.port == m.port && a.remAddr == remoteAddr
    ensures a.data == Bytes(m.password)
    ensures Valid(m) ==> a.user != "" && a.data != []
  {
    AuthenStart(AuthenActionLogin, 0, AuthenTypePAP, AuthenServiceLogin, m.username, m.port, remoteAddr, Bytes(m.password))
  }

  /** The module's privilege level never reaches the request. */
  lemma AuthenStartIgnoresPrivLevel(m: Module, level: uint8, remoteAddr: string)
    ensures NewAuthenStart(m.(privLevel := level), remoteAddr) == NewAuthenStart(m, remoteAddr)
  {
  }

  const Namespace: string := "tacacs"

  /** The options a gauge is created with (`prometheus.GaugeOpts`). */
  datatype GaugeOpts = GaugeOpts(namespace: string, name: string, help: string)

  const DurationOpts: GaugeOpts := GaugeOpts(Namespace, "scrape_duration_seconds", "TACACS response time in seconds.")
  const StatusCodeOpts: GaugeOpts :=
    GaugeOpts(Namespace, "status_code", "TACACS Authentication reply status code. Common values are Pass(1) and Fail(2).")
  const SuccessOpts: GaugeOpts := GaugeOpts(Namespace, "success", "1 if the TACACS probe was successful.")

  /** The metric name a gauge is exposed under (`prometheus.BuildFQName` without a subsystem):
      nothing without a name, otherwise its non-empty name parts joined by `_`. */
  function FullName(o: GaugeOpts): string
  {
    if o.name == "" then ""
    else if o.namespace == "" then o.name
    else o.namespace + "_" + o.name
  }

  /** One metric as a gauge's `Collect` sends it: its options and current value. */
  datatype Sample = Sample(opts: GaugeOpts, value: real)

  /** The values of the three gauges. */
  datatype Gauges = Gauges(duration: real, statusCode: real, success: real)

  /** A freshly created gauge reads 0. */
  const Unset: Gauges := Gauges(0.0, 0.0, 0.0)

  /** The gauges after a probe whose exchange took `elapsed` seconds: the duration is set on
      every path, the status code only when a reply came back. */
  function AfterProbe(g: Gauges, res: SendResult, elapsed: real): (h: Gauges)
    ensures h.duration == elapsed && h.success == g.success
    ensures res.SendFailed? ==> h.statusCode == g.statusCode
    ensures res.Replied? ==> h.statusCode == res.reply.status as real
  {
    var h := g.(duration := elapsed);
    if res.Replied? then h.(statusCode := res.reply.status as real) else h
  }

  /** The gauges after a collection pass: the probe's, with success 1 if it returned no error and 0 if it did. */
  function AfterCollect(g: Gauges, res: SendResult, elapsed: real): (h: Gauges)
    ensures h.duration == elapsed
    ensures h.success == 1.0 <==> res.Replied?
    ensures h.success == 0.0 <==> res.SendFailed?
    ensures h.statusCode == AfterProbe(g, res, elapsed).statusCode
  {
    AfterProbe(g, res, elapsed).(success := if res.Replied? then 1.0 else 0.0)
  }

  /** What a collection pass sends: exactly three metrics, duration, status code and success, in that order. */
  function Exposed(g: Gauges): (s: seq<Sample>)
    ensures |s| == 3
    ensures s[0].opts == DurationOpts && s[0].value == g.duration
    ensures s[1].opts == StatusCodeOpts && s[1].value == g.statusCode
    ensures s[2].opts == SuccessOpts && s[2].value == g.success
  {
    [Sample(DurationOpts, g.duration), Sample(StatusCodeOpts, g.statusCode), Sample(SuccessOpts, g.success)]
  }

  /** The names the three gauges are exposed under. */
  lemma MetricNames()
    ensures FullName(DurationOpts) == "tacacs_scrape_duration_seconds"
    ensures FullName(StatusCodeOpts) == "tacacs_status_code"
    ensures FullName(SuccessOpts) == "tacacs_success"
  {
  }

  /** A collection pass on fresh gauges: success is 1 exactly when the server replied, the status
      code is then the reply's status verbatim (a byte) and otherwise stays at the unset 0, and
      the duration is reported on every path. */
  lemma FreshCollect(res: SendResult, elapsed: real)
    ensures var s := Exposed(AfterCollect(Unset, res, elapsed));
      s[0].value == elapsed &&
      (s[2].value == 1.0 <==> res.Replied?) &&
      (s[2].value == 0.0 <==> res.SendFailed?) &&
      (res.Replied? ==> s[1].value == res.reply.status as real && 0.0 <= s[1].value <= 255.0) &&
      (res.SendFailed? ==> s[1].value == 0.0)
  {
  }

  /** A probe of one target with one module (the `Collector` struct). The module is the
      handler's own copy of the configured module, which nothing changes while it is read. */
  class Collector {
    const target: string
    const probeModule: Module
    const remoteAddr: string
    var duration: real
    var statusCode: real
    var success: real

    function Readings(): Gauges
      reads this
    {
      Gauges(duration, statusCode, success)
    }

    /** `NewCollector`: the three gauges are created unset. */
    constructor (target: string, remoteAddress: string, probeModule: Module)
      ensures this.target == target && this.remoteAddr == remoteAddress && this.probeModule == probeModule
      ensures Readings() == Unset
    {
      this.target := target;
      this.probeModule := probeModule;
      this.remoteAddr := remoteAddress;
      duration, statusCode, success := 0.0, 0.0, 0.0;
    }

    /** `probe`: one exchange with the target, under a context that times out after the
        module's timeout. It returns the exchange's error, if any, and
        the session it closes, which is the one a reply came with. */
    method Probe(send: Exchange, elapsed: real) returns (err: Option<string>, closed: Option<Session>)
      requires elapsed >= 0.0
      modifies this
      ensures var res := send(NewClient(target, probeModule), probeModule.timeout, NewAuthenStart(probeModule, remoteAddr));
        Readings() == AfterProbe(old(Readings()), res, elapsed) &&
        (res.SendFailed? ==> err == Some(res.error) && closed == None) &&
        (res.Replied? ==> err == None && closed == res.session)
    {
      var client := NewClient(target, probeModule);
      var authenStart := NewAuthenStart(probeModule, remoteAddr);
      var res := send(client, probeModule.timeout, authenStart);
      duration := elapsed;
      if res.SendFailed? {
        return Some(res.error), None;
      }
      closed := None;
      if res.session.Some? {
        closed := res.session;
      }
      statusCode := res.reply.status as real;
      err := None;
    }

    /** `Collect`: probe, set success from the probe's error, and send the three gauges. */
    method Collect(send: Exchange, elapsed: real) returns (metrics: seq<Sample>)
      requires elapsed >= 0.0
      modifies this
      ensures var res := send(NewClient(target, probeModule), probeModule.timeout, NewAuthenStart(probeModule, remoteAddr));
        Readings() == AfterCollect(old(Readings()), res, elapsed) && metrics == Exposed(Readings())
    {
      var err, _ := Probe(send, elapsed);
      if err.Some? {
        success := 0.0;
      } else {
        success := 1.0;
      }
      metrics := [Sample(DurationOpts, duration), Sample(StatusCodeOpts, statusCode), Sample(SuccessOpts, success)];
    }
  }
}
