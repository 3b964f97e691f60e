# tacacs-exporter: a Dafny model of its decision logic

The TACACS exporter answers a Prometheus scrape by sending one PAP
authentication START to a TACACS+ server and reporting three gauges: how long
the exchange took, the reply's status code, and whether the probe succeeded.
All protocol work happens in the `tacplus` library. This model covers the
three pieces of logic the repository itself owns:

- **Module configuration** (`config.dfy`, module `Config`). `UnmarshalYAML`
  starts from a default record: timeout 5, port `"probe"`, privilege 0, both
  single-connect flags off. The keys given in YAML overlay it. It then rejects
  an empty username, then an empty password, then an empty secret. Only after
  those checks does it copy the fields into the receiver: the timeout becomes
  a `time.Duration`, and the secret becomes bytes. The receiver is the class
  `ModuleVar`, and the method `ModuleVar.UnmarshalYAML` is proved against the
  function `DecodeModule`. Loading a file (`LoadFromFile`) decodes the
  entries of the `modules` mapping in document order, as `yaml.v2` does: a
  null entry is stored as the zero `Module` without `UnmarshalYAML` running;
  each other value is decoded first; a type error in the YAML node (an
  unknown key, a value of the wrong type) is collected; a failed check stops decoding with its error;
  and a decoded value under a name already stored is collected as a
  duplicate-key type error. Collected type errors are reported together
  once the mapping is done.
- **Probe and gauges** (`collector.dfy`, module `Collector`). A `Collector`
  object holds the target, the module, the caller's address, and three
  mutable gauge values. `Probe` builds the client configuration and the
  AuthenStart request from the module. It asks the exchange oracle for a
  result and sets the duration gauge. It then sets the status code only if a
  reply came back. `Collect` sets success to 1 or 0 from the probe's error and
  emits duration, status code and success in that order.
- **Scrape dispatch** (`exporter.dfy`, module `Exporter`). `Dispatch` is the
  handler's chain of guards: missing target, then missing module, then
  unknown module, each answered with 400. `MetricsHandler` then creates one
  fresh collector from the target, the caller's address and the looked-up
  module, and collects it once.

`gotypes.dfy` (module `GoTypes`) holds the Go values the code relies on:
`uint8`, `int64`, `time.Duration` with wrap-around multiplication, `[]byte(s)`
as UTF-8 encoding, and `strconv.Quote` (the `%q` verb).

Modelling choices:
- A Go `string` is a Dafny `string`. `[]byte(s)` is its UTF-8 encoding,
  which is what Go stores for the YAML-decoded strings other than `!!binary`
  scalars.
- `time.Second * time.Duration(n)` is an int64 multiplication. The model
  wraps it explicitly modulo 2^64. A timeout just beyond 9223372036 seconds
  wraps to a negative duration (`SecondsWrapBeyondRange`); larger ones wrap
  to whatever value the product has modulo 2^64.
- `SendAuthenStart` is a parameter `send` of type `(Client, Duration,
  AuthenStart) -> SendResult`. `Duration` is the timeout of the context the
  call runs under. The time the exchange took is a non-negative input
  `elapsed`, in seconds.
- The gauges are three `real` fields of the collector. A new gauge reads 0.
- The configuration is a value (`Config`, a map from names to `Module`
  values). The handler receives it as a value, so it cannot change it. The
  collector holds its own copy of the looked-up module, just as the handler
  passes a pointer to a local copy.
- The tacplus constants `AuthenActionLogin` = 1, `AuthenTypePAP` = 2 and
  `AuthenServiceLogin` = 1 are the values in RFC 8907, section 5.1. The
  library itself is not part of this model.
- `TestLoadFromFileNoModules` (config/config_test.go:147-152) expects an
  error for its file without modules, but `LoadFromFile` and
  `UnmarshalYAML` contain no check that a module is present. The model
  follows the code: `NoModulesLoad` states that an empty `modules` mapping
  loads. The test's data file is not part of this model.

## Model

| member | source | states |
|---|---|---|
| GoTypes.Seconds | config/config.go:64 | a timeout of n seconds is n * 10^9 nanoseconds whenever that fits in int64, and the int64 wrap-around of it otherwise |
| GoTypes.SecondsWrapBeyondRange | config/config.go:64 | one second beyond the int64 range gives a negative duration |
| GoTypes.Bytes | config/config.go:61 | `[]byte(s)` has at least one byte per character and at most four, and is empty exactly when the string is |
| GoTypes.BytesOfAscii | collector/collector.go:95 | on an ASCII string the bytes are the character codes, one per character |
| GoTypes.Quote | main.go:47 | `%q` output is at least the string plus two characters and starts and ends with a double quote; what lies between reads back to the string (`UnquoteQuote`), so different names are quoted differently |
| GoTypes.UnquoteQuoteBody | main.go:47 | reading back the escapes `strconv.Quote` writes between the quotes gives the string back |
| GoTypes.UnquoteQuote | main.go:47 | unquoting the `%q` form of a string gives the string back |
| GoTypes.QuoteInjective | main.go:47 | different strings have different `%q` forms |
| GoTypes.QuotePlain | main.go:47 | a string of plain characters is quoted by surrounding it with double quotes |
| Config.Overlay | config/config.go:29-46 | each field of the decoded struct is the value the YAML gives for its key, or the value the struct held before when the key is absent |
| Config.ModuleError.Message | config/config.go:46-57 | a YAML decoding error keeps its own text; a check error reads "username must not be empty", "password must not be empty" or "secret must not be empty" |
| Config.Check | config/config.go:50-58 | no error exactly when username, password and secret are all non-empty; otherwise the error names the first empty one, in that order |
| Config.FromTemp | config/config.go:59-66 | a struct that passed the checks becomes a valid module (non-empty username, password and secret bytes) |
| Config.DecodeModule | config/config.go:28-69 | a YAML decoding error is returned as is; every module accepted is valid |
| Config.DecodeDefaults | config/config.go:39-44 | an absent key gives timeout 5 s, port "probe", privilege 0 and both single-connect flags false |
| Config.DecodeChecksInOrder | config/config.go:50-58 | each of the three errors arises exactly when its field is empty and the earlier ones are not; decoding succeeds exactly when none is empty |
| Config.DecodeCopies | config/config.go:59-66 | an accepted module holds the given values or their defaults, the secret as the bytes of the string and the timeout as that many seconds |
| Config.ModuleVar.constructor | config/config.go:17-26 | a new variable holds the zero value of the Module struct |
| Config.ModuleVar.UnmarshalYAML | config/config.go:28-69 | on error the receiver is unchanged and the error is DecodeModule's; on success the receiver holds DecodeModule's module |
| Config.DecodeValue | config/config.go:79 | a null entry gives the zero Module; a present entry gives DecodeModule's result, so a module it yields is valid |
| Config.DecodeEntry | config/config.go:79 | an aborted decoding stays aborted; at most the entry's name is added; collected type errors are kept while decoding goes on; an abort replaces them with the check's error |
| Config.DecodeMapping | config/config.go:79 | only the entries' names are stored, every stored module is valid or the zero Module, and an abort means some entry failed to decode |
| Config.DecodeEntries | config/config.go:79-82 | an aborting check's error is reported as is; otherwise collected type errors are reported together; a decoded mapping holds only valid or zero modules |
| Config.DecodeEntryClean | config/config.go:79 | an entry leaves decoding error-free only if it was error-free before, the value decodes and the name is new; the value is then stored under the name |
| Config.DecodeMappingClean | config/config.go:79 | decoding ends without any error exactly when no name repeats and every entry decodes, and then every name is stored |
| Config.DecodeMappingValues | config/config.go:79 | after an error-free decoding each name holds the module its own entry decodes to |
| Config.DecodeEntriesOk | config/config.go:79-82 | the mapping decodes exactly when no name repeats and every entry decodes |
| Config.DecodeEntriesValues | config/config.go:79-82 | in a decoded mapping each name holds the module its own entry decodes to, a valid one for every present entry |
| Config.RepeatedNameFailingCheck | config/config.go:79 | a repeated name whose value fails a check reports that check's error, not the repetition |
| Config.RepeatedNameCollected | config/config.go:79 | a repeated name whose value decodes is a duplicate-key type error, decoding goes on, and later type errors are reported with it |
| Config.LoadFromFile | config/config.go:71-87 | a read error or a YAML error outside the mapping yields that error; a loaded configuration holds only valid or zero modules |
| Config.LoadFromFileOk | config/config.go:71-87 | loading succeeds exactly when the read succeeds, the document decodes, no name repeats and every entry decodes, and then maps each name to its decoded module |
| Config.NoModulesLoad | config/config.go:71-87 | a file with no modules loads as an empty configuration |
| Config.NullModuleLoads | config/config.go:79 | a module whose value is null loads as the zero Module, which is not valid |
| Config.MinimalModule | config/config_test.go:17-28 | username, password and secret alone give the defaults for everything else |
| Config.AllOptionsModule | config/config_test.go:47-67 | every key given, `timeout: 2` gives 2 s and each value is copied |
| Collector.NewClient | collector/collector.go:71-80 | the client dials the target and copies Mux, LegacyMux and Secret from the module; both read and write timeouts are the module's timeout; the secret is non-empty for a valid module |
| Collector.NewAuthenStart | collector/collector.go:87-96 | the request is a PAP login for service Login at privilege 0, with the module's username and port, the caller's address and the password bytes, non-empty for a valid module |
| Collector.AuthenStartIgnoresPrivLevel | collector/collector.go:89 | the module's privilege level does not affect the request |
| Collector.AfterProbe | collector/collector.go:98-112 | the duration gauge is set on every path; the status code becomes the reply's status on a reply and keeps its value on an error; success is untouched |
| Collector.AfterCollect | collector/collector.go:59-64 | success is 1 exactly when the exchange replied and 0 exactly when it failed |
| Collector.Exposed | collector/collector.go:65-67 | exactly three metrics are sent, duration, status code and success, each with its gauge's value |
| Collector.MetricNames | collector/collector.go:32-46 | the gauges are exposed as tacacs_scrape_duration_seconds, tacacs_status_code and tacacs_success |
| Collector.FreshCollect | collector/collector.go:58-67 | from fresh gauges: duration is always reported, success is 1 exactly on a reply, status is the reply's byte then and 0 otherwise |
| Collector.Collector.constructor | collector/collector.go:27-48 | a new collector keeps its target, address and module, with every gauge unset |
| Collector.Collector.Probe | collector/collector.go:70-113 | the gauges move as AfterProbe says for the oracle's answer to the built client, context timeout and request; the error is returned; the reply's session, if any, is closed |
| Collector.Collector.Collect | collector/collector.go:58-68 | the gauges move as AfterCollect says and the metrics sent are Exposed of the new gauges |
| Exporter.QueryGet | main.go:33 | an absent parameter reads as ""; otherwise the first value given for it, a repeated parameter included |
| Exporter.RequestError.Message | main.go:35-47 | the guards' texts "no target specified" and "no module specified", and "unknown module " followed by the quoted name |
| Exporter.Dispatch | main.go:33-49 | no target gives "no target specified" before the module is looked at; then no module name, then an unknown name; otherwise the collector gets the target, the caller's address and the named module |
| Exporter.MetricsHandler | main.go:32-56 | a rejected request is answered 400 with the guard's message; otherwise the response holds the metrics of one fresh collector built from Dispatch's arguments |
| Exporter.UnknownModuleMessagesDistinct | main.go:47 | two different unknown module names are never answered with the same message |
| Exporter.UnknownModuleMessage | main.go:47 | an unknown plain name is reported as `unknown module "<name>"` |
| Exporter.DispatchedProbeHasCredentials | main.go:45-52 | with a loaded configuration, every probe the handler starts has a non-empty target, and a non-empty secret, username and password unless its module is the zero Module of a null entry |
| Exporter.NullModuleProbe | main.go:45-52 | a module configured as null is probed with an empty secret, username and password and a zero timeout |

## Left out

- The `tacplus` library: packet codec, body obfuscation, session ids, sequence numbers and reply decoding. `SendAuthenStart` is an oracle parameter, so properties of the wire protocol are not modelled.
- Network, deadlines and clocks: the TCP connection, the cancellation of `context.WithTimeout` and `time.Now`/`time.Since`. The context's timeout reaches the oracle as a value, and the measured time is an input.
- The float64 conversion of the duration to seconds, and every float64 rounding. Gauges hold exact reals.
- YAML decoding: `yaml.UnmarshalStrict`, strict unknown-key rejection, and the range and type checks on values. These are folded into the abstract `YamlNode` and `YamlDoc` inputs.
- Config.DecodeEntries: a failure raised inside the decoder's callback (invalid `!!binary` base64, a bad merge key) aborts the load instead of being collected; this changes only which error is reported. A `!!binary` scalar decoded into a string may hold invalid UTF-8, which a Dafny string cannot represent.
- Config.DecodeEntries: type errors from outside the `modules` mapping (an unknown top-level key, a scalar where the mapping belongs) are folded into `DocError` and are not merged with the mapping's own type errors.
- Config.LoadFromFile: a loaded module is valid only when its entry reached `UnmarshalYAML`; a null entry holds the zero Module, so a loaded configuration is not promised to hold only valid modules.
- Exporter.DispatchedProbeHasCredentials: non-empty credentials are promised only for modules other than the zero Module, for the same reason.
- Config.DecodeEntries: the text of yaml.v2's duplicate-key and aggregated type-error messages is not modelled; the issues are kept as a list of values.
- GoTypes.Quote: non-printable non-ASCII characters and invalid UTF-8 are written as themselves, where `strconv.Quote` escapes them.
- GoTypes.QuotePlain: counts every non-ASCII character as plain, so for a string holding a non-printable one (U+00A0, say) it states the model's quoting, not Go's `\u00a0`.
- Exporter.UnknownModuleMessage: for the same reason it matches Go's message only for names whose non-ASCII characters are all printable.
- Config.LoadFromFile: the module name carried by an `InvalidModule` error is extra; Go returns the check's `errors.New` value unchanged, so two modules failing the same check give the same error.
- A session the library might hand back together with an error is not modelled. The model's error result carries no session.
- `Describe`, the Prometheus registry internals and the text exposition rendering: the response is the list of samples.
- Query-string parsing beyond `url.Values.Get`: a query string that decodes to invalid UTF-8 cannot be represented as a Dafny string.
- `main`, flag parsing, `configureLogging`, the HTTP server, signal handling, `Shutdown` and all logging: process plumbing and side effects with no decision logic.
- The collector tests run live servers. Only their scenarios inform the model.
