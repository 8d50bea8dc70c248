# golang-misp, modelled in Dafny

A Dafny model of the core of `golang-misp`, a Go client for the search API
of a MISP threat-intelligence server, together with two helper packages of
its bundled toolbox.

- **MISP client** (`misp/misp.go`, module `Misp` in `misp.dfy`):
  - Building a connection checks the protocol (`NewCon`, `NewInsecureCon`).
  - The request body of an event or attribute search is the query wrapped in a `{"request": …}` envelope (`Prepare`).
  - `postSearch` builds the search URL, posts the query and sorts the reply: status 200 returns the body; any other status becomes a `MispError`.
  - `Search` dispatches on the query type and decodes the reply into the matching response envelope.
  - The three `Iter` methods flatten a response into an ordered sequence of events or attributes.
  - The three `Timestamp` methods parse a decimal epoch-seconds string.
  - `MispError.Error` renders the error text.
- **Configuration** (`dependencies/toolbox/config/config.go`, module `Config` in `config.dfy`):
  - A string-keyed value store held by a class `Config`.
  - Its lookups report a missing key as `ErrNoSuchKey` or end the program.
  - `Set` writes into the store in place.
- **Log levels** (`dependencies/toolbox/utils/log/log.go`, module `Log` in `log.dfy`):
  - The package-level current level and its one-deep backup are the two fields of a class `Logger`.
  - `SetLogLevel`, `RestoreLogLevel` and `InitLogger` update those fields.
  - The gates decide whether `Debug`, `Info`, `Error` and `Critical` emit a message.

Supporting modules:

- `Wrappers` (`wrappers.dfy`):
  - `Option`.
  - `Run`, the outcome of a Go call that either returns or stops the program (`panic`, `os.Exit`) with a recorded cause.
- `Decimal` (`decimal.dfy`):
  - `strconv.ParseInt(s, 10, 64)` as `ParseInt64`.
  - `fmt`'s `%d` as `IntToDecimal`.
  - Their round trip.
- `Json` (`json.dfy`): the JSON tree that `encoding/json` writes for the request structures, and lookup of a member by key.

Modelling choices:

- Go's `(value, error)` results stay pairs, so the zero value returned beside an error is part of the model.
- Everything the code does not compute itself is a parameter:
  - The HTTP round trip of `postSearch` is a `Transport` function from the request to an `Exchange`, which is one of:
    - a client failure;
    - a body that could not be read;
    - a status and body.
  - `json.Unmarshal` of a reply is a pair of `Decoders`, which either succeed or fail.
  - What the environment's proxy settings give for a request is a `Proxy`: none applies, a proxy URL, or a setting that does not parse.
  - Whether `http.NewRequest` accepts the search URL is a `RequestCheck`: the error it reports, or none.

Two behaviours of the code that a caller might not expect:

- **Every query key is sent, empty or not.**
  - The struct tags of `MispEventQuery` and `MispAttributeQuery` (misp/misp.go:64-78, 183-194) have no `omitempty`.
  - So an unset filter is sent as "" or 0 (`Misp.UnsetFiltersAreSent`).
- **A failed search is not reported to the caller.**
  - `Search` logs the error and returns `EmptyMispResponse` (misp/misp.go:369-372, 382-385, 392).
  - A 200 reply that does not decode panics (misp/misp.go:373-376, 386-389).
- **The proxy lookup decides whether a search is sent at all.** `logRequest` runs before every request that builds and, as written, panics when no proxy applies; see "## Findings". `Search` uses the corrected post.

## Model

| member | source | states |
|---|---|---|
| Misp.ErrorText | misp/misp.go:23-25 | The error text is "MISP ERROR (HTTP ", then the status in decimal up to the first ')', then ") : ", then the message, and nothing else |
| Misp.ErrorTextInjective | misp/misp.go:23-25 | Two errors with the same text have the same status code and the same message, so the text loses nothing |
| Misp.NewCon | misp/misp.go:322-328 | Panics with ErrUnknownProtocol exactly when proto is neither "http" nor "https"; otherwise returns a connection holding proto, host, API key and REST URL unchanged, with a default client |
| Misp.NewInsecureCon | misp/misp.go:299-318 | The same protocol check and panic; otherwise the same four fields unchanged, with a client that skips certificate verification |
| Misp.QueryTagsDistinct | misp/misp.go:64-78 | No two fields of an event query, nor of an attribute query, share a JSON key |
| Misp.EncodeEventQuery | misp/misp.go:64-78 | The encoded event query is an object whose keys are exactly the thirteen struct tags, in field order |
| Misp.EncodeAttributeQuery | misp/misp.go:183-194 | The encoded attribute query is an object whose keys are exactly the ten struct tags, in field order |
| Misp.EventQueryRoundTrip | misp/misp.go:64-87 | Reading every field of an encoded event query back by its key gives the query back |
| Misp.AttributeQueryRoundTrip | misp/misp.go:183-203 | Reading every field of an encoded attribute query back by its key gives the query back |
| Misp.PrepareEvent | misp/misp.go:81-87 | The body of an event search is an object with the single key "request", whose value decodes back to the query |
| Misp.PrepareAttribute | misp/misp.go:197-203 | The body of an attribute search is an object with the single key "request", whose value decodes back to the query |
| Misp.UnsetFiltersAreSent | misp/misp.go:64-78 | An event query with only `last` set still carries all thirteen keys; for example `value` holds "" and `searchall` holds 0 |
| Misp.Prepare | misp/misp.go:39-42 | The request body of an event or attribute query holds, under "request", a value that decodes back to that query; any other query's prepared body is sent as it is |
| Misp.ParseTimestamp | misp/misp.go:114-120 | Returns the value ParseInt reads, always a 64-bit integer; panics with the raw string exactly when ParseInt fails; a `%d` rendering of any 64-bit n gives n |
| Misp.RelatedEventTimestamp | misp/misp.go:114-120 | A related event's timestamp is its raw timestamp string read as 64-bit seconds; panics when that string does not parse |
| Misp.EventTimestamp | misp/misp.go:149-155 | An event's timestamp is its raw timestamp string read as 64-bit seconds; panics when that string does not parse |
| Misp.AttributeTimestamp | misp/misp.go:244-250 | An attribute's timestamp is its raw timestamp string read as 64-bit seconds; panics when that string does not parse |
| Misp.TimestampRejects | misp/misp.go:115-118 | An empty timestamp, or one with a character other than a digit (or one leading sign), panics |
| Decimal.ParseInt64 | misp/misp.go:115 | A successful parse is the value of an optional sign followed by at least one digit and nothing else, and that value fits in 64 bits |
| Decimal.ParseAcceptsInRange | misp/misp.go:115 | Conversely, every optional sign followed by digits whose value fits in 64 bits parses to that value, with a '+' sign or leading zeros as well |
| Decimal.ParseAcceptsSignAndZeros | misp/misp.go:115 | "+5" parses to 5 and "-007" to -7 |
| Decimal.ParseIntToDecimal | misp/misp.go:115 | ParseInt accepts the base-10 rendering of every 64-bit integer and gives that integer back |
| Decimal.IntToDecimal | misp/misp.go:24 | `%d` writes at least one character: a '-' exactly for a negative number, then digits only |
| Decimal.IntToDecimalInjective | misp/misp.go:24 | Distinct integers have distinct `%d` renderings |
| Decimal.ParseRejectsNoDigits | misp/misp.go:115-118 | The empty string and a lone sign do not parse |
| Decimal.ParseRejectsNonDigit | misp/misp.go:115-118 | A string with a non-digit anywhere except a leading sign does not parse |
| Decimal.ParseRejectsOutOfRange | misp/misp.go:115-118 | A well-formed number outside the 64-bit range does not parse |
| Misp.IterEmpty | misp/misp.go:53-57 | The empty response yields nothing |
| Misp.IterEvents | misp/misp.go:168-177 | Yields one object per element of the response array, the i-th being the i-th wrapper's Event, in array order |
| Misp.IterAttributes | misp/misp.go:216-225 | Yields one object per element of Response.Attribute, the i-th being the i-th attribute, in array order |
| Misp.Iter | misp/misp.go:46-48 | Iterating any response yields exactly the sequence that response holds, in order |
| Misp.SearchURL | misp/misp.go:331 | The search URL is the protocol, "://", the host, '/', then the kind followed by the REST URL, with nothing else |
| Misp.SearchURLShape | misp/misp.go:331 | The search URL starts with "http://" or "https://" as the protocol says, and after "proto://host/" reads the kind followed by the REST URL |
| Misp.SearchURLsDiffer | misp/misp.go:331 | Attribute and event searches on one connection go to different URLs |
| Misp.SearchRequest | misp/misp.go:332-338 | A search is a POST to the search URL carrying the API key as Authorization and JSON as Content-Type and Accept, whose body decodes back to the query |
| Misp.BodyKeptVerbatim | misp/misp.go:357 | The message of a refused search holds the reply body byte for byte |
| Misp.LogRequestAsWritten | misp/misp.go:273-281 | As written, logging a request panics unless a proxy applies to it: with the proxy lookup's error, or on the nil proxy URL of a request that goes direct |
| Misp.LogRequest | misp/misp.go:273-277 | With the nil-URL panic corrected, logging panics exactly when the proxy lookup fails, carrying its error |
| Misp.SendSearch | misp/misp.go:331-358 | Sending panics exactly when the body cannot be read; no error exactly on status 200, with the body returned; an empty body with any error; a non-200 status gives MispError with that status and the raw body; a client failure is returned as the error |
| Misp.PostSearchAsWritten | misp/misp.go:330-359 | As written, a URL that building the request rejects returns that error with an empty body; a request that builds, when no proxy applies to it or the proxy setting does not parse, panics before it is sent; through a proxy it is sent as SendSearch states |
| Misp.PostSearch | misp/misp.go:330-359 | With the logging corrected, a URL that building the request rejects returns that error with an empty body; a request that builds panics with the proxy lookup's error when the setting does not parse, and is otherwise sent as SendSearch states |
| Misp.DirectSearchPanics | misp/misp.go:273-281 | As written, a search whose request builds and goes direct always panics on the nil proxy URL; corrected, it panics only when the body cannot be read |
| Misp.LoggingCorrectionAgrees | misp/misp.go:273-281 | The corrected post and the post as written agree whenever the request is rejected when built, a proxy applies, or the proxy setting does not parse |
| Misp.Search | misp/misp.go:364-393 | With the logging corrected, an attribute response only for an attribute query and an event response only for an event query; any other query, and a URL that building the request rejects, give the empty response; panics only on a proxy setting that does not parse, an unreadable body or an undecodable 200 body, and always on the first two once the request builds |
| Misp.SearchSendsOneRequest | misp/misp.go:364-393 | The outcome of a search depends only on the reply to the single POST of the query to the URL of its kind ("attributes" or "events") |
| Misp.Kind | misp/misp.go:366-381 | An attribute query searches "attributes" and an event query searches "events" |
| Misp.SearchYieldsDecoded | misp/misp.go:364-391 | With the logging corrected, once the request builds and the proxy lookup succeeds, a 200 reply that decodes gives the response of the query's kind, which yields exactly the decoded objects in order; one that does not decode panics |
| Misp.SearchFailureIsEmpty | misp/misp.go:368-372 | With the logging corrected, a URL that building the request rejects, or, once the proxy lookup succeeds, a client failure or a non-200 status, gives the empty response, the same as a search that finds nothing |
| Config.Config.constructor | dependencies/toolbox/config/config.go:11-12 | A configuration holds exactly the entries it is built from |
| Config.Config.Get | dependencies/toolbox/config/config.go:62-68 | No error exactly when the key is present, with its value; for an absent key, Nil and ErrNoSuchKey |
| Config.Config.GetString | dependencies/toolbox/config/config.go:70-76 | An absent key gives "" and ErrNoSuchKey; a stored string is returned with no error; any other stored value panics |
| Config.Config.GetRequired | dependencies/toolbox/config/config.go:81-88 | Returns the stored value exactly when the key is present; otherwise the program exits with status 1 |
| Config.Config.GetRequiredString | dependencies/toolbox/config/config.go:90-92 | Returns exactly when the key holds a string, giving that string; an absent key exits with status 1 and a non-string value panics |
| Config.Config.Set | dependencies/toolbox/config/config.go:117-119 | The key now maps to the value, Get finds it with no error, and every other key's lookup is unchanged |
| Config.RequiredAgreesWithGet | dependencies/toolbox/config/config.go:81-88 | GetRequired returns exactly when Get reports no error, and returns the same value |
| Config.RequiredStringAgreesWithGetString | dependencies/toolbox/config/config.go:70-92 | GetRequiredString returns s exactly when GetString returns s with no error; it exits exactly where GetString reports a missing key |
| Log.Normalize | dependencies/toolbox/utils/log/log.go:38-49 | The level installed is always one of the four constants: the requested level if it is one, LInfo otherwise |
| Log.Threshold | dependencies/toolbox/utils/log/log.go:9-18 | Each severity is gated by one of the four level constants |
| Log.ThresholdsIncrease | dependencies/toolbox/utils/log/log.go:9-18 | LDebug < LInfo < LError < LCritical: the constants strictly increase with severity |
| Log.TransitionsKeepLevelsValid | dependencies/toolbox/utils/log/log.go:36-55 | Setting and restoring keep the current level and the backup among the four constants |
| Log.RestoreUndoesSet | dependencies/toolbox/utils/log/log.go:36-55 | SetLogLevel followed by RestoreLogLevel brings back the level in force before |
| Log.RestoreIdempotent | dependencies/toolbox/utils/log/log.go:53-55 | A second RestoreLogLevel changes nothing |
| Log.Logger.constructor | dependencies/toolbox/utils/log/log.go:20-25 | Once the package is initialised, the current level and the backup are both LInfo |
| Log.Logger.InitLogger | dependencies/toolbox/utils/log/log.go:28-33 | Has the same effect on both level variables as SetLogLevel |
| Log.Logger.SetLogLevel | dependencies/toolbox/utils/log/log.go:36-50 | The backup takes the old current level; the current level becomes the requested one if it is a known level and LInfo otherwise; the invariant is kept |
| Log.Logger.RestoreLogLevel | dependencies/toolbox/utils/log/log.go:53-55 | The current level becomes the backup and the backup is unchanged; the invariant is kept |
| Log.GateMonotone | dependencies/toolbox/utils/log/log.go:63-117 | A level that lets a severity through lets every higher severity through |
| Log.GateSelectsSeverities | dependencies/toolbox/utils/log/log.go:63-117 | At a known level, Critical always emits, and a severity emits exactly when it is at or above the severity whose constant is the level |
| Log.DebugImpliesAll | dependencies/toolbox/utils/log/log.go:63-117 | When Debug emits, Info, Error and Critical emit too; Critical always emits |
| Log.Logger.Emits | dependencies/toolbox/utils/log/log.go:63-117 | Debug, Info, Error and Critical (and their formatting variants) emit exactly when the current level is at most their own constant; in a valid state Critical always emits |

## Findings

| source | as written | input that shows it | evidently intended | confidence | as-written member | corrected member |
|---|---|---|---|---|---|---|
| misp/misp.go:273-281 | `logRequest` calls `proxyURL.String()` on the result of `http.ProxyFromEnvironment`. That result is a nil URL with a nil error whenever no proxy applies to the request. | Any search whose URL `http.NewRequest` accepts (misp/misp.go:332-335), while no proxy is configured for the search URL: HTTP_PROXY and HTTPS_PROXY unset, or the host listed in NO_PROXY. The nil-pointer call panics before `Client.Do` (misp/misp.go:339, 343). | Log that the request goes direct and send it; panic only when the proxy setting does not parse. | not executed; high, from the documented nil result of `http.ProxyFromEnvironment` and a pointer-receiver `String` that reads its receiver | Misp.PostSearchAsWritten, Misp.DirectSearchPanics | Misp.PostSearch, Misp.LoggingCorrectionAgrees |

## Left out

- `TextExport` and the three-argument `NewInsecureCon` are called by misp/misp_test.go but do not exist in misp/misp.go.
- `LoadConfig` (misp/misp.go:285-295) and `config.Load` are file input and are not modelled. A configuration is built from its entries.
- `config.Loads` and `Dumps` are not modelled. They are JSON encoding of the whole store.
- `GetRequiredInt64` and `GetRequiredUint64` are not modelled. They convert float64 values.
- Config's `Debug` printing is not modelled; it is output only.
- Reading the configuration cannot change it: the lookups are functions. The nil-map panic of `Set` on a configuration that was never made is not modelled.
- Transport construction in `NewInsecureCon` is not modelled: dialer, timeouts, proxy and TLS settings. The client is recorded as `DefaultClient` or `InsecureClient`.
- Misp.LogRequest: the proxy lookup from the environment is a `Proxy` parameter. The lines it writes to the log are not modelled.
- Misp.PostSearch: which URLs `http.NewRequest` rejects is a `RequestCheck` parameter; the URL grammar is not modelled. A failure of `Client.Do` is the `ClientFailure` outcome of the transport.
- Misp.PostSearch: the request header is modelled as the ordered list of the three headers set.
- Misp.PostSearch: the body is modelled as the JSON tree rather than its bytes.
- Misp.Prepare: the panic when `json.Marshal` fails is not modelled. The query structs hold only strings and an int8, so encoding them cannot fail, and `Prepare` is total.
- Misp.Prepare: a query type other than the two defined ones (`OtherQuery`) carries its prepared body as given.
- Misp.Search: the error written with `log.Error` before the empty response is returned is not modelled.
- Misp.NewCon, Misp.NewInsecureCon and Config.Config.GetRequired: the messages written with `log.Errorf` before a panic or exit are not modelled. Only the cause is recorded.
- Misp.Iter: the goroutine and channel are not modelled. Iteration yields the sequence a consumer of the channel would receive, in order.
- Misp.ParseTimestamp: the model gives whole seconds since the epoch, not the `time.Time` that `time.Unix` builds.
- Decimal.ParseInt64: ParseInt's error kinds (syntax, range) are merged into `None`. Both panic in the callers.
- JSON decoding of a reply is a parameter. Field matching and case-insensitive key matching in `encoding/json` are not modelled.
- Go strings are byte strings. A reply body becomes a message with one character per byte.
- Misp.EventQueryRoundTrip, Misp.AttributeQueryRoundTrip and Misp.Prepare: query strings are modelled as Unicode text, while Go strings are bytes. `json.Marshal` replaces invalid UTF-8 in a query field with U+FFFD, so such a query does not read back as it was; the round trips hold for fields that are valid UTF-8.
- Misp.Search: it is the corrected half of the "## Findings" row, built on the corrected `Misp.PostSearch`. As written, a search whose request builds and goes direct panics before it is sent (`Misp.DirectSearchPanics`).
- Log.Logger.InitLogger: the `log.SetFlags` call is not modelled. That call sets output flags when the requested level is at most LDebug.
- Log output is not modelled: message formatting, `logMessage`, `log.Output`, stack traces and `DontPanic`/`Panic`. A gate is modelled by whether its message would be emitted (`Log.Logger.Emits`).
