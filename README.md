# Headers middleware: a verified model

This model covers the decision logic of the RoadRunner `headers` HTTP middleware, found in `plugin.go`. For each request, the handler that `Middleware(next)` returns works through these steps in order:

1. When the request context names a tracer, it lets the tracing propagator write its fields into the request headers.
2. It adds every configured request header with `Header.Add`, so a configured value comes after the values already there.
3. It sets every configured response header with `Header.Set`, which replaces any earlier values.
4. If a CORS block is configured, it does one of two things:
   - An `OPTIONS` request is answered in place by `preflightRequest`. That writes the CORS headers and status 200, and the next handler never runs.
   - Any other request gets the CORS headers from `corsHeaders`.
5. Unless step 4 answered the request, it calls the next handler.

The model has these modules:

- `Wrappers`: the `Option` type.
- `Strconv`: `strconv.Itoa` and `strconv.FormatBool`, with decimal rendering proved by a round trip.
- `Http`:
  - the header multimap as a class `Header` with `Add` and `Set`;
  - a `ResponseWriter` that records the status written;
  - a `Request`;
  - the next `Handler`, seen through the number of times it is invoked and the request and response headers it is handed;
  - the order-independent functions `AddAll` and `SetAll`, which specify the `for k, v := range` loops.
- `Cors`:
  - the CORS configuration;
  - the header names;
  - the write steps shared by both paths;
  - the relational specifications `Preflighted` and `Decorated`. Each states the required entry for every name it writes, and that all other entries are unchanged.
- `Headers`: the plugin class with `PreflightRequest`, `CorsHeaders` and `Middleware`. It also holds the predicate `Served`, which states one whole pass of the middleware, and the lemmas about it.
- `Scenarios`: two concrete requests driven through `Middleware`.

Go visits map entries in a random order. Each loop picks its next key by a non-deterministic choice, and it is proved equal to `AddAll`/`SetAll` whatever the order. `ServedDeterministic` shows that the outcome is unique.

## Model

| member | source | states |
|---|---|---|
| Strconv.FormatNat | plugin.go:125 | the rendering of a natural number is a non-empty string of digits with no leading zero except for "0" itself |
| Strconv.FormatNatRoundTrip | plugin.go:125 | reading the rendered digits back in base 10 gives the number |
| Strconv.Itoa | plugin.go:125 | `strconv.Itoa`: a non-negative int is rendered as its base-10 digits with no leading zero; a negative one as "-" followed by the digits of its magnitude |
| Strconv.ItoaInjective | plugin.go:125 | two ints with the same rendering are equal |
| Strconv.FormatBool | plugin.go:121 | `strconv.FormatBool`: the string is "true" exactly when the value is true and "false" exactly when it is false |
| Strconv.DigitChar | plugin.go:125 | the digit character for d < 10 is a digit whose value is d |
| Http.Header.Add | plugin.go:73 | `Header.Add(k, v)` appends v to the values of k; every other name keeps its entry |
| Http.Header.Set | plugin.go:79 | `Header.Set(k, v)` makes the values of k exactly [v]; every other name keeps its entry |
| Http.ResponseWriter.WriteHeader | plugin.go:128 | the first status written is the one the response keeps, and the header map as it is at that first call is what is sent; a later call changes neither |
| Http.Handler.ServeHTTP | plugin.go:92 | invoking the next handler increases its invocation count by one, and the handler receives the request and response headers as they are at the call |
| Http.AddAll | plugin.go:71-75 | after adding every entry of m, each key of m holds its old values followed by its configured value, and every other key is untouched |
| Http.SetAll | plugin.go:77-81 | after setting every entry of m, each key of m holds exactly its configured value, and every other key is untouched |
| Http.AddAllAppendsOnce | plugin.go:71-75 | adding keeps the old values of k as a prefix, in their order, and the configured value occurs exactly once more than before |
| Http.SetAllIdempotent | plugin.go:77-81 | setting the same entries twice gives the same map as setting them once |
| Http.AddAllTwice | plugin.go:71-75 | adding the same entries twice leaves the configured value twice after the old values |
| Http.AddValueByEntries | plugin.go:73 | a map that agrees with one Add under every name is equal to it |
| Http.SetValueByEntries | plugin.go:79 | a map that agrees with one Set under every name is equal to it |
| Http.AddAllStep | plugin.go:72-74 | one more Add for a key not yet visited extends AddAll by that key |
| Http.SetAllStep | plugin.go:78-80 | one more Set for a key not yet visited extends SetAll by that key |
| Cors.SetIfNonEmpty | plugin.go:108-110 | a header is set to the configured string when that string is non-empty and left untouched when it is empty; no other name changes |
| Cors.SetOriginAndHeaders | plugin.go:108-114 | Access-Control-Allow-Origin and Access-Control-Allow-Headers each follow the non-empty rule; no other name changes |
| Cors.SetCredentials | plugin.go:120-122 | Access-Control-Allow-Credentials is untouched when the option is absent and exactly [FormatBool(b)] when it is b; no other name changes |
| Cors.Preflighted | plugin.go:101-129 | the preflight rules. Vary gains Origin, Access-Control-Request-Method and Access-Control-Request-Headers after its old values. Origin, Headers and Methods take the configured string when it is non-empty and are otherwise untouched. Credentials are untouched when unset and exactly ["true"] or ["false"] otherwise. Max-Age is the decimal MaxAge when MaxAge > 0 and otherwise untouched. Every other name keeps its entry |
| Cors.Decorated | plugin.go:132-152 | the normal-path rules. Vary gains Origin after its old values. Origin, Headers and Expose-Headers follow the non-empty rule, and Credentials the tri-state rule. Every other name keeps its entry |
| Cors.PreflightedDeterministic | plugin.go:101-129 | the preflight rules fix the resulting header map uniquely |
| Cors.DecoratedDeterministic | plugin.go:132-152 | the normal-path rules fix the resulting header map uniquely |
| Cors.PathAsymmetry | plugin.go:101-152 | the normal path never touches Access-Control-Allow-Methods or Access-Control-Max-Age; the preflight path never touches Access-Control-Expose-Headers |
| Cors.CredentialsTriState | plugin.go:120-122 | on either path, starting from no credentials header, the header is present exactly when the option is set, and its value is ["true"] or ["false"] to match, so an unset option and false stay distinct |
| Cors.MaxAgeIsDecimal | plugin.go:124-126 | on the preflight path with MaxAge > 0, Access-Control-Max-Age is one base-10 value with no leading zero, and that value reads back as MaxAge |
| Headers.Traced | plugin.go:59-69 | the request headers after tracing: unchanged when the context names no tracer; otherwise every field the propagator writes through its header carrier is set |
| Headers.RequestHeaders | plugin.go:59-75 | the request headers after tracing and then the Add of every configured request header |
| Headers.ResponseHeaders | plugin.go:77-81 | the response headers after the Set of every configured response header, or unchanged when none are configured |
| Headers.IsPreflight | plugin.go:83-84 | a request is answered by the preflight path exactly when a CORS block is configured and the method is OPTIONS |
| Headers.Served | plugin.go:58-92 | one pass: the request headers become RequestHeaders. Without CORS, the response headers become ResponseHeaders, the status is kept and next runs once. For OPTIONS under CORS, Preflighted holds of ResponseHeaders, 200 is written and next never runs. For other methods under CORS, Decorated holds, the status is kept and next runs once |
| Headers.HandedOver | plugin.go:92 | when next runs, it receives the request and response headers as the middleware left them |
| Headers.NextSeesHeaders | plugin.go:71-92 | whenever next runs, every header step is already done. Each configured request header comes after the traced values. Each configured response header the CORS branch does not write is exactly [v]. Under CORS, Vary: Origin has been appended |
| Headers.AddEach | plugin.go:71-75 | the Add loop over the configured request headers, in any visiting order, yields AddAll |
| Headers.SetEach | plugin.go:77-81 | the Set loop over a map of headers, in any visiting order, yields SetAll |
| Headers.Plugin.PreflightRequest | plugin.go:101-129 | three Vary values are appended in the order Origin, Access-Control-Request-Method, Access-Control-Request-Headers. Origin, Headers and Methods follow the non-empty rule. Credentials follow the tri-state rule. Max-Age is set to the decimal MaxAge only when MaxAge > 0. No other name changes. Status 200 is written after all of these, so on a fresh response the headers sent are the complete preflight headers; on a response whose status was already written, nothing more is sent |
| Headers.Plugin.CorsHeaders | plugin.go:132-152 | one Vary: Origin is appended. Origin, Headers and Expose-Headers follow the non-empty rule and Credentials the tri-state rule. No other name changes and no status is written |
| Headers.Plugin.Middleware | plugin.go:58-92 | one pass applies tracing, the request headers, the response headers and then the CORS branch, in that order. The next handler runs exactly once, after all of these and handed their result, except for an OPTIONS request under a CORS block, where it never runs and is left untouched, and the preflight headers are what is sent with the 200. On every other path no headers are sent by the middleware |
| Headers.ServedDeterministic | plugin.go:58-92 | the request headers, response headers, status and call count after one pass are determined by the inputs |
| Headers.RequestHeaderAppended | plugin.go:71-75 | each configured request header is added once after the values already there. When the propagator wrote the same name, its value is followed by the configured one |
| Headers.RequestNilUnchanged | plugin.go:71-75 | with no request headers configured and no tracer, the request headers are unchanged |
| Headers.ResponseHeaderSet | plugin.go:77-81 | a configured response header that the CORS branch does not write ends as exactly [v]; with no response headers configured, such a name is unchanged |
| Headers.CorsAbsentPassesThrough | plugin.go:83-92 | without a CORS block, no CORS header changes beyond the configured response headers, no status is written and next runs exactly once, whatever the method |
| Headers.PreflightShortCircuits | plugin.go:83-88 | an OPTIONS request under a CORS block never reaches next and gets status 200 on a fresh response. Its Vary list gains the three preflight values after those it had |
| Headers.NormalRequestContinues | plugin.go:89-92 | a non-OPTIONS request under a CORS block gains exactly one Vary: Origin, keeps its status and reaches next exactly once |
| Headers.TwoLayers | plugin.go:71-81 | two passes without CORS or a tracer leave the response as one pass does, while each configured request value ends up twice |
| Scenarios.ServeGet | plugin.go:77-92 | a GET under a config with one response header and an origin gets both headers, no Max-Age, and reaches next once |
| Scenarios.ServeOptions | plugin.go:83-129 | an OPTIONS request under the same config gets status 200, Max-Age "86400" and the three Vary values, and never reaches next |

## Left out

- Tracing (plugin.go:59-69): the OpenTelemetry tracer lookup, the span and `TextMapPropagator.Inject` are library calls. They become the parameter `injected`. None means the request context names no tracer. Some(fields) means the fields the propagator writes, each with `Set`, before the static request headers. The span itself, its ending and the replaced request context have no effect on headers and are not modelled.
- `Init` (plugin.go:34-53): configuration loading through `config.Configurer` and the construction of the composite propagator are foreign calls. The model takes the decoded configuration as the `Config` value of a `Plugin`.
- `Name` (plugin.go:96-98): a constant accessor with no logic.
- Header-name canonicalisation in `Header.Add`/`Header.Set`: names are taken to be canonical already. So configured names are distinct after canonicalisation, and each loop writes every name once.
- Headers.Plugin.PreflightRequest: `MaxAge` is an unbounded integer, so Go's 64-bit `int` range is not modelled. The rule is only `MaxAge > 0`, and no value near that limit changes it.
- Http.Handler.ServeHTTP: the downstream handler records the headers it is handed, but its own writes to the response headers or status are not modelled. So the final response maps in `Served` are also the maps next received, and the model says nothing about how a downstream handler could change the configured headers. `WriteHeader` keeps the first status written and does not model body writes or the warning logged for a superfluous call.
- Concurrency across requests: the configuration is read-only once loaded, and every request has its own header maps (`Middleware` requires the request and response maps to be distinct objects).
- A configurable preflight status: the code always writes 200 (plugin.go:128). The model follows the code, not a configurable success status.
- Step order: the code applies tracing, request headers and response headers before the CORS branch, so a preflight answer also carries the configured response headers. The model follows this order, not one in which CORS runs first.
- Headers.ResponseHeaderSet: the exact-[v] promise holds only for names the CORS branch does not write. A configured response header named Vary, or named like one of the Access-Control headers, may be extended or overwritten by the CORS step that follows.
