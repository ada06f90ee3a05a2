# backend_subject: the gating, decorator and endpoint logic in Dafny

This project models the request-handling core of the `backend_subject` Go service, which serves CRUD operations over *Subject* records. It covers three layers:

- **The HTTP transport** (`internal/transport.go`):
  - the error → status table `codeFrom`;
  - the Authorization-header shape check and the token-claim checks;
  - the role gate and the order of checks in the four request decoders;
  - the response and error encoders, writing to an `http.ResponseWriter`;
  - the CORS wrapper `accessControl`;
  - the route table of `MakeHTTPHandler`.
- **The decorators** (`internal/middleware.go`): a logging middleware and an instrumenting middleware over the four-method `Service` interface, composed by `NewService` (`internal/service.go`) as base → logging → instrumenting.
- **The go-kit endpoints** (`internal/endpoint.go`): the server-side closures and the client-side `Endpoints` methods.

The files and modules are:

| file | module | contents |
|---|---|---|
| `errors.dfy` | `Errors` | Go errors: the six sentinels, opaque errors, `%w` wrapping and joining. `errors.Is` as a search of the wrap tree, proved equal to membership in the set of wrapped sentinels. |
| `app.dfy` | `App` | The eight-field `Subject` record. |
| `strings.dfy` | `Strings` | `strings.Split` with a one-character separator, with its round trip against `Join`. `strings.ToLower`, as far as it can make a string equal an ASCII word. |
| `strconv.dfy` | `Strconv` | `strconv.Atoi` with 64-bit bounds, range and syntax errors, and its round trip with `Itoa`. |
| `middleware.dfy` | `Middleware` | The `Service` chain as a value, with the logger, the request counter and the latency histogram as classes whose fields the calls update. The persistence service at the bottom is an oracle (`Store`). |
| `endpoint.dfy` | `Endpoint` | Request and response structs, the four server endpoints, the client methods, and the client-over-server round trip. |
| `transport.dfy` | `Transport` | Decoders, status mapping, encoders, `ResponseWriter`, CORS, server and router. |

Design decisions:

- **The middleware structs become values.** The Go middleware structs never change their own fields. What changes is the logger, counter and histogram they point to. So `Service` is a datatype and those three objects are classes.
  - Their methods are proved against the state functions `Observed` and `Unobserved`.
  - One logger, counter or histogram may be shared by several layers. A call then leaves one record or count per layer that uses it (`LogUses`, `CounterUses`, `HistogramUses`).
  - Each decorator's four Go methods share one body. The model writes that body once per decorator, as `Invoke` over a `Call`. The four interface methods on `Service` call it.
- **Closures become values.** A go-kit `endpoint.Endpoint` is a closure over the service. It is modelled by the operation it was made for, as `Endpoint(op, service)`.
- **Foreign libraries become oracle parameters.** JWT verification (`jwt.Parse` with the HMAC key function) and the JSON body decoder are the functions of `Transport.Oracle`. Each returns a value or an error.

## Model

| member | source | states |
|---|---|---|
| Errors.IsIffSentinel | internal/transport.go:170-177 | `errors.Is(err, target)` holds exactly when target occurs somewhere in the wrap tree of err. |
| Strings.Split | internal/transport.go:185 | The pieces are one more than the separators, contain no separator, and join back to the input. |
| Strings.SplitJoin | internal/transport.go:185-186 | Split undoes Join on separator-free pieces, so the pieces of a header are unique. |
| Strings.ToLower | internal/transport.go:92 | The result has the input's length, and each character is the lower case of the input's character. |
| Strings.ToLowerEqualsWord | internal/transport.go:92 | ToLower(s) equals a lower-case ASCII word iff s spells it letter by letter, in either case or with U+0130 for i and U+212A for k. |
| Strconv.Atoi | internal/transport.go:134 | A success lies within int64 and is the value of at least one digit, with an optional sign, so a lone "+" or "-" fails. A failure is a plain error. |
| Strconv.AtoiDecimal | internal/transport.go:134 | Conversely, every decimal numeral within int64 parses to its value, with or without a sign and with leading zeros allowed. |
| Strconv.AtoiItoa | internal/transport.go:134 | Atoi reads back every int64 that Itoa writes. |
| Strconv.AtoiEmpty | internal/transport.go:133-134 | A missing path id (the empty string) fails with "invalid syntax". |
| Middleware.LvsInjective | internal/middleware.go:87 | Two label tuples are equal iff they have the same method name and the same error flag. So each method counts under its own labels. |
| Middleware.Bump | internal/middleware.go:88 | Adding n under a label tuple raises its count by n and leaves every other tuple's count unchanged. |
| Middleware.Logger.Info | internal/middleware.go:30-33 | Appends exactly one record with the message and the error. |
| Middleware.Counter.Add | internal/middleware.go:88 | Adds delta under the labels, and nothing else. |
| Middleware.Histogram.Observe | internal/middleware.go:89 | Adds one observation under the labels, and nothing else. |
| Middleware.Service.Invoke | internal/middleware.go:28-123 | A call through any chain returns the base store's answer unchanged. Each logging layer leaves one record of the method's log message and the returned error. Each instrumenting layer adds one count and one latency observation under (method, error ≠ nil). Nothing else changes. |
| Middleware.LoggingMiddlewareImpl.Invoke | internal/middleware.go:28-66 | Returns the inner service's result and error unchanged, then appends one record naming the method and carrying that error. |
| Middleware.InstrumentingMiddlewareImpl.Invoke | internal/middleware.go:85-123 | Returns the inner result unchanged, then adds 1 to the counter and makes one latency observation, both under [method, name, error, "true"/"false" for err ≠ nil]. |
| Middleware.LoggingMiddlewareWraps | internal/middleware.go:19-26 | `LoggingMiddleware(logger)(next)` adds one logging layer writing to logger in front of next. The base, the counters and histograms, and every other use count are those of next. |
| Middleware.InstrumentingMiddlewareWraps | internal/middleware.go:75-83 | `InstrumentingMiddleware(c, h)(next)` adds one instrumenting layer counting into c and observing into h in front of next. The base, the loggers and every logger's use count are those of next. |
| Middleware.Service.GetSubjects | internal/service.go:15 | GetSubjects through the chain: the store's subjects and error, observed by every layer. |
| Middleware.Service.AddSubject | internal/service.go:16 | AddSubject through the chain: the store's error, observed by every layer. |
| Middleware.Service.UpdateSubject | internal/service.go:17 | UpdateSubject through the chain: the store's error, observed by every layer. |
| Middleware.Service.DeleteSubject | internal/service.go:18 | DeleteSubject through the chain: the store's error, observed by every layer. |
| Middleware.NewService | internal/service.go:31-39 | The layers are instrumenting, then logging, then the store. The chain uses the given logger, counter and histogram, each exactly once. |
| Middleware.NewServiceObservesOnce | internal/service.go:34-36 | Through NewService's chain, one call leaves exactly one log record, one count and one observation for that call. Counts under every other label tuple are unchanged. |
| Endpoint.Endpoint.CallFor | internal/endpoint.go:102-131 | Each closure calls the service method of its own operation. |
| Endpoint.Endpoint.Outcome | internal/endpoint.go:102-131 | The transport error is always nil. The response is the operation's own struct and carries exactly what the store answered for the request's subject or id. |
| Endpoint.Endpoint.Serve | internal/endpoint.go:102-131 | Calling the closure yields Outcome, and the service's decorators observe the call. |
| Endpoint.MakeGetSubjectsEndpoint | internal/endpoint.go:102-107 | Whatever the request, the GET closure over s answers with the store's subjects and error, and a nil transport error. |
| Endpoint.MakePostSubjectEndpoint | internal/endpoint.go:109-115 | The POST closure over s adds the request's subject. Its response carries the store's error, and the transport error is nil. |
| Endpoint.MakePutSubjectEndpoint | internal/endpoint.go:117-123 | The PUT closure over s updates with the request's subject. Its response carries the store's error, and the transport error is nil. |
| Endpoint.MakeDeleteSubjectEndpoint | internal/endpoint.go:125-131 | The DELETE closure over s deletes the request's id. Its response carries the store's error, and the transport error is nil. |
| Endpoint.MakeServerEndpoints | internal/endpoint.go:16-23 | All four slots hold the closures for their own operations, over the same service. |
| Endpoint.Endpoints.GetSubjects | internal/endpoint.go:25-33 | The client GetSubjects returns the unwrapped response of the GET endpoint, called with an empty request. |
| Endpoint.Endpoints.PostSubject | internal/endpoint.go:35-43 | The client PostSubject returns the unwrapped response of the POST endpoint. |
| Endpoint.Endpoints.PutSubject | internal/endpoint.go:45-53 | The client PutSubject returns the unwrapped response of the PUT endpoint. |
| Endpoint.Endpoints.DeleteSubject | internal/endpoint.go:55-63 | The client DeleteSubject returns the unwrapped response of the DELETE endpoint. |
| Endpoint.RoundTrip | internal/endpoint.go:25-63 | For MakeServerEndpoints(s), each client method returns what the matching method of s returns. |
| Transport.CodeFrom | internal/transport.go:168-181 | Stated on the set of wrapped sentinels, first match wins: not-found → 404; already-exists or inconsistent-IDs → 400; forbidden → 403; precondition-required → 428; anything else, bad-routing included → 500. |
| Transport.CodeFromIsError | internal/transport.go:168-181 | Every status codeFrom returns is an error status. |
| Transport.CodeFromWrapped | internal/transport.go:168-181 | Wrapping with %w keeps the status. |
| Transport.ExtractTokenMetadata | internal/transport.go:196-222 | A parse failure is passed on. A valid map-claims token succeeds iff both `username` and `role` are string claims, and then yields them. A token that parses without being both valid and map-claims yields empty credentials. |
| Transport.GetPermissionParams | internal/transport.go:184-194 | A header without exactly one space fails. A well-shaped header succeeds exactly when its second piece passes ExtractTokenMetadata, and then yields its credentials. Every failure is ErrPreconditionRequired. |
| Transport.GetPermissionParamsToken | internal/transport.go:185-189 | For `scheme + " " + token` with no other space, exactly token is handed to the token check, whatever the scheme. |
| Transport.MalformedAuthorization | internal/transport.go:185-188 | An empty header, a single word and a double space all yield ErrPreconditionRequired. |
| Transport.IsAdministrator | internal/transport.go:92 | The role test of all three gated decoders (also lines 111 and 128) accepts exactly the 13-letter spellings of "administrator" in any mix of cases, or with U+0130 for an i. |
| Transport.AdministratorExamples | internal/transport.go:92 | "Administrator" passes the role check and "admin" does not. |
| Transport.Gate | internal/transport.go:88-94 | A failed header or token check gives ErrPreconditionRequired. Otherwise the request passes iff the role passes. Any other failure is ErrForbidden. |
| Transport.DecodeGetSubjects | internal/transport.go:87-96 | Succeeds iff the gate passes, and then yields a request with empty User and Role. A failure is the gate's error: ErrPreconditionRequired or ErrForbidden. |
| Transport.DecodePostSubject | internal/transport.go:98-104 | Succeeds iff the body decodes, and then yields a create request with the decoded subject. A failure is the body decoder's own error. |
| Transport.DecodePutSubject | internal/transport.go:106-121 | Succeeds iff the gate passes and the body decodes, and then yields an update request with the decoded subject. A failure is the gate's error if the gate fails, and otherwise the body decoder's. |
| Transport.PathId | internal/transport.go:132-133 | The id lookup reports ok iff the path variables hold "id". It yields that value if so, and the zero value "" otherwise. |
| Transport.DecodeDeleteSubject | internal/transport.go:123-142 | The gate, then Atoi's error or the parsed id. ErrBadRouting is never returned. |
| Transport.Decode | internal/transport.go:53-79 | Each route's decoder yields only requests its endpoint accepts. |
| Transport.GateFirst | internal/transport.go:87-142 | On the three gated routes, a bad header gives ErrPreconditionRequired, and a non-administrator gives ErrForbidden whatever the body or path. |
| Transport.PostIgnoresHeader | internal/transport.go:98-104 | The create route's outcome depends on the body alone. |
| Transport.ResponseWriter.Set | internal/transport.go:162 | Sets one header and changes neither status nor body. |
| Transport.ResponseWriter.WriteHeader | internal/transport.go:163 | The first status written wins. |
| Transport.ResponseWriter.Write | internal/transport.go:164 | Appends the payload, establishing status 200 if none was written. |
| Transport.ErrorReply | internal/transport.go:158-167 | An error is written with codeFrom's status, never 200, and `{"error": err.Error()}`. |
| Transport.EncodeError | internal/transport.go:158-167 | Sets the JSON content type, writes codeFrom(err) as status unless one was already written, and writes the error payload. A nil error is excluded by the parameter type. |
| Transport.ResponseReply | internal/transport.go:149-156 | As written, every response is encoded with status 200 and the response struct as body. Corrected, the status is 200 iff the response's error is nil. A non-nil error is written as that error's reply. |
| Transport.EncodeResponse | internal/transport.go:149-156 | For either variant, writes ResponseReply: the JSON content type, the status and the payload. |
| Transport.ServiceErrorHiddenAsWritten | internal/transport.go:149-153 | As written, a not-found service error goes out with status 200. Corrected, it goes out with 404. |
| Transport.Server.Reply | internal/transport.go:53-58 | A decoder failure is written with codeFrom's status and the error's message. Otherwise the endpoint's response is written. The response goes out with 200 and the struct as body, except that in the corrected variant a service error goes out with its own status and message. |
| Transport.Server.ServeHTTP | internal/transport.go:53-58 | Writes the decoder's error or the endpoint's encoded response. The service is observed exactly when decoding succeeds and is untouched otherwise. |
| Transport.ServerStatus | internal/transport.go:87-181 | On gated routes, a bad header gives 428 and a non-administrator gives 403. As written, the status is 200 iff decoding succeeded. Corrected, it is 200 iff decoding succeeded and the service returned no error. |
| Transport.DeleteBadIdStatus | internal/transport.go:132-137 | A DELETE whose id is not a decimal int64 gets 500. |
| Transport.WithCors | internal/transport.go:29-35 | Sets Allow-Origin to the request's Origin when that is non-empty and to "*" otherwise, plus the fixed Allow-Methods and Allow-Headers strings. Every other header is kept. |
| Transport.Handler.ServeHTTP | internal/transport.go:27-43 | The CORS headers are always set. OPTIONS stops there: no status, body or service change. Any other method gets exactly the inner server's reply. The service is observed iff decoding succeeds, and is untouched otherwise. |
| Transport.Route | internal/transport.go:53-79 | A DELETE route match carries a non-empty, slash-free id with path "/subject/" + id. The other routes carry no variables. A match has the route's own method or OPTIONS. |
| Transport.RoutePrecedence | internal/transport.go:53-81 | The first registered route wins: OPTIONS /subject goes to the create route, not the update route. GET /subject and /metrics are not routes of the subject API. |
| Transport.RouteDelete | internal/transport.go:74 | Every DELETE of /subject/<id> reaches the delete route with that id. |
| Transport.RoutedDeleteHasId | internal/transport.go:132-140 | Behind the router, the delete decoder's id lookup always succeeds. |
| Transport.Router.HandlerFor | internal/transport.go:53-79 | Each route's handler is the CORS-wrapped server of the closure for its own operation over the service. |
| Transport.Router.ServeHTTP | internal/transport.go:45-84 | An unmatched request leaves the writer and the service untouched. A matched OPTIONS request gets only the CORS headers. Any other matched request also gets the JSON content type and its route's reply, and the service is observed iff the route's decoder succeeds. |
| Transport.MakeHTTPHandler | internal/transport.go:45-84 | Each route's handler uses the slot of MakeServerEndpoints(s) for its own operation. |

## Left out

- The persistence methods of `userService` (internal/service.go:42-160): SQL over pgx, connection setup and transactions. `Middleware.Store` replaces them with fixed answers per context and argument. The database's state, and so any relation between an insert and a later list, is not modelled.
- `app.GetEnv` (the HMAC secret): app/env is not part of this model.
- JWT parsing and the signature and algorithm checks: these are the oracle `Oracle.parseToken`. This includes the `fmt.Printf` inside the key function (internal/transport.go:200).
- The `fmt.Printf` diagnostics for a missing `username` or `role` claim (internal/transport.go:212 and 217): console output, dropped.
- JSON encoding and decoding: the body decoder is `Oracle.decodeSubject`. Written bodies are `Payload` values, not bytes, and a failing JSON encoder is not modelled.
- Timing: the `took` log field and the latency values are clock readings. Only the fact of an observation and its labels are kept. So the ordering claim "the metrics latency includes the logging time" is captured only as the fixed layer order (`Middleware.NewService`).
- Library plumbing:
  - the go-kit server's `ServerErrorHandler` logging (`UnitLogHandler` is not part of this model);
  - mux's own 404/405 replies and path cleaning;
  - the Prometheus `/metrics` handler.

  For these, `Transport.Router.ServeHTTP` reports `handled == false` and writes nothing.
- Header details: canonical header keys and multiple values per key are not modelled. A header map holds one value per key, as `Header.Get` returns it.
- The implicit 200 that net/http sends when a handler writes nothing, such as the CORS preflight: the model leaves the status unwritten.
- Strings.ToLower: lowers only A-Z, U+0130 and U+212A, the characters Go lowers to ASCII letters. Other characters that Go lowers to non-ASCII characters are kept as they are. This makes no difference to the comparison with "administrator".
- Strconv.Atoi: models the result and the error kinds. The error text does not reproduce `strconv.Quote` escaping of the input.
- The type assertions `request.(postSubjectRequest)` and friends in internal/endpoint.go panic on a request of another type. The model has no panics, so `Endpoint.Accepts` (for the server closures) and `Endpoint.Endpoints.Valid` (for the client methods' assertions on responses) are preconditions. The decoders and `MakeServerEndpoints` establish them.
- Concurrency: the per-request goroutines and the metrics library's synchronisation are not modelled.
- The `AddSubject` insert's argument/placeholder mismatch (internal/service.go:111-112) belongs to the persistence code above and is not modelled.

Two behaviours of the code that may not be intended, modelled as written:
- A token that parses but is not both valid and map-claims yields empty credentials instead of failing. It then fails the role check with 403. With jwt/v4 this branch cannot be reached, because `jwt.Parse` always decodes into `MapClaims` and returns a nil error only for a valid token. The model reaches it only because `Oracle.parseToken` is left unconstrained.
- A service error reaches the client as status 200 with the response struct as body. This is the `AsWritten` variant of `Transport.Variant`. The `Corrected` variant gives each response struct an `error()` method (see Findings). `Transport.MakeHTTPHandler` takes the variant as a parameter.

## Findings

| source | as written | input that shows it | evidently intended | confidence | as-written member | corrected member |
|---|---|---|---|---|---|---|
| internal/transport.go:145-153 | None of the response structs in internal/endpoint.go declares an `error() error` method, so `response.(errorer)` never succeeds. Every service error is then encoded as status 200, with the response struct as body. | `DeleteSubjectResponse{Err: ErrNotFound}` is written with 200 (lemma `Transport.ServiceErrorHiddenAsWritten`). | Each response returns its `Err` from `error()`, so encodeError writes codeFrom's status (404 here, 500 for the store's own errors). | not executed; high | Transport.ErrorerAsWritten | Transport.Errorer |
