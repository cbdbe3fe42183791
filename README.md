# go-saiservice dispatcher, modelled in Dafny

go-saiservice is a Go runtime for small microservices. A service registers
named handlers, each a function of body data, metadata and GET data that
returns a result, a status and an optional error. Handlers may carry local
middlewares, and the service may carry global ones. Messages come in over
HTTP, WebSocket, a raw socket or the command line. Each is a JSON envelope
`{"method", "metadata", "data"}`, and the method name selects the handler.

The model covers:

- **Middleware composition.** `applyMiddleware` wraps the handler in one
  closure per middleware. Each new closure is wrapped around the closure
  current at that moment, first for the globals and then for the locals,
  each in declaration order. The outermost closure therefore runs the
  locals in reverse declaration order, then the globals in reverse
  declaration order, then the handler.
- **Dispatch.** `processPath` looks up the handler by method name. An
  unknown method gets `(nil, 404, "no handler")`.
- **Transport adapters.** The model gives, for each transport, what one
  message turns into: the HTTP status, headers and body; the WebSocket and
  socket replies; the CLI output or error. This includes the status-210
  convention for raw-byte downloads and the two token checks.
- **Client IP.** `getHttpIP` tries a fixed fallback order.
- **Configuration lookups.** `Service.GetConfig` returns only string, int
  and bool leaves. `Context.GetConfig` returns any leaf, and returns the map
  itself when the path ends on one.
- **The authentication middleware.** It calls `next` only after the remote
  authentication service accepts a check request.
- **The example service.** Its two handlers and two logging middlewares.

Files, one module each:

- `values.dfy`: Go `any` as `Value`, the handler outcome, the envelope, and
  the decoded `Message` (the envelope before any GET data is attached).
- `strings.dfy`: `strings.Split` on one character, and its inverse.
- `config.dfy`: the walk shared by both `GetConfig`s, and their properties.
- `auth.dfy`: the guard sequence of the authentication middleware.
- `pipeline.dfy`: middleware chains, running them, order and short-circuit
  lemmas.
- `dispatcher.dfy`: `applyMiddleware` (its two loops) and `processPath`.
- `context.dfy`, `service.dfy`: the `Context` and `Service` classes.
- `adapters.dfy`: the HTTP, WebSocket, socket and CLI adapters and
  `getHttpIP`.
- `middlewares.dfy`: `CreateAuthMiddleware`.
- `boilerplate.dfy`: the example service.

Running a chain produces a `Trace`: the outcome plus a list of events. The
events are the log lines of the logging middlewares, the check request the
authentication middleware made, and each handler call with the arguments
that reached it. This makes "calls `next` once with unchanged arguments"
something a lemma can state.

What the model takes as inputs:

- JSON encoding and decoding. What a decoder left in the envelope is an
  input. Whether marshalling a value fails, and with what text, is a given
  function.
- `net.ParseIP` and `net.SplitHostPort`, also given functions.
- The authentication service's reply, an oracle from check request to
  reply.
- The error of writing a WebSocket frame to the connection, an input.

Where the source would panic, the model has a precondition instead. These
are the `GuardDefined`, `DispatchDefined`, `HttpDefined`, `WsDefined`,
`SocketDefined` and `CliDefined` predicates, together with the handlers'
own partial functions. `HttpDefined` also asks, through
`Adapters.StatusWritable`, that a status `net/http` would refuse
(outside 100-999) is never the first one written.

GET data exists only on HTTP. The request type's GET-data field is
excluded from JSON (handlers.go:33), so the WebSocket, socket and CLI
adapters take a `Message` and dispatch it with null GET data
(`Values.Unfilled`).

Points where the behaviour is easy to misread:

- **Run order.** Execution order is reversed locals, then reversed globals,
  then the handler (`Dispatcher.ChainFor`). A reading where globals run
  first in declaration order does not match the loops in
  handlers.go:289-303.
- **HTTP token mismatch.** The adapter writes a 401 envelope and then still
  dispatches and writes the outcome (handlers.go:229-241). Only the first
  `WriteHeader` reaches the wire, so the client sees 401, followed by both
  bodies. This continue-rather-than-abort policy is kept as it is. The
  WebSocket adapter instead skips dispatch for that frame. The two
  adapters also read different keys: `common.token` for HTTP, `token` for
  WebSocket.
- **Socket line that is not JSON.** The decoder leaves the method empty,
  so the line is answered with "Wrong message format". It is not ignored.
- **Dead zero-steps guard.** `Context.GetConfig` checks for zero steps.
  `strings.Split` never returns an empty list, so that guard is dead
  (`Config.Steps` ensures at least one step).
- **Nil-metadata branch.** The authentication middleware has a branch for
  nil metadata. It cannot be reached through `processPath`, because
  `BodyMetadata` is a typed map and is passed as a non-nil interface. HTTP
  also fills in an empty map first. The branch is modelled for completeness
  (`Auth.EarlyDenials`).

## Model

| member | source | states |
|---|---|---|
| Strings.Split | service.go:62 | `strings.Split` on one separator gives at least one piece, and no piece contains the separator |
| Strings.JoinSplit | service.go:62 | joining the pieces with the separator gives the input back |
| Strings.SplitJoin | context.go:25 | splitting a join of separator-free pieces gives the pieces back |
| Strings.SplitWithoutSeparator | context.go:25 | a string without the separator is a single step |
| Strings.SplitConcat | service.go:62 | splitting `a + sep + b` gives the pieces of `a` followed by those of `b` |
| Config.Walk | context.go:32-46 | the walk shared by both lookups (also service.go:65-81): no steps end on the map itself, it stops at an absent key only after taking a step, and it stops at a value only when that value is not a map; characterised by `Config.WalkAppend` |
| Config.Steps | context.go:25-30 | a path always has at least one step, so the zero-steps guard is dead |
| Config.ServiceLookup | service.go:61-84 | the typed lookup returns either the default or a string, int or bool |
| Config.ContextLookup | context.go:24-49 | an absent key on the path (or no steps) gives the default |
| Config.WalkAppend | service.go:65-81 | walking `p + q` is walking `p`, then walking `q` in the map reached; a walk that stopped early ignores the remaining steps |
| Config.ServiceScalarEndsWalk | service.go:62-77 | a string/int/bool met at any step is returned, whatever steps remain |
| Config.ServiceOtherGivesDefault | service.go:66-79 | an absent key, or a value of any other type at any step, gives the default |
| Config.ServiceEndedGivesDefault | service.go:83 | a path that ends on a map gives the default, never the map |
| Config.ContextLeafEndsWalk | context.go:39-45 | the first non-map value met, of any type, is returned, whatever steps remain |
| Config.ContextAbsentGivesDefault | context.go:33-37 | an absent key at any step gives the default, whatever steps remain |
| Config.ContextEndedGivesMap | context.go:48 | a path that ends on a map returns that map |
| Config.ServiceRestrictsContext | service.go:61-84 | the typed lookup is the untyped one restricted to string/int/bool leaves |
| Config.DottedPathComposes | service.go:62-81 | when `a` leads to a map, looking up `a.b` is looking up `b` in that map, for both lookups |
| SaiContext.Context.NewContext | context.go:13-18 | a new context has an empty configuration and no stored value |
| SaiContext.Context.SetValue | context.go:20-22 | afterwards only the latest key holds a value; the configuration is unchanged |
| SaiContext.Context.GetConfig | context.go:24-49 | the loop returns exactly the untyped lookup of the path |
| SaiService.Service.NewService | service.go:27-31 | a new service has the given name, an empty configuration, no middlewares and no handlers |
| SaiService.Service.RegisterHandlers | service.go:49-51 | the registry is replaced by the given map and no other field changes |
| SaiService.Service.GetConfig | service.go:61-84 | the loop returns exactly the typed lookup of the path |
| Auth.Unauthorized | middlewares/auth.go:112-114 | `(nil, 401, "unauthorized:" + info)`: the status, the prefix, and the info after it |
| Auth.CheckFor | middlewares/auth.go:52-61 | the check request has method "check" and the configured names; its metadata is null; its data is the body data with `token` set to the metadata's token, and every other key unchanged |
| Auth.Guard | middlewares/auth.go:28-108 | the guard lets the request through iff the URL is set, the metadata is a map with a non-nil token, and the oracle's reply to exactly `CheckFor` decodes with `result == "Ok"`; every denial is `(nil, 401, "unauthorized:…")` |
| Auth.EarlyDenials | middlewares/auth.go:29-50 | an empty URL, nil metadata and a missing token each deny with their own message, without consulting the oracle |
| Pipeline.StepOf | handlers.go:283-287 | no middleware stage invokes a handler by itself; only the chain's terminal does |
| Pipeline.Run | handlers.go:283-287 | calling the chain: when every stage calls `next`, its handler is reached and the chain answers the handler's outcome; characterised by `Pipeline.HandlerRunsIffAllEnter`, `Pipeline.RunThrough` and `Pipeline.HaltIsFinal` |
| Pipeline.Nest | handlers.go:289-303 | wrapping `ms` around a chain puts `ms` outside its stages, in order, and keeps its handler |
| Pipeline.NestOfParts | handlers.go:289-305 | a chain is determined by its stages and its handler |
| Pipeline.HandlerRunsIffAllEnter | handlers.go:283-305 | the handler is called at most once, with the request as the chain received it, exactly when every stage calls `next`; then the chain answers the handler's outcome |
| Pipeline.RunThrough | handlers.go:283-305 | when every stage calls `next`, the stages' pre-events run outermost first, then the handler, then the post-events innermost first |
| Pipeline.HaltIsFinal | handlers.go:283-287 | a stage that does not call `next` answers its own outcome verbatim, the outer stages unwind, and nothing inside runs, whatever the inner chain is |
| Pipeline.LoggingEnters | Boilerplate/internal/middlewares.go:14-26 | logging stages always call `next`; their events are their "received" lines before and their "processed" lines after, in reverse |
| Dispatcher.ChainFor | handlers.go:289-303 | the chain `applyMiddleware` calls: the reversed locals, then the reversed globals, around the element's own handler; characterised by `Dispatcher.LoggingChainOrder` and `Dispatcher.GlobalsABLocalC` |
| Dispatcher.BuildChain | handlers.go:289-303 | the two loops build a chain whose stages are the reversed locals followed by the reversed globals, around the handler |
| Dispatcher.ApplyMiddleware | handlers.go:278-306 | calling the built closure is running `ChainFor` on the request |
| Dispatcher.Dispatch | handlers.go:308-319 | what `processPath` returns: an unknown method answers 404 "no handler" and runs nothing; a known one invokes no handler but its own element's, on the envelope's body data, metadata and GET data; characterised by `Dispatcher.DispatchCallsOnlyItsHandler` |
| Dispatcher.ProcessPath | handlers.go:308-319 | the result is the dispatch of the envelope: 404 for an unknown method, otherwise that element's chain run on the envelope's parts |
| Dispatcher.UnregisteredIsNotFound | handlers.go:309-313 | an unregistered method answers `(nil, 404, "no handler")` and runs no middleware and no handler |
| Dispatcher.DispatchCallsOnlyItsHandler | handlers.go:308-319 | only the element registered for the method is invoked, with data, metadata and GET data unchanged, and exactly when every stage calls `next`; then its outcome is the answer |
| Dispatcher.LoggingChainOrder | handlers.go:289-305 | with logging middlewares only: reversed locals, then reversed globals log "received", the handler runs, then "processed" unwinds in the opposite order |
| Dispatcher.GlobalsABLocalC | handlers.go:291-305 | globals [A, B] and local [C] run C, B, A, handler, A, B, C |
| Adapters.FirstIPIsFirst | handlers.go:321-348 | the resolved IP is the first candidate that parses, or "" when none does |
| Adapters.GetHttpIP | handlers.go:321-348 | the loop with early returns gives the first parsing candidate among X-Real-Ip, each untrimmed X-Forwarded-For piece, and the host of the peer address |
| Adapters.StrList | handlers.go:206-208 | a query parameter's values become a list of strings, index by index |
| Adapters.QueryToGetData | handlers.go:202-209 | GET data has exactly the query's parameter names, each mapped to its list of values |
| Adapters.PrepareMessage | handlers.go:193-209 | the message handed on is the decoded one with metadata `ip` set to the client IP and the query as GET data |
| Adapters.CheckToken | handlers.go:229-239 | a 401 with "Wrong token" is written iff `common.token` is configured and the Token header differs from it |
| Adapters.HandleHttp | handlers.go:193-275 | the envelope always gets the metadata `ip` and the GET data; a decode error or an empty method answers 400 without dispatch; otherwise the envelope is dispatched, even after a token mismatch, and the 401 (if any) precedes the outcome's reply |
| Adapters.WriteOutcome | handlers.go:243-275 | the tail of the handler writes exactly the reply for the outcome |
| Adapters.HttpReplyWrites | handlers.go:243-275 | for a status `net/http` accepts, one status and one body: 200 with the raw bytes for status 210, 500 when the result cannot be encoded, otherwise the handler's own status (read as 200 when it is an informational 1xx other than 101) with the error envelope or the encoded result; 210 is never the wire status |
| Adapters.BinaryHeaders | handlers.go:243-251 | on the 210 path the content type is octet-stream, and a content disposition `attachment; filename=<err>` is set iff the error slot holds a value |
| Adapters.TokenMismatchStillAnswers | handlers.go:229-241 | on a token mismatch the first status is 401, and the "Wrong token" body is followed by the outcome's body |
| Adapters.ReportDownload | handlers.go:243-251 | status 210 with bytes [1, 2] and "report.bin" is served as 200, attachment report.bin, body the two bytes |
| Adapters.WsFrame | handlers.go:110-155 | every frame gets at least one reply; a frame is dispatched iff it decoded, has a method and passes the `token` check, and then it is dispatched as received with no GET data; a dispatched frame is answered with the handler's error, else the encoding error with nothing written, else the encoded result followed by the write error if writing failed |
| Adapters.WsRejections | handlers.go:113-136 | a malformed frame or one without a method gets "Wrong message format"; a token mismatch gets "Wrong token", and neither is dispatched |
| Adapters.SocketLine | handlers.go:38-77 | an empty read sends nothing; a line without a method gets "Wrong message format" and no dispatch; otherwise it is dispatched with no GET data and gets exactly one reply: the handler's error, else the encoding error, else the encoded result, whatever the status |
| Adapters.WsAgreesWithSocket | handlers.go:38-155 | a message with a method that passes the WebSocket token check is dispatched and answered alike over WebSocket (when the write succeeds) and the socket |
| Adapters.HandleCliCommand | handlers.go:80-108 | failures in order (empty input, decode error, empty method, dispatch error, marshal error), each returned with its own text; success iff none occurs, and then the output is the encoded result of the message dispatched with no GET data |
| Adapters.ExecuteCommand | service.go:124-132 | prints the CLI output on success, and returns the CLI error unchanged otherwise |
| Adapters.ExecuteCommandIgnoresPath | service.go:124-132 | the command name does not affect the result |
| Middlewares.CreateAuthMiddleware | middlewares/auth.go:27-110 | the middleware calls `next` exactly when the guard allows, recording the check it made, and otherwise answers the guard's 401; characterised by `Middlewares.AuthMiddlewareGuardsNext` |
| Middlewares.AuthMiddlewareGuardsNext | middlewares/auth.go:27-110 | a chain wrapped in the middleware runs the inner chain on the same request iff the guard allows, answering what it answers after recording the check; otherwise it answers the 401 and no handler runs |
| Boilerplate.Answer | Boilerplate/internal/handlers.go:26-32 | `get` and `post` answer a string with status 200 and no error |
| Boilerplate.AnswerSplits | Boilerplate/internal/handlers.go:26-32 | the answer splits at its colons into the verb, the configured value and the data |
| Boilerplate.TestDefaultsTo80 | Boilerplate/internal/handlers.go:27 | an unconfigured "test" reads as "80" |
| Boilerplate.NewHandler | Boilerplate/internal/handlers.go:7-24 | the registry has exactly "get" and "post", each named by its key, without local middlewares |
| Boilerplate.HandlersReadOnlyData | Boilerplate/internal/handlers.go:12-21 | both handlers depend only on the body data and the configuration, never on metadata or GET data |
| Boilerplate.NewMiddlewares | Boilerplate/internal/middlewares.go:8-13 | both middlewares are logging pass-throughs |
| Boilerplate.MiddlewaresPassThrough | Boilerplate/internal/middlewares.go:14-26 | each calls `next` once with unchanged arguments, logs around it, and answers its outcome unchanged |
| Boilerplate.DispatchThroughBoilerplate | Boilerplate/internal/middlewares.go:8-26 | "get"/"post" with a string body: second received, logging received, the handler, logging processed, second processed; the answer is the handler's |
| Boilerplate.GetWithDefault | Boilerplate/internal/handlers.go:26-28 | "get" with body "X" and no "test" configured answers `("Get:80:X", 200, nil)` |
| Boilerplate.OtherMethodsNotFound | Boilerplate/internal/handlers.go:7-24 | any other method answers 404 "no handler" and runs neither middleware |

## Left out

- Transport loops: the endless read loops of the socket and WebSocket adapters (handlers.go:39, 111) are not modelled. One iteration's decision is. In the source, a closed WebSocket connection makes every `Receive` fail, so the loop keeps sending "Wrong message format" and never ends.
- Socket reader defects: a fresh `bufio.Reader` per iteration can drop buffered bytes, and an empty read at end of input repeats forever (handlers.go:41). Both are transport behaviour outside the model. An empty read is modelled as "no reply".
- HTTP deadlines (handlers.go:177-191): wall-clock time, and the early returns when setting a deadline fails.
- JSON encoding and decoding, `websocket.JSON` and `bufio`: foreign libraries, taken as inputs. The authentication middleware's JSON round trip of the body data is modelled as the identity, so number re-typing by JSON is not captured.
- The authentication network exchange (middlewares/auth.go:63-100): request creation, sending, reading and decoding are one oracle reply.
- `net.ParseIP` and `net.SplitHostPort`: given functions. Header names are the canonical forms `Header.Get` looks up ("X-Real-Ip", "X-Forwarded-For", "Token"). Canonicalisation itself is not modelled.
- What goes on the wire after the first `WriteHeader`: the model records the writer calls in order, and `WireStatus` picks the effective status. Header changes made after a status is written are still recorded, although `net/http` ignores them.
- Adapters.HttpReplyWrites: `WriteHeader` panics on a first status outside 100-999; that is the precondition `StatusWritable`, not a modelled panic. An informational 1xx status other than 101 is recorded as written, but `WireStatus` skips it, and the body then goes out under an implicit 200; the further 1xx handling of `net/http` is not modelled.
- Pipeline.Middleware: only the middleware shapes this repository defines are modelled: logging pass-throughs, stages that answer without calling `next`, and the authentication guard. A general Go middleware that rewrites the arguments, calls `next` twice or changes the inner outcome is not a `Middleware`, so `Pipeline.HandlerRunsIffAllEnter`, `Pipeline.RunThrough`, `Pipeline.HaltIsFinal` and `Dispatcher.DispatchCallsOnlyItsHandler` hold for these shapes only.
- `closures` in `applyMiddleware` (handlers.go:279, 295, 302): the slice is written but never read, so it is not part of the model.
- Listener startup (`StartHttp`, `StartWS`, `StartSocket`, `StartServices`, `StartTasks`) and the CLI framework wiring in `Start`: goroutines, sockets and the `cli` library. Only `ExecuteCommand` is modelled.
- `RegisterConfig`, `SetLogger`, `RegisterTasks`, `RegisterInitTask`: file I/O, YAML, logging and task storage, with nothing to state about the dispatcher.
- `healthCheck` and `versionCheck` (handlers.go:157-174): fixed responses.
- The global `svc` singleton (service.go:24): `NewService` is modelled as a constructor of a fresh object, so aliasing of the shared instance is not captured. `CoreCtx` is not part of this model; its configuration and global middlewares are fields of `Service`.
- `context.Context` internals: `SetValue` keeps the one key and value it was last given.
- Panicking type assertions (`bodyMetadata.(map[string]any)` and the write into a nil `dataMap` in the authentication middleware, `data.(string)` and the `.(string)` on `is.Context.GetConfig("test", "80")` in the example handlers (Boilerplate/internal/handlers.go:27, 31), `result.([]byte)` on status 210, `.(string)` on the configured tokens): these are preconditions, not modelled panics.
- Boilerplate.NewHandler: the handlers read the configuration given to `NewHandler`, whereas the source reads `is.Context` at each call. The model thus assumes the configuration does not change between registration and the call.
- Log output other than the middlewares' "received"/"processed" lines is not modelled.
