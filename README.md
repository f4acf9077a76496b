# mockhttp in Dafny

A model of the core of mockhttp, a Go library that replaces the transport of
an `http.Client` with programmable, deterministic behaviour so that code making
HTTP calls can be exercised without a network. The model covers:

- the host router `MuxRoundTripper` (roundtripper.go): a table from host to
  transport with the reserved fallback host `"*"`, its lookup, its dispatch and
  its in-place registration;
- the middleware layer (middleware.go): middlewares as transformers of
  transports, `Chain` with its backward loop, response modifiers, and the three
  layers that rewrite a successful response's status or headers;
- the canned transports (utils.go): `ServerErrorRT`, `StaticResponseRT`,
  `TransportErrorRT`;
- the swap of the process-wide default transport (override.go) as a
  sequential state machine.

A transport is a pure function `Request -> Result`, where `Result` pairs an
optional response with an optional error (Go's `(*http.Response, error)`).
Because the transport *is* the function type, Go's adapters
`RoundTripperFunc.RoundTrip` and `MiddlewareFunc.Wrap` are plain function
application. The pieces of `net/http` and `fmt` the core uses (`StatusText`,
`Header.Set`, `Header.Add`, `%d` formatting) are modelled in `http.dfy`.

Files: `wrappers.dfy` (Option), `http.dfy`, `roundtripper.dfy`,
`middleware.dfy`, `utils.dfy`, `override.dfy`, `scenarios.dfy` (the situations
the middleware tests exercise).

Two behaviours of the code are worth stating up front:

- The code contains no reversal of response modifiers. Chained modifiers
  therefore run from the last in the list to the first
  (`Middlewares.ChainedModifiers`), and among chained header setters the first,
  outermost one wins (`MiddlewareScenarios.ChainScenario`).
- `TransportErrorRT` returns no error at all, against its doc comment and its
  tests (see Findings).

The middleware tests call `ResponseSetStatus`, `ResponseSetHeader` and
`ResponseAddHeader`, which middleware.go does not define; they are not part of
this model, and the scenario members restate those tests with the
`UseResponse*` layers instead. Other tests build a mux with
`NewMuxRoundTripper` (utils_test.go:113, override_test.go:15), which
roundtripper.go does not define either; the mux scenarios use the
`MuxRoundTripper{}` literal, as roundtripper_test.go:21 and 94 do.

## Model

| member | source | states |
|---|---|---|
| `Http.StatusText` | middleware.go:29 | the reason phrase is empty exactly for codes outside the known table; 200 is "OK", 500 "Internal Server Error" |
| `Http.HeaderSet` | middleware.go:43 | after Header.Set the key holds exactly the one value and every other key is unchanged |
| `Http.HeaderAdd` | middleware.go:57 | after Header.Add the key holds its previous values followed by the new one and every other key is unchanged |
| `Http.Decimal` | utils.go:47 | the decimal text of a length is non-empty, all digits, and has no leading zero (it starts with '0' only for 0); with `Http.DecimalRoundTrip` this makes it the one %d text of the number |
| `Http.DecimalRoundTrip` | utils.go:85 | the decimal text written into Content-Length parses back to the length it came from |
| `RoundTripper.Get` | roundtripper.go:33-43 | exact host entry first, else the "*" entry, else no transport and the error "no http.RoundTripper found for host " + host; found exactly when the host or "*" is registered |
| `RoundTripper.RoundTrip` | roundtripper.go:45-52 | a lookup miss gives no response and the lookup error; a hit gives exactly the found transport's result for the unchanged request |
| `RoundTripper.AsTransport` | roundtripper.go:45-52 | the mux used as a transport answers a request for a registered host with that host's transport, any other host with the "*" transport, and without either with no response and the not-found error |
| `Override.MuxAsDefault` | override_test.go:14-27 | a mux with two hosts and a fallback installed as the default transport answers each registered host with its own transport and any other host with the fallback; restoring brings the earlier default back |
| `RoundTripper.GetAfterAdd` | roundtripper.go:22-24 | registering a host changes only that host's lookup, plus the lookups of unregistered hosts when the host is "*" |
| `RoundTripper.ExactBeatsFallback` | roundtripper.go:35-37 | a registered host keeps its own transport whatever fallback is registered |
| `RoundTripper.NotFoundNamesHost` | roundtripper.go:41-42 | the miss error is the fixed prefix followed by the host asked for |
| `RoundTripper.MuxRoundTripper.constructor` | roundtripper_test.go:21 | a new mux has an empty table |
| `RoundTripper.MuxRoundTripper.Add` | roundtripper.go:19-24 | the table gains or replaces the entry for the host; every other entry, "*" included, is unchanged |
| `RoundTripper.MuxRoundTripper.AddFunc` | roundtripper.go:26-31 | as Add, with a function value as the transport |
| `RoundTripper.RegistrationScenario` | roundtripper_test.go:20-44 | two hosts and a fallback registered: each host finds its own transport, any other host the fallback, and a repeated Get returns the same |
| `RoundTripper.MissScenario` | roundtripper_test.go:93-137 | a request for an unregistered host without fallback gets no response and the error naming that host |
| `Middlewares.WithStatus` | middleware.go:24-31 | an errored result passes through untouched; otherwise status code and status text are replaced and body, headers and all other fields are kept |
| `Middlewares.WithHeaderSet` | middleware.go:39-45 | an errored result passes through untouched; otherwise the key holds exactly the value and no other header or field changes |
| `Middlewares.WithHeaderAdded` | middleware.go:53-59 | an errored result passes through untouched; otherwise the value is appended after the key's previous values and nothing else changes |
| `Middlewares.UseResponseStatus` | middleware.go:20-33 | the wrapped transport's result is the inner result with the status layer applied; what that layer promises is stated by `Middlewares.WithStatus` |
| `Middlewares.UseResponseSetHeader` | middleware.go:35-47 | the wrapped transport's result is the inner result with the set-header layer applied; what that layer promises is stated by `Middlewares.WithHeaderSet` |
| `Middlewares.UseResponseAddHeader` | middleware.go:49-61 | the wrapped transport's result is the inner result with the add-header layer applied; what that layer promises is stated by `Middlewares.WithHeaderAdded` |
| `Middlewares.Wrap` | middleware.go:67-72 | the wrapped transport applies the modifier to the inner transport's result; `Middlewares.ChainedModifiers` builds the order of chained modifiers on it |
| `Middlewares.UseResponseModifier` | middleware.go:74-78 | the modifier as a middleware wraps exactly as ResponseModifier.Wrap does |
| `Middlewares.Chain` | middleware.go:80-89 | the backward loop builds m0.Wrap(m1.Wrap(... mn.Wrap(inner))); the empty chain is the inner transport |
| `Middlewares.Chained` | middleware.go:82-88 | Chain(ms...) as a middleware maps every inner transport to the nested wrapping; `Middlewares.NestOfChains` shows a chain of such chains is the chain of their concatenation |
| `Middlewares.NestAppend` | middleware.go:80-81 | chaining a + b is chaining a around the chain of b: the list is outermost first |
| `Middlewares.NestLast` | middleware.go:84-86 | the last middleware of a chain wraps the inner transport directly |
| `Middlewares.NestOfChains` | middleware.go:80-89 | a chain of two chains behaves as the chain of their concatenation |
| `Middlewares.ChainedModifiers` | middleware.go:84-86 | chained response modifiers give the inner result to the last modifier first and the first modifier produces the final result |
| `Middlewares.ComposeAppend` | middleware.go:68-72 | composing modifier lists a + b applies those of b to the raw result, then those of a |
| `Middlewares.LastModifierSeesRaw` | middleware.go:84-86 | the last modifier in the list is applied to the raw inner result |
| `Middlewares.SetHeaderLastWins` | middleware.go:43 | setting a header twice leaves the later value, as a single set would |
| `Middlewares.AddHeaderKeepsOrder` | middleware.go:57 | two adds under one key keep the old values first, then the two new ones in order |
| `Middlewares.StatusLastWins` | middleware.go:28-29 | a later status layer overrides an earlier one entirely |
| `Canned.CannedHeader` | utils.go:46-49 | the fresh header holds exactly Content-Length, Content-Type and Date, one value each |
| `Canned.ServerErrorRT` | utils.go:37-64 | every request gets a response and no error: the given status, its reason phrase as status text and body, Content-Length of the body length, Content-Type text/html, the request's protocol fields and the request itself |
| `Canned.StaticResponseRT` | utils.go:75-103 | every request gets a 200 "OK" response with the content as body, its length as Content-Length, the given Content-Type, the construction-time Date, the request's protocol fields and no error |
| `Canned.TransportErrorRT` | utils.go:66-73 | as written: every request gets neither a response nor an error |
| `Canned.TransportErrorRTIntended` | utils.go:66-68 | as documented: every request gets no response and the supplied error |
| `Canned.TransportErrorRTLosesError` | utils.go:70-72 | the supplied error never reaches the caller of the as-written transport |
| `Canned.ContentLengthHeaderAgrees` | utils.go:85 | the Content-Length header of a canned response reads back as its ContentLength field |
| `Canned.CannedHeadersSingleValued` | utils.go:84-87 | every header key of a canned response holds exactly one value |
| `Canned.StaticResponseIgnoresRequest` | utils.go:78-88 | one static transport answers any two requests with the same headers, Date included, and the same status and body |
| `Canned.ServerErrorPages` | utils_test.go:107-157 | 403, 502 and 400 pages carry "Forbidden", "Bad Gateway" and "Bad Request" as body |
| `Override.TransportSwap.constructor` | override.go:8-13 | at start the default transport is the library's own, nothing is saved and the lock is free |
| `Override.TransportSwap.UseTransport` | override.go:15-21 | requires the lock free; takes it, saves the current default and installs the given transport |
| `Override.TransportSwap.RestoreTransport` | override.go:23-28 | requires the lock held; reinstalls the saved default and frees the lock |
| `Override.SwapAndRestore` | override_test.go:14-27 | between the two calls the default is the installed transport; afterwards it is the one from before and the lock is free |
| `Override.SequentialPairs` | override_test.go:29-71 | pairs run one after another each see only their own transport and leave the original default in place |
| `MiddlewareScenarios.StatusOverrideKeepsBody` | middleware_test.go:13-28 | overriding a server-error page's status changes code and text but keeps the original page's body |
| `MiddlewareScenarios.SetHeaderReplacesContentType` | middleware_test.go:30-40 | setting Content-Type over a static page leaves only the new type |
| `MiddlewareScenarios.AddHeaderAppendsContentType` | middleware_test.go:42-55 | adding Content-Type over a static page gives the original type then the new one |
| `MiddlewareScenarios.LayersSkipFailedCalls` | middleware.go:25-27 | the three layers return a transport error's result untouched |
| `MiddlewareScenarios.ChainScenario` | middleware_test.go:88-131 | the test's chain restated with the UseResponse* layers (two Content-Type setters, a status setter and innermost the modifier that replaces the response, over a 500 page): status 200, status text "OK", body "hello world", and the first, outermost setter's Content-Type is the one left |

## Left out

- `HandlerRT` (utils.go:18-35): it runs an arbitrary `http.Handler` through an `httptest` recorder, server code outside the library.
- `FileSystemRT` (utils.go:107-146): it opens files, reads their metadata and guesses MIME types from extensions, all of which is filesystem and foreign-library behaviour. The code answers a failed open with a transport error, while utils_test.go:371-418 expects 404 and 403 responses; neither behaviour is modelled.
- `NewClient` (roundtripper.go:54-59): it only builds an `http.Client`. The client's wrapping of transport errors into "Get URL: message" belongs to `net/http`.
- `RoundTripperFunc.RoundTrip` and `MiddlewareFunc.Wrap`: these adapters are function application, because transports and middlewares are function types here. They have no member of their own.
- `RoundTripper.AsTransport`: a Go mux is a reference to a shared map, so later `Add` calls are seen by a mux already in use as a transport. `AsTransport` captures the table as a value at the time it is taken.
- `Middlewares.WithStatus`, `Middlewares.WithHeaderSet`, `Middlewares.WithHeaderAdded`: when the inner call returns neither a response nor an error, the source dereferences a nil response and panics; the model passes that result through. The source also changes the inner response object in place, which an alias of it would see; the model builds a new response value.
- `Http.HeaderSet`, `Http.HeaderAdd`: header keys are taken as already canonical (no `CanonicalMIMEHeaderKey`). Setting a header on a response whose header map is nil panics in Go; here a header is always a map.
- `Http.StatusText`: only the codes the library and its tests use (200, 400, 403, 404, 500, 502) have reason phrases; Go's table knows more codes.
- `Canned.ServerErrorRT`: the source reads the clock on every call, so two calls through one instance can differ in their Date. The model takes the Date as a parameter of the transport, so within one instance it is fixed.
- `Canned.ServerErrorRT`, `Canned.StaticResponseRT`: the clock reading and its RFC 1123 formatting are an opaque string parameter. Content-Length is the number of characters of the body; this equals Go's byte length for ASCII bodies only. The 64-bit width of `ContentLength` is not modelled.
- Response bodies are their whole content, not single-use streams with `Close`.
- `Override.TransportSwap.UseTransport`: the real lock blocks a second caller until the first pair finishes. The model has no concurrency, so the precondition simply requires the lock to be free. The concurrent test's goroutines become pairs run one after another (`Override.SequentialPairs`).
- `Override.TransportSwap.RestoreTransport`: unlocking a free `sync.RWMutex` stops the Go program with the unrecoverable fatal error "sync: Unlock of unlocked RWMutex"; the precondition excludes that call.
- doc.go holds only prose and is not modelled.

## Findings

| source | as written | input that shows it | evidently intended | confidence | as-written member | corrected member |
|---|---|---|---|---|---|---|
| utils.go:69-72 | the closure's named result `err` shadows the parameter `err`, so `return nil, err` returns a nil error | `TransportErrorRT(errors.New("domain not found"))` applied to any request returns no response and no error | return no response and the supplied error, as the doc comment at utils.go:67-68 and utils_test.go:178-224 expect | high; not executed | `Canned.TransportErrorRT` (with `Canned.TransportErrorRTLosesError`) | `Canned.TransportErrorRTIntended` |
