# Router dispatch core, modelled in Dafny

This project is a reference model of a pillarjs-style HTTP router. The router
owns an ordered list of layers. A layer is either a handler mounted with
`router.use([path,] fn)` or a route built with `router.get/put/.../all(path, ...fns)`
or `router.route(path)`. There is also a parameter registry filled by
`router.param(name, fn)`. For one request, the router:

- walks its layers in registration order;
- matches each layer's path against the path part of `req.url`;
- percent-decodes the captured segments;
- runs the registered parameter functions at most once per (name, value) in the request;
- runs the route's handler chain for the request method, where HEAD falls back to the GET chain;
- strips a mount path from `req.url` for a mounted handler and restores it afterwards;
- carries an in-flight error forward past normal handlers to the next error handler;
- publishes an ordered log of "about to handle" and "handling failed" events;
- when the layers run out, either answers an OPTIONS request itself (status 200, `Allow` header and body listing the declared methods) or calls the terminal callback `done`.

The behaviour is the one fixed by the repository's test suite, the files `test/*.js`.

The modules follow the router's structure:

- `Http` (`http.dfy`): the request/response exchange, errors, handler settlements and the three continuation signals `Continue`, `Fail(error)` and `SkipRoute` (`next()`, `next(err)`, `next('route')`).
- `Urls` (`urls.dfy`): the split of a request target into protohost, path and query; mount strip and restore.
- `Percent` (`percent.dfy`) and `Paths` (`paths.dfy`): percent-decoding, pattern compilation, route and mount matching, and decode errors.
- `Methods` (`methods.dfy`): method chain selection with the HEAD-to-GET fallback, and the `Allow` list.
- `Params` (`params.dfy`): `param(name, fn)` argument checks, the registry, and the per-request memo.
- `Diagnostics` (`diagnostics.dfy`): the event log of the `router.layer.handle.request` and `router.layer.handle.error` channels.
- `Dispatch` (`dispatch.dfy`): the dispatch state machine as functions over an immutable router and a per-request context.
- `Engine` (`engine.dfy`): the same dispatch written imperatively. A `Context` class has mutable fields for the exchange, memo, log and collected methods, and its loop methods are proved equal to the `Dispatch` functions. A `Router` class has a registration API (`Use`, `AddRoute`, `On`, `Param`) that appends to its layer list.
- `Laws` (`laws.dfy`): all-inputs properties of the dispatch:
  - a request no layer matches reaches `done` with no error;
  - an unhandled error reaches `done` unchanged;
  - the published log never changes the outcome;
  - the automatic OPTIONS answer lists exactly the collected methods.
- `Steps` (`steps.dfy`) and `Fixtures` (`fixtures.dfy`): one-layer transition lemmas, and the handlers the tests use (`saw`, `sethit`, `setsaw`).
- `HeadScenarios`, `OptionsScenarios`, `ParamScenarios`, `ParamRoutes`, `MountScenarios` and `DiagnosticsScenarios`: one lemma per test case, giving the outcome of `Handle` on the test's router and request.

Handlers are total functions from the exchange to a reply. A reply is the new exchange plus how the handler settled:

- it called `next` with a signal;
- it returned without calling `next`;
- it threw;
- a promise it returned was rejected, with or without a reason.

A normal handler and an error handler are told apart by an explicit tag, not by their arity.

## Model

| member | source | states |
|---|---|---|
| Http.Settle | test/param.js:234-313 | a call of `next` continues with its signal; returning without `next` holds the request; a throw or a rejection continues with that error; a rejection without a reason continues with `Error: Rejected promise` |
| Http.CapturedError | test/diagnostics_channels.js:41-55 | an error is captured (and later published) exactly when the handler threw or its promise was rejected, and it is the error dispatch continues with |
| Http.NewExchange | test/param.js:39-65 | a fresh request has the given method and target, no params, locals or headers, status 200, empty body and headers not yet sent |
| Urls.IndexOf | test/fqdn-url.js:46-57 | the index found is the first occurrence of the character at or after the start, or none when it does not occur |
| Urls.PathEnd | test/fqdn-url.js:46-57 | the path part ends at the first `?`, or at the end of the target when there is none |
| Urls.Protohost | test/fqdn-url.js:12-44 | the scheme and authority of an absolute-form target are a prefix followed by `/`; origin-form targets have none |
| Urls.Decompose | test/fqdn-url.js:12-70 | every target is protohost + path + query, the path has no `?`, and the query is empty or starts with `?` |
| Urls.StripParts | test/fqdn-url.js:28-44 | under a matching mount path, the target is protohost + mount path + rest, and the stripped target is the mount path followed by that rest |
| Urls.StripKeepsProtohost | test/fqdn-url.js:28-44 | stripping a mount path keeps the scheme and authority of an absolute URL |
| Urls.StripRewritesPathOnly | test/fqdn-url.js:46-70 | stripping removes the mount path from the path part only, the result always starts with `/` (just `/` when the mount consumes the whole path), and the query is unchanged |
| Urls.StripRestore | test/fqdn-url.js:28-57 | restoring after a strip gives back exactly the original target |
| Paths.Split | test/param.js:48 | splitting a path on `/` yields at least one segment and no segment contains `/` |
| Paths.SplitJoin | test/param.js:48 | splitting the `/`-join of slash-free segments gives the segments back |
| Paths.JoinSplit | test/param.js:48 | joining the segments of a path with `/` gives the path back |
| Paths.CompileSegment | test/param.js:48 | a pattern segment is a named capture exactly when it starts with `:`; the capture's name is the segment without the `:`, and a literal's text is the segment itself |
| Paths.CompileKeys | test/param.js:129-163 | the parameter names of a compiled path are the names of its `:name` segments, without the `:`, in the order written |
| Paths.LiteralPathMatchesOnlyItself | test/auto-options.js:57-66 | a route path with no `:name` segment matches exactly its own path and captures nothing; every other request path misses it |
| Paths.Keys | test/param.js:129-163 | the parameter names of a pattern are exactly its capture segments' names |
| Paths.DecodeError | test/param.js:110-127 | a decode failure is a `URIError` with status 400 and the message `Failed to decode param '<raw>'` |
| Paths.DecodeParam | test/param.js:91-127 | a captured value decodes exactly when its escapes are well formed, and then to its percent-decoding; otherwise it fails with the decode error for that raw value |
| Paths.DecodeCapturesOutcome | test/param.js:91-127 | decoding the captures of a fitting path fails exactly when some capture is malformed, with a 400 `URIError`; on success the params hold exactly the pattern's names, each bound to the percent-decoding of its last captured segment |
| Paths.DecodeCapturesValues | test/param.js:91-108 | on success every name is bound to the percent-decoding of the segment of its last capture, and a name bound earlier and not captured again keeps its value |
| Paths.MatchRouteOutcome | test/param.js:39-127 | a route pattern misses exactly when the path does not fit it segment by segment; it fails to decode exactly when the path fits and some capture is malformed, with a 400 `URIError`; a match binds exactly the pattern's keys, each to the percent-decoding of the path segment it captured (the last one when a name repeats) |
| Paths.MountPath | test/fqdn-url.js:12-26 | a handler mounted at `/` (or with no path) gets no prefix stripped; any other mount path is stripped as given |
| Percent.HexDigit | test/param.js:91-108 | every value below 16 has a hex digit that reads back as that value |
| Percent.Escaped | test/param.js:91-108 | a `%XX` escape decodes to a single ASCII character |
| Percent.DecodeSucceedsIff | test/param.js:91-127 | percent-decoding succeeds exactly on well-escaped strings |
| Percent.DecodeVerbatim | test/param.js:39-65 | a string without `%` decodes to itself |
| Percent.DecodeConcat | test/param.js:91-108 | decoding distributes over concatenation after a well-escaped prefix |
| Percent.DecodeShrinks | test/param.js:91-108 | a decoded value is never longer than its escaped form |
| Percent.Encode | test/param.js:91-108 | escaping an ASCII string yields a well-escaped string |
| Percent.DecodeEncode | test/param.js:91-108 | decoding the escaped form of an ASCII string gives the string back |
| Methods.ChainVerb | test/auto-head.js:12-37 | a HEAD request runs the HEAD chain when the route declares HEAD and the GET chain otherwise; every other method runs its own chain |
| Methods.ChainFrom | test/diagnostics_channels.js:62-73 | the chain is exactly the route's entries for the method (or `all`), in registration order |
| Methods.HeadFallsBackToGet | test/auto-head.js:12-23 | on a route without HEAD, HEAD is handled exactly when GET is, by the same chain |
| Methods.ExplicitHeadChain | test/auto-head.js:25-37 | on a route that declares HEAD, HEAD runs only HEAD and `all` entries |
| Methods.Verbs | test/auto-options.js:41-54 | the declared methods of a route are exactly the methods of its non-`all` entries |
| Methods.VerbsInOrder | test/auto-options.js:26-38 | the declared methods follow the stack: the k-th is the method of the k-th entry registered by name, so they are in registration order, repeats included |
| Methods.Dedup | test/auto-options.js:26-38 | de-duplication keeps exactly the same set of methods, each once, and never lengthens the list |
| Methods.DedupKeepsOrder | test/auto-options.js:26-38 | de-duplication keeps methods in the order of their first registration |
| Methods.AllowedShape | test/auto-options.js:11-54 | a route's allowed methods have no repeats, are exactly its declared methods plus HEAD when it declares GET, and have HEAD right after GET when HEAD is not declared |
| Methods.DedupHeadAfterGet | test/auto-options.js:26-38 | merging lists in which HEAD follows GET keeps HEAD immediately after GET |
| Methods.CollectedCons | test/auto-options.js:11-24 | the methods collected from a list of routes are each route's allowed methods, in route order |
| Methods.AllowList | test/auto-options.js:26-38 | the `Allow` list has no repeats and holds exactly the collected methods |
| Methods.CollectedHeadFollowsGet | test/auto-options.js:11-54 | across routes that do not declare HEAD, HEAD always immediately follows GET in the collected methods |
| Methods.AllowHeadAfterGet | test/auto-options.js:11-54 | when GET was collected, the `Allow` list has HEAD immediately after GET |
| Methods.SendOptions | test/auto-options.js:80-107 | answering OPTIONS fails exactly when the headers were already sent; otherwise it gives status 200 with `Allow` and body both equal to the list and keeps every other header |
| Params.ArgumentError | test/param.js:19-37 | a registration failure is a `TypeError` carrying the given message |
| Params.Register | test/param.js:19-89 | registration fails, with its own message, on a missing name, a non-string name, a missing fn and a non-function fn; otherwise the fn is appended after the name's earlier fns and other names are untouched |
| Params.Lookup | test/param.js:187-209 | a parameter lookup finds exactly the keys present, with their values |
| Params.Put | test/param.js:187-209 | writing a parameter changes that key alone |
| Params.RunFns | test/param.js:67-89 | the fns run in registration order; a failure or skip is recorded as the outcome for that name, and no other name's memo changes |
| Params.Process | test/param.js:129-209 | processing the captured names never forgets a memo entry, and a failure is never a plain continue |
| Params.RememberedValueSkipsFunctions | test/param.js:165-209 | a name already resolved for the same value runs no fn again and gets back the value its fns left |
| Params.RecordedErrorRepeats | test/param.js:234-272 | a name whose fns failed for this request fails again with the same error, without running |
| Params.NewValueRunsFunctions | test/param.js:211-232 | a name not yet resolved for its current value runs all its fns, and the memo then records that value |
| Params.UnregisteredNameIsPassedOver | test/param.js:129-163 | a captured name with no registered fn is passed over |
| Params.NoRegisteredKeysNoEffect | test/param.js:129-163 | when no captured name has fns, processing changes nothing |
| Dispatch.InFlight | test/param.js:317-360 | only `next(err)` leaves an error in flight; `next()` and `next('route')` leave none |
| Dispatch.Pass | test/diagnostics_channels.js:62-73 | passing a handler over forwards the in-flight error (or its absence) unchanged and never skips the route |
| Dispatch.Published | test/diagnostics_channels.js:12-55 | one invocation publishes its request event first, then exactly the error it captured, if any |
| Dispatch.Invoke | test/diagnostics_channels.js:62-73 | a handler of the other kind (normal vs error) is passed over without publishing; otherwise the request event is appended to the log before anything else |
| Dispatch.Start | test/param.js:165-185 | a request starts with its exchange, nothing remembered, nothing published and no methods collected |
| Diagnostics.ErrorsMembers | test/diagnostics_channels.js:41-55 | an error is among the published errors exactly when an error event carries it |
| Diagnostics.RequestsMembers | test/diagnostics_channels.js:12-28 | a site is among the published requests exactly when a request event names it |
| Diagnostics.ErrorsAppend | test/diagnostics_channels.js:41-55 | the errors of a log are published in log order |
| Diagnostics.RequestsAppend | test/diagnostics_channels.js:12-28 | the request events of a log are published in log order |
| Laws.MountPassesOver | test/diagnostics_channels.js:62-73 | a mounted handler of the other kind is passed over, with the error and the target unchanged |
| Laws.ErrorPassesLayer | test/param.js:234-250 | with an error in flight, a layer holding no error handler passes the error on and changes nothing but `req.params` |
| Laws.UnhandledErrorReachesDone | test/param.js:234-313 | an error with no error handler after it reaches `done` unchanged; the error is never swallowed |
| Laws.NoMatchFallsThrough | test/auto-options.js:57-66 | when no layer matches the path (no route pattern and no mount path), the layers run out with the incoming error (or none) and nothing changes |
| Laws.NotFound | test/auto-options.js:57-66 | a request no layer matches reaches `done` with no error, unchanged and with nothing published |
| Laws.InvokeIgnoresLog | test/diagnostics_channels.js:80-124 | what a handler does does not depend on the events already published |
| Laws.RouteIgnoresLog | test/diagnostics_channels.js:80-124 | running a route's chain does not depend on the events already published |
| Laws.RunIgnoresLog | test/diagnostics_channels.js:80-124 | a whole dispatch gives the same outcome and context whatever was published before; only the log differs, by that prefix |
| Laws.OptionsPassesLayer | test/auto-options.js:11-54 | for OPTIONS, a matched route without an OPTIONS chain adds its allowed methods and dispatch goes on |
| Laws.GatheredIsCollected | test/auto-options.js:11-54 | the methods gathered along the layers are those of the routes matching the path, in layer order |
| Laws.OptionsCollects | test/auto-options.js:11-54 | an OPTIONS request whose layers either do not match or are matching routes without an OPTIONS handler runs out of layers having collected exactly those routes' allowed methods |
| Laws.ExplicitOptionsEntersRoute | test/auto-options.js:68-78 | for an OPTIONS request, a matched route with its own OPTIONS handler (an OPTIONS or `all` entry) is entered like for any other method and adds nothing to the collected methods |
| Laws.ExplicitOptionsBypassesAnswer | test/auto-options.js:68-78 | when an OPTIONS request reaches such a route and the route claims it, no automatic answer is sent: handling ends held, with the exchange and log the route left |
| Laws.AnswerCollected | test/auto-options.js:11-107 | an OPTIONS request that ran out of layers with methods collected is answered with status 200 and `Allow` = body = the joined list, or reaches `done` with an error when headers were already sent |
| Laws.AutoOptions | test/auto-options.js:11-39 | for any router in which every layer matching the path is a route without an OPTIONS handler (no OPTIONS entry and no `all` entry), the answer is status 200 with `Allow` and body the de-duplicated collected methods |
| Engine.Context.constructor | test/param.js:165-185 | a new context is the start state of the request |
| Engine.Context.RunParamFns | test/param.js:67-89 | the loop over a name's fns leaves the signal and the memo the reference `RunFns` gives, and leaves log and methods untouched |
| Engine.Context.ProcessParams | test/param.js:129-209 | the loop over the captured names gives the reference `Process` outcome and touches neither log nor methods |
| Engine.Context.Invoke | test/diagnostics_channels.js:62-73 | updating the fields in place gives the state and step of the reference `Invoke` |
| Engine.Context.AtMount | test/fqdn-url.js:28-57 | saving, stripping and restoring `req.url` in place gives the reference mount step |
| Engine.Context.RunRoute | test/diagnostics_channels.js:58-77 | the loop over a route's chain gives the reference `RouteRun` result and state |
| Engine.Context.EnterRoute | test/param.js:39-65 | setting `req.params`, resolving params and running the chain in place gives the reference `EnterRoute` |
| Engine.Context.Step | test/param.js:316-360 | one layer handled in place gives the reference `LayerStep` turn and context |
| Engine.Context.Run | test/param.js:211-232 | the loop over the layers ends with the outcome and state of the reference `Run` |
| Engine.Router.constructor | test/param.js:39-42 | a new router has no layers and no registered params |
| Engine.Router.Use | test/fqdn-url.js:37-38 | `use` appends one mount layer and keeps the registry |
| Engine.Router.AddRoute | test/diagnostics_channels.js:58-73 | registering a route appends one route layer and keeps the registry |
| Engine.Router.On | test/auto-options.js:15-18 | `router.<verb>(path, ...fns)` appends one route whose entries are the fns for that method (or `all`), in order |
| Engine.Router.Param | test/param.js:19-37 | `param` reports the registration error and leaves the registry alone, or installs the updated registry and reports none |
| Engine.Router.Handle | test/diagnostics_channels.js:75-77 | handling a request gives exactly the reference `Handle` result |
| HeadScenarios.HeadThroughGetRoute | test/auto-head.js:12-23 | on a GET-only route, HEAD runs `sethit(1)` then `saw`: status 200, `x-fn-1: hit`, `Content-Type: text/plain` |
| HeadScenarios.HeadUsesGetChain | test/auto-head.js:12-23 | the same for GET `/users` and HEAD `/users` |
| HeadScenarios.HeadBeforeGetRoute | test/auto-head.js:25-37 | with HEAD registered before GET, HEAD runs the HEAD chain: `x-fn-1` is set, not `x-fn-2` |
| HeadScenarios.HeadBeforeGet | test/auto-head.js:25-37 | the same for `/users` |
| OptionsScenarios.SawRouteDeclares | test/auto-options.js:15-18 | a `saw` route for a method other than GET allows just that method |
| OptionsScenarios.GetRouteDeclares | test/auto-options.js:16 | a GET route allows GET and HEAD |
| OptionsScenarios.AllowLists | test/auto-options.js:11-54 | the three tests' collected methods de-duplicate to GET, HEAD, POST, PUT and to GET, HEAD, PUT |
| OptionsScenarios.AllowTexts | test/auto-options.js:22-23 | those lists join to `GET, HEAD, POST, PUT` and `GET, HEAD, PUT` |
| OptionsScenarios.RespondsWithDefinedRoutes | test/auto-options.js:11-24 | OPTIONS `/users` with DELETE `/` and GET, POST, PUT `/users` gives 200, `Allow` = body = `GET, HEAD, POST, PUT` |
| OptionsScenarios.NoRepeatedMethods | test/auto-options.js:26-39 | with GET, PUT, GET on `/users`, the answer is `GET, HEAD, PUT` |
| OptionsScenarios.AllRoutesNotListed | test/auto-options.js:41-55 | the `all` route runs (`x-fn-1: hit`) but is not listed: `GET, HEAD, PUT` |
| OptionsScenarios.NoMatchingPath | test/auto-options.js:57-66 | OPTIONS `/` with only `/users` routed reaches `done` with no error (404) |
| OptionsScenarios.ExplicitOptionsRoute | test/auto-options.js:68-78 | an explicit OPTIONS route answers `saw OPTIONS /users` and the automatic answer is bypassed |
| OptionsScenarios.HeadersAlreadySent | test/auto-options.js:80-107 | when the headers were already written, the automatic answer fails and `done` receives an error |
| ParamScenarios.ParamRejectsBadArguments | test/param.js:19-37 | the four bad `param` calls fail with their four `TypeError` messages |
| ParamScenarios.Field | test/param.js:48-51 | reading a missing param shows `undefined` |
| ParamScenarios.GetUser | test/param.js:48-51 | the handler answers `get user <id>` as text |
| ParamScenarios.MapsPathParam | test/param.js:39-65 | `GET /user/<v>` with `parseId` answers `get user ` + the converted value, with no validation rejection |
| ParamScenarios.ChainsParamFunctions | test/param.js:67-89 | two fns for `id` run in order: `get user <n> (<n>)` |
| ParamScenarios.ParseUser | test/param.js:95-98 | `parseUser` stores the value on the request and calls `next()` |
| ParamScenarios.DecodedValueAnswers | test/param.js:91-108 | a captured value is handed over percent-decoded |
| ParamScenarios.DecodesPathValue | test/param.js:91-108 | `/user/%22bob%2Frobert%22` answers `get user "bob/robert"` |
| ParamScenarios.RejectsMalformedValue | test/param.js:110-127 | `/user/%bob` reaches `done` with a 400 `URIError: Failed to decode param` |
| ParamScenarios.InvokesOnlyWhenNecessary | test/param.js:129-163 | GET `/user/:user` runs only the `user` fn (which throws: error to `done`); PUT `/user/:id` runs only the `id` fn (`x-id` set, answered) |
| ParamScenarios.CountUp | test/param.js:170 | the counter starts at 1 and increases by one |
| ParamScenarios.InvokesOncePerRequest | test/param.js:165-185 | two layers capture the same value: the fn runs once (`1 times`) and both handlers run |
| ParamScenarios.SameValueSkips | test/param.js:187-209 | a value already resolved is replaced by what its fns left, without running them |
| ParamScenarios.KeepsParamChanges | test/param.js:187-209 | the fn runs once; its converted `id` is what the first layer puts in `x-user-id` and what the second layer reports: `get user <n> 1 times` |
| ParamRoutes.CollectUserOrSkip | test/param.js:366-371 | `parseUser` counts and records the value, then calls `next('route')` for `user` and `next()` otherwise |
| ParamRoutes.ValsReport | test/param.js:376-390 | the last handler answers `get user <user> <count> times: <vals>` |
| ParamRoutes.InvokesAgainWhenValueDiffers | test/param.js:211-232 | `/:user/bob` then `/user/:user` capture different values: the fn runs twice, giving `get user bob 2 times: user, bob` |
| ParamRoutes.CatchesThrowInParam | test/param.js:234-250 | a throwing param fn sends `Error: boom` to `done` and the route does not run |
| ParamRoutes.CatchesThrowInChainedParam | test/param.js:252-272 | a throw in the second fn, after the first called `next()`, does the same |
| ParamRoutes.PassesRejectionInParam | test/param.js:275-291 | a rejected promise's reason reaches `done` |
| ParamRoutes.RejectionWithoutReasonInParam | test/param.js:301-313 | a rejection with no reason from a param fn reaches `done` as `Error: Rejected promise` |
| ParamRoutes.PassesRejectionWithoutReason | test/param.js:293-313 | the mounted `createError` rejects with no reason: `done` receives `Rejected promise`, the route is skipped, and one request and one error event are published |
| ParamRoutes.RefuseNewUser | test/param.js:337-340 | the `/user/new` handler answers 400 `cannot get a new user` |
| ParamRoutes.AnswersNumericId | test/param.js:317-360 | `/user/<number>` is answered by the `:id` route |
| ParamRoutes.SkippedRouteFallsThrough | test/param.js:317-360 | `/user/bob` skips the `:id` route and, with nothing else matching, reaches `done` with no error (404) |
| ParamRoutes.SkippedRouteReachesNext | test/param.js:317-360 | `/user/new` skips the `:id` route and the later `/user/new` route answers 400 |
| ParamRoutes.SkipsRouteThenInvokesAgain | test/param.js:362-397 | `next('route')` for `user` skips `/:user/bob` (no `x-fn-1`), the fn runs again for `bob`, and `x-fn-2` is set |
| MountScenarios.RootMountKeepsTarget | test/fqdn-url.js:12-26 | a handler used without a path sees `http://example.com/foo` unchanged |
| MountScenarios.StrippedTarget | test/fqdn-url.js:28-70 | the stripped target is the protohost, then the rest of the path (or `/`), then the query |
| MountScenarios.MountStripsThenRestores | test/fqdn-url.js:28-44 | the mounted handler sees the stripped target, and the next layer sees the original target again |
| MountScenarios.StripsAbsoluteTarget | test/fqdn-url.js:28-44 | `/blog` on `http://example.com/blog/post/1`: `x-saw-1` is `GET http://example.com/post/1`, then `saw GET http://example.com/blog/post/1` |
| MountScenarios.QueryNeverRewritten | test/fqdn-url.js:46-57 | under any mount path, the query is kept and the mounted handler sees `/` + query |
| MountScenarios.KeepsQueryTarget | test/fqdn-url.js:46-57 | `/proxy?url=http://example.com/blog/post/1` is seen as `/?url=...` and restored |
| MountScenarios.PathOnlyRewritten | test/fqdn-url.js:59-70 | under any mount path, the mounted handler sees the rest of the path |
| MountScenarios.KeepsAbsoluteUrlInPath | test/fqdn-url.js:59-70 | `/proxy/http://example.com/blog/post/1` is seen as `/http://example.com/blog/post/1` and restored |
| DiagnosticsScenarios.LogGrows | test/diagnostics_channels.js:12-55 | an invocation adds its site to the requests and its captured error, if any, to the errors |
| DiagnosticsScenarios.ChainLog | test/diagnostics_channels.js:39-55 | the three-handler chain publishes the errors `boom!`, then `caught: boom!`, and one request per handler |
| DiagnosticsScenarios.ChainRequestLog | test/diagnostics_channels.js:39-55 | with the route's own request event first, the errors are exactly `[boom!, caught: boom!]` and the requests are the route and its three handlers |
| DiagnosticsScenarios.ErrorChainRuns | test/diagnostics_channels.js:58-77 | the rejection of `createError` goes to the first error handler, its rejection to the second, which answers 500 `caught again: caught: boom!` |
| DiagnosticsScenarios.ChainMessages | test/diagnostics_channels.js:46-48 | the two error messages are `boom!` and `caught: boom!`, and the body is `caught again: caught: boom!` |
| DiagnosticsScenarios.ErrorHandlersChain | test/diagnostics_channels.js:38-124 | GET `/foo`: 500 `caught again: caught: boom!`, exactly two error events (`boom!` then `caught: boom!`), and request events for the route and each handler |
| DiagnosticsScenarios.HitSawRequestLog | test/diagnostics_channels.js:12-28 | the `/users` dispatch publishes no error, and request events for the route layer and both handlers |
| DiagnosticsScenarios.RequestEventsPublished | test/diagnostics_channels.js:12-36 | GET `/users` answers 200 `saw GET /users` with `x-fn-1: hit`, publishes the request event of the `/users` layer and no error event |
| Fixtures.Saw | test/param.js:415-429 | `saw` answers 200, `Content-Type: text/plain`, body `saw <method> <url>` and changes nothing else |

## Left out

- Floating-point `Number(val)` and `NaN` are not modelled. A param function's conversion is a parameter (`conv`, `number`) that maps the captured string to any value.
- Body suppression for HEAD, header writing on the socket, HTTP/2 branches (`res.stream.respond`) and the `finalhandler` rendering of 404 and 500 are transport concerns. The terminal callback is the value `Done(error or none)`.
- The diagnostics pub/sub machinery is not modelled: subscribe, unsubscribe and process-wide subscriber lists. Only the ordered log of events the dispatch publishes is modelled. An event carries the layer's site, not the request and response objects.
- Promise scheduling and `process.nextTick` are not modelled. An asynchronous handler is modelled by its settled result.
- A handler calling `next` twice is not modelled, since a handler returns exactly one settlement.
- Route patterns are literal segments and `:name` segments only. The full path-to-regexp syntax is not modelled: optional, wildcard and regexp segments, case-insensitive and non-strict matching.
- Percent-decoding accepts only escapes `%00`-`%7F`. Multi-byte UTF-8 sequences are not validated, so an escape of `%80` or above is treated as a decode failure.
- `req.baseUrl`, `mergeParams`, `req.route` and URL fragments are not part of this model.
- test/support/utils.js (servers, raw and supertest clients, assertion helpers) is not part of this model.
- Allow order: the list is in first-registration order, with HEAD right after GET. A sorted list would also fit the three OPTIONS tests.
- ParamRoutes.Vals: a `vals` that is present but not a list reads as the empty list. In JavaScript, `(req.vals || [])` would keep a truthy non-list value and `concat` onto it. The tests only ever store a list there.
- Laws.AutoOptions: a router in which a layer matching the path runs handlers is outside this law. That covers a matched mount and a matched route with an `all` entry, such as test/auto-options.js:41-55. A handler there may change the exchange, publish events or end the request, so the law would need a hypothesis on what those handlers do. That case is proved only for the concrete router of `OptionsScenarios.AllRoutesNotListed`.
- Laws.OptionsCollects: the same restriction holds here. A layer that matches the path and runs handlers is not covered.
- Dispatch.RouteRun: its own ensures say only that the memo and the collected methods are untouched. What a chain does is stated by the `Steps` lemmas and the scenario lemmas.
- Dispatch.EnterRoute: its own ensures say only that the collected methods are untouched. Its effect is stated through `Steps.ParamsThenClaims`, `Steps.ParamsThenExits` and `Steps.ParamsFail`.
- Dispatch.AtMount: the same holds here. Strip and restore are stated by `Urls.StripRestore` and `MountScenarios.MountStripsThenRestores`.
- Dispatch.MountStep: the same holds here.
- Params.Process: its own ensures give only the memo growth and the failure shape. The per-name behaviour is in `RememberedValueSkipsFunctions`, `NewValueRunsFunctions`, `RecordedErrorRepeats` and `UnregisteredNameIsPassedOver`.
- Diagnostics.Errors: its own ensures give only a length bound. Membership and order are in `ErrorsMembers` and `ErrorsAppend`.
- Diagnostics.Requests: the same holds here, with `RequestsMembers` and `RequestsAppend`.
- Route layers are entered only when no error is in flight, so an error from an earlier layer passes a route by. Error handlers inside a route see errors raised within that route.
- A mount layer's handler sees `req.params` as empty, and the router restores `req.params` when the layers run out.
