/**
 * The observer log of a request: a request event before every handler that
 * runs, an error event for every throw or rejection, in the order they
 * happen, and error handlers registered with `route.all` chaining one error
 * into the next.
 */
module DiagnosticsScenarios {
  import opened Wrappers
  import opened Http
  import opened Paths
  import opened Urls
  import opened Methods
  import opened Diagnostics
  import opened Dispatch
  import opened Steps
  import opened Fixtures

  /** A one-segment literal path `/<name>` is all path, matches itself and captures nothing. */
  lemma LiteralPath(url: string, name: string)
    requires url == "/" + name && '/' !in name && '?' !in name && name != [] && name[0] != ':'
    ensures Pathname(url) == url
    ensures MatchRoute(Compile(url), url) == Matched(map[])
    ensures Keys(Compile(url)) == []
  {
    OriginForm(url);
    CompileOne(name);
    SegmentsOne(name);
    assert Compile(url) == [Literal(name)];
    MatchLiteral(name, url, name);
    KeysOne(Literal(name));
  }

  /** `new Error('boom!')`. */
  const BoomBang: Error := Error("Error", "boom!", None)

  /** `new Error('caught: ' + err.message)`. */
  function CaughtError(e: Error): Error {
    Error("Error", "caught: " + e.message, None)
  }

  /**
   * `createError` of the diagnostics tests: its promise rejects with `boom!`.
   * The parameter tests' handler of the same name rejects with no reason (`ParamRoutes.CreateError`).
   */
  function CreateError(ex: Exchange): Reply {
    Reply(ex, Rejected(Some(BoomBang)))
  }

  /** The first error handler: its promise rejects with `caught: <message>`. */
  function Recatch(e: Error, ex: Exchange): Reply {
    Reply(ex, Rejected(Some(CaughtError(e))))
  }

  /** The last error handler: status 500 and body `caught again: <message>`, without calling `next`. */
  function AnswerError(e: Error, ex: Exchange): Reply {
    Reply(Http.End(ex.(status := 500), "caught again: " + e.message), Returned)
  }

  /** `route.all(createError)`, `route.all(handleError)`, `route.all(handleError)` on one route. */
  function ErrorChainRoute(): Route {
    Route([RouteEntry(None, Normal(CreateError)), RouteEntry(None, OnError(Recatch)), RouteEntry(None, OnError(AnswerError))])
  }

  /** The events the chain of `ErrorChainRoute` publishes as the route of layer `li`, handler by handler. */
  function ChainEvents(li: nat): seq<Event> {
    Published(AtEntry(li, 0), Rejected(Some(BoomBang))) +
    Published(AtEntry(li, 1), Rejected(Some(CaughtError(BoomBang)))) +
    Published(AtEntry(li, 2), Returned)
  }

  /** One more invocation adds its site to the request channel and its captured error, if any, to the error channel. */
  lemma LogGrows(head: seq<Event>, site: Site, s: Settled)
    ensures Requests(head + Published(site, s)) == Requests(head) + [site]
    ensures Errors(head + Published(site, s)) == Errors(head) + (if CapturedError(s).Some? then [CapturedError(s).value] else [])
  {
    var events := Published(site, s);
    assert events[1..] == [] || events[1..] == [ErrorEvent(site, CapturedError(s).value)];
    assert Requests(events[1..]) == [];
    RequestsAppend(head, events);
    ErrorsAppend(head, events);
  }

  /** The route layer's own request event opens the log. */
  lemma OpeningLog(site: Site)
    ensures Requests([RequestEvent(site)]) == [site] && Errors([RequestEvent(site)]) == []
  {
    assert [RequestEvent(site)][1..] == [];
  }

  /** `sethit(1)` calls `next()` and `saw` returns: two request events and no error. */
  lemma HitSawLog(head: seq<Event>)
    ensures var log := head + Published(AtEntry(0, 0), Called(Continue)) + Published(AtEntry(0, 1), Returned);
            Errors(log) == Errors(head) && Requests(log) == Requests(head) + [AtEntry(0, 0), AtEntry(0, 1)]
  {
    LogGrows(head, AtEntry(0, 0), Called(Continue));
    LogGrows(head + Published(AtEntry(0, 0), Called(Continue)), AtEntry(0, 1), Returned);
  }

  /**
   * The chain's events one by one: each request event is followed by the
   * error its handler raised, before the next handler's request event.
   */
  lemma ChainEventsInOrder(li: nat)
    ensures ChainEvents(li) ==
              [RequestEvent(AtEntry(li, 0)), ErrorEvent(AtEntry(li, 0), BoomBang),
               RequestEvent(AtEntry(li, 1)), ErrorEvent(AtEntry(li, 1), CaughtError(BoomBang)),
               RequestEvent(AtEntry(li, 2))]
  {
  }

  /** The errors and the request sites of the chain's events. */
  lemma ChainLog(head: seq<Event>, li: nat)
    ensures Errors(head + ChainEvents(li)) == Errors(head) + [BoomBang, CaughtError(BoomBang)]
    ensures Requests(head + ChainEvents(li)) == Requests(head) + [AtEntry(li, 0), AtEntry(li, 1), AtEntry(li, 2)]
  {
    var p0 := Published(AtEntry(li, 0), Rejected(Some(BoomBang)));
    var p1 := Published(AtEntry(li, 1), Rejected(Some(CaughtError(BoomBang))));
    var p2 := Published(AtEntry(li, 2), Returned);
    assert head + ChainEvents(li) == head + p0 + p1 + p2;
    LogGrows(head, AtEntry(li, 0), Rejected(Some(BoomBang)));
    LogGrows(head + p0, AtEntry(li, 1), Rejected(Some(CaughtError(BoomBang))));
    LogGrows(head + p0 + p1, AtEntry(li, 2), Returned);
  }

  /** The whole log of the error chain's route, opened by the route layer's own request event. */
  lemma ChainRequestLog(site: Site)
    ensures Errors([RequestEvent(site)] + ChainEvents(0)) == [BoomBang, CaughtError(BoomBang)]
    ensures Requests([RequestEvent(site)] + ChainEvents(0)) == [site, AtEntry(0, 0), AtEntry(0, 1), AtEntry(0, 2)]
  {
    OpeningLog(site);
    ChainLog([RequestEvent(site)], 0);
  }

  /** The whole log of `router.get(p, sethit(1), saw)`, opened by the route layer's own request event. */
  lemma HitSawRequestLog(site: Site)
    ensures var log := [RequestEvent(site)] + Published(AtEntry(0, 0), Called(Continue)) + Published(AtEntry(0, 1), Returned);
            Errors(log) == [] && Requests(log) == [site, AtEntry(0, 0), AtEntry(0, 1)]
  {
    OpeningLog(site);
    HitSawLog([RequestEvent(site)]);
  }

  /**
   * The rejection of the normal handler is the error the first error handler
   * receives; its own rejection is the error the second receives; the second
   * answers and claims the request.
   */
  lemma ErrorChainRuns(chain: string, li: nat, c: Ctx) returns (c3: Ctx)
    ensures RouteRun(ErrorChainRoute(), chain, li, 0, None, c) == (Claimed, c3)
    ensures c3.ex == Http.End(c.ex.(status := 500), "caught again: " + CaughtError(BoomBang).message)
    ensures c3.log == c.log + ChainEvents(li)
    ensures c3.memo == c.memo && c3.allow == c.allow
  {
    var route := ErrorChainRoute();
    var p0 := Published(AtEntry(li, 0), Rejected(Some(BoomBang)));
    var p1 := Published(AtEntry(li, 1), Rejected(Some(CaughtError(BoomBang))));
    var p2 := Published(AtEntry(li, 2), Returned);
    RunsEntry(route, chain, li, 0, None, c);
    InvokesNormal(route.stack[0].handler, AtEntry(li, 0), c);
    var c1 := c.(log := c.log + p0);
    RunsEntry(route, chain, li, 1, Some(BoomBang), c1);
    InvokesOnError(route.stack[1].handler, BoomBang, AtEntry(li, 1), c1);
    var c2 := c1.(log := c1.log + p1);
    RunsEntry(route, chain, li, 2, Some(CaughtError(BoomBang)), c2);
    InvokesOnError(route.stack[2].handler, CaughtError(BoomBang), AtEntry(li, 2), c2);
    c3 := c2.(ex := AnswerError(CaughtError(BoomBang), c2.ex).ex, log := c2.log + p2);
    assert c3.log == c.log + (p0 + p1 + p2);
  }

  /** The messages the chain builds. */
  lemma ChainMessages()
    ensures CaughtError(BoomBang).message == "caught: boom!"
    ensures "caught again: " + CaughtError(BoomBang).message == "caught again: caught: boom!"
  {
  }

  /** The router's loop over `router.route(p)` with the three handlers, for any `p` the request's path matches exactly. */
  lemma ErrorChainLayer(p: string, url: string) returns (c3: Ctx)
    requires MatchRoute(Compile(p), Pathname(url)) == Matched(map[]) && Keys(Compile(p)) == []
    ensures Run(Router([RouteLayer(p, ErrorChainRoute())], map[]), 0, None, Start(NewExchange("GET", url))) == (Halted, c3)
    ensures c3.ex.status == 500 && c3.ex.body == "caught again: " + CaughtError(BoomBang).message
    ensures c3.log == [RequestEvent(AtLayer(0, p))] + ChainEvents(0)
  {
    var route := ErrorChainRoute();
    var rt := Router([RouteLayer(p, route)], map[]);
    assert route.stack[0].verb.None?;
    assert HandlesMethod(route, "GET");
    var c := Start(NewExchange("GET", url));
    var c2 := Entered(rt, 0, c, map[]);
    assert rt.layers[0].path == p;
    assert c2.log == [] + [RequestEvent(AtLayer(0, p))];
    assert [] + [RequestEvent(AtLayer(0, p))] == [RequestEvent(AtLayer(0, p))];
    c3 := ErrorChainRuns(ChainVerb(route, "GET"), 0, c2);
    RouteClaims(rt, 0, c, map[], c3);
  }

  /**
   * A normal handler's rejected promise reaches the next error handler, whose
   * rejection reaches the one after it: GET `/foo` ends with status 500 and
   * body `caught again: caught: boom!`. The error channel sees exactly two
   * errors, `boom!` then `caught: boom!`, each right after the request event
   * of the handler that raised it; the request channel sees the route's
   * layer and then its three handlers, in registration order.
   */
  lemma ErrorHandlersChain(url: string)
    requires url == "/foo"
    ensures var f := Handle(Router([RouteLayer(url, ErrorChainRoute())], map[]), NewExchange("GET", url));
            f.end == Held && f.ex.status == 500 && f.ex.body == "caught again: caught: boom!" &&
            f.log == [RequestEvent(AtLayer(0, url))] + ChainEvents(0) &&
            Errors(f.log) == [BoomBang, CaughtError(BoomBang)] &&
            BoomBang.message == "boom!" && CaughtError(BoomBang).message == "caught: boom!" &&
            Requests(f.log) == [AtLayer(0, url), AtEntry(0, 0), AtEntry(0, 1), AtEntry(0, 2)]
  {
    assert url == "/" + "foo";
    LiteralPath(url, "foo");
    var c3 := ErrorChainLayer(url, url);
    HandleHeld(Router([RouteLayer(url, ErrorChainRoute())], map[]), NewExchange("GET", url), c3);
    ChainMessages();
    ChainRequestLog(AtLayer(0, url));
  }

  /** The router's loop over `router.get(p, sethit(1), saw)`, for any `p` the request's path matches exactly. */
  lemma RequestEventsLayer(p: string, url: string) returns (c4: Ctx)
    requires MatchRoute(Compile(p), Pathname(url)) == Matched(map[]) && Keys(Compile(p)) == []
    ensures Run(Router([RouteLayer(p, HitSawRoute("GET", "x-fn-1"))], map[]), 0, None, Start(NewExchange("GET", url))) == (Halted, c4)
    ensures c4.ex == Saw(SetHeader(NewExchange("GET", url).(params := map[]), "x-fn-1", "hit")).ex
    ensures c4.log == [RequestEvent(AtLayer(0, p))] + Published(AtEntry(0, 0), Called(Continue)) + Published(AtEntry(0, 1), Returned)
  {
    var route := HitSawRoute("GET", "x-fn-1");
    var rt := Router([RouteLayer(p, route)], map[]);
    assert route.stack[0].verb == Some("GET");
    assert HandlesMethod(route, "GET");
    var c := Start(NewExchange("GET", url));
    var c2 := Entered(rt, 0, c, map[]);
    assert rt.layers[0].path == p;
    assert c2.log == [] + [RequestEvent(AtLayer(0, p))];
    assert [] + [RequestEvent(AtLayer(0, p))] == [RequestEvent(AtLayer(0, p))];
    HitSawChain("GET", "x-fn-1", 0, c2);
    var c3 := c2.(ex := SetHeader(c2.ex, "x-fn-1", "hit"), log := c2.log + Published(AtEntry(0, 0), Called(Continue)));
    c4 := c3.(ex := Saw(c3.ex).ex, log := c3.log + Published(AtEntry(0, 1), Returned));
    RouteClaims(rt, 0, c, map[], c4);
  }

  /**
   * GET `/users` to `router.get('/users', sethit(1), saw)`: `x-fn-1` is set
   * and `saw` answers 200 `saw GET /users`. A request event for the layer
   * of `/users` is published before its handlers run, each handler gets its
   * own request event, and nothing goes to the error channel.
   */
  lemma RequestEventsPublished(url: string)
    requires url == "/users"
    ensures var f := Handle(Router([RouteLayer(url, HitSawRoute("GET", "x-fn-1"))], map[]), NewExchange("GET", url));
            f.end == Held && f.ex.status == 200 &&
            f.ex.headers == map["x-fn-1" := "hit", "Content-Type" := "text/plain"] &&
            f.ex.body == "saw GET " + url &&
            Requests(f.log) == [AtLayer(0, url), AtEntry(0, 0), AtEntry(0, 1)] &&
            Errors(f.log) == []
  {
    UsersPath(url);
    var c4 := RequestEventsLayer(url, url);
    HandleHeld(Router([RouteLayer(url, HitSawRoute("GET", "x-fn-1"))], map[]), NewExchange("GET", url), c4);
    HitThenSaw("GET", url, "x-fn-1");
    SawWords();
    HitSawRequestLog(AtLayer(0, url));
  }
}
