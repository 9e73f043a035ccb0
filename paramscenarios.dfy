/**
 * The parameter tests of the router: functions registered with
 * `router.param(name, fn)` and the routes that capture those names, each
 * request walked through the dispatch loop to the answer or error it ends in.
 *
 * `Number(val)` is floating-point; a function that stores it is given the
 * rendering it stands for as a parameter (`conv`, or `number`, which yields
 * None for NaN), so each property holds for every such rendering.
 */
module ParamScenarios {
  import opened Wrappers
  import opened Http
  import opened Paths
  import opened Urls
  import opened Methods
  import opened Params
  import opened Diagnostics
  import opened Dispatch
  import opened Steps
  import opened Fixtures

  /** `String(req.params[key])`: `undefined` when the name is absent. */
  function Field(params: map<string, string>, key: string): (s: string)
    ensures key in params ==> s == params[key]
    ensures key !in params ==> s == "undefined"
  {
    if key in params then params[key] else "undefined"
  }

  /** `parseId`: `req.params.id = Number(val)`, then `next()`. */
  function ParseId(conv: string -> string): ParamFn {
    (ex: Exchange, val: string) => Reply(ex.(params := ex.params["id" := conv(val)]), Called(Continue))
  }

  /** The handler answering `get user <req.params.id>` as plain text. */
  function GetUser(ex: Exchange): (r: Reply)
    ensures r.settled == Returned && r.ex.headersSent && r.ex.status == ex.status
    ensures r.ex.headers == ex.headers["Content-Type" := "text/plain"]
    ensures r.ex.body == "get user " + Field(ex.params, "id")
  {
    Reply(Http.End(SetHeader(ex, "Content-Type", "text/plain"), "get user " + Field(ex.params, "id")), Returned)
  }

  /** The parameter processing of a route `/user/:id` with `parseId` for a fresh request capturing `v`. */
  lemma ParseIdRuns(conv: string -> string, reg: Registry, ex: Exchange, v: string)
    requires reg == map["id" := [ParseId(conv)]]
    ensures var st := ParamState(ex.(params := map["id" := v]), map[]);
            Process(reg, ["id"], 0, st) ==
              (ParamsDone, ParamState(ex.(params := map["id" := conv(v)]), map["id" := ParamMemo(Continue, v, Some(conv(v)))]))
  {
    var st := ParamState(ex.(params := map["id" := v]), map[]);
    OneFnDecides(reg, "id", ParseId(conv), st);
    assert st.ex.params["id" := conv(v)] == map["id" := conv(v)];
  }

  /**
   * `router.param('id', parseId)` and `router.get('/user/:id', ...)`: GET
   * `/user/<v>` answers 200 with `get user` and the converted value; the
   * function's write to `req.params` is what the handler reads, and no value
   * is refused (`/user/2` gives `get user 2`, `/user/bob` gives `get user NaN`).
   */
  lemma MapsPathParam(p: string, url: string, v: string, conv: string -> string)
    requires p == "/user/:id" && url == "/user/" + v
    requires v != [] && '/' !in v && '?' !in v && '%' !in v
    ensures var f := Handle(Router([RouteLayer(p, SoleRoute("GET", GetUser))], map["id" := [ParseId(conv)]]), NewExchange("GET", url));
            f.end == Held && f.ex.status == 200 && f.ex.body == "get user " + conv(v) &&
            f.ex.headers == map["Content-Type" := "text/plain"]
  {
    var rt := Router([RouteLayer(p, SoleRoute("GET", GetUser))], map["id" := [ParseId(conv)]]);
    var ex := NewExchange("GET", url);
    var c := Start(ex);
    UserCapturePattern(p);
    UserRequest(url, v);
    MatchLiteralCapture("user", "id", url, "user", v);
    PlainValue(v);
    SoleRouteMethods("GET", GetUser, "GET");
    ParseIdRuns(conv, rt.params, ex, v);
    var st := ParamState(ex.(params := map["id" := conv(v)]), map["id" := ParamMemo(Continue, v, Some(conv(v)))]);
    var c1 := AfterParams(rt, 0, c, st);
    SoleChainAnswers("GET", GetUser, 0, c1);
    var c2 := c1.(ex := GetUser(c1.ex).ex, log := c1.log + Published(AtEntry(0, 0), Returned));
    ParamsThenClaims(rt, 0, c, map["id" := v], st, c2);
    HandleHeld(rt, ex, c2);
  }

  /** The four refusals of `router.param`: no name, the number 42 as name, no fn, the number 42 as fn. */
  lemma ParamRejectsBadArguments(reg: Registry)
    ensures Register(reg, Undefined, Undefined) == Err(Error("TypeError", "argument name is required", None))
    ensures Register(reg, Number(42), Undefined) == Err(Error("TypeError", "argument name must be a string", None))
    ensures Register(reg, Text("id"), Undefined) == Err(Error("TypeError", "argument fn is required", None))
    ensures Register(reg, Text("id"), Number(42)) == Err(Error("TypeError", "argument fn must be a function", None))
  {
  }

  /** `req.<key>` as string concatenation shows it. */
  function Shown(locals: map<string, Value>, key: string): (s: string)
    ensures key !in locals ==> s == "undefined"
    ensures key in locals && locals[key].Str? ==> s == locals[key].s
  {
    if key !in locals then "undefined"
    else match locals[key]
      case Str(t) => t
      case Num(n) => if n < 0 then "-" + Decimal(-n) else Decimal(n)
      case List(items) => JoinBy(items, ",")
  }

  /** The decimal digits of `n`. */
  function Decimal(n: nat): (s: string)
    ensures |s| >= 1
  {
    if n < 10 then [(48 + n) as char] else Decimal(n / 10) + [(48 + n % 10) as char]
  }

  function JoinBy(items: seq<string>, sep: string): string {
    if items == [] then "" else if |items| == 1 then items[0] else items[0] + sep + JoinBy(items[1..], sep)
  }

  /** Second `parseId` of the chaining test: `req.itemId = Number(val)`, then `next()`. */
  function ParseItemId(conv: string -> string): ParamFn {
    (ex: Exchange, val: string) => Reply(ex.(locals := ex.locals["itemId" := Str(conv(val))]), Called(Continue))
  }

  /** The handler answering `get user <req.params.id> (<req.itemId>)` as plain text. */
  function GetUserItem(ex: Exchange): (r: Reply)
    ensures r.settled == Returned && r.ex.status == ex.status
    ensures r.ex.body == "get user " + Field(ex.params, "id") + " (" + Shown(ex.locals, "itemId") + ")"
  {
    Reply(Http.End(SetHeader(ex, "Content-Type", "text/plain"),
                   "get user " + Field(ex.params, "id") + " (" + Shown(ex.locals, "itemId") + ")"), Returned)
  }

  /** Both functions registered for `id` run, the first before the second. */
  lemma ChainedFunctionsRun(conv: string -> string, reg: Registry, ex: Exchange, v: string)
    requires reg == map["id" := [ParseId(conv), ParseItemId(conv)]]
    ensures var st := ParamState(ex.(params := map["id" := v]), map[]);
            var ex2 := ex.(params := map["id" := conv(v)], locals := ex.locals["itemId" := Str(conv(v))]);
            Process(reg, ["id"], 0, st) == (ParamsDone, ParamState(ex2, map["id" := ParamMemo(Continue, v, Some(conv(v)))]))
  {
    var st := ParamState(ex.(params := map["id" := v]), map[]);
    ProcessFresh(reg, "id", st);
    var m := ParamMemo(Continue, v, Some(conv(v)));
    var st1 := st.(memo := map["id" := ParamMemo(Continue, v, Some(v))]);
    assert st.memo["id" := ParamMemo(Continue, v, Some(v))] == st1.memo;
    var ex1 := ex.(params := map["id" := conv(v)]);
    assert ParseId(conv)(st1.ex, v) == Reply(ex1, Called(Continue)) by {
      assert st1.ex.params["id" := conv(v)] == map["id" := conv(v)];
    }
    FnContinues(reg["id"], 0, "id", v, st1);
    assert st1.memo["id" := st1.memo["id"].(value := Lookup(ex1.params, "id"))] == map["id" := m];
    var ex2 := ex1.(locals := ex.locals["itemId" := Str(conv(v))]);
    FnContinues(reg["id"], 1, "id", v, ParamState(ex1, map["id" := m]));
    assert map["id" := m]["id" := m.(value := Lookup(ex2.params, "id"))] == map["id" := m];
    FnsEnd(reg["id"], 2, "id", v, ParamState(ex2, map["id" := m]));
  }

  /**
   * Two functions for `id` and `router.get('/user/:id', ...)`: GET `/user/<v>`
   * shows both writes, `req.params.id` from the first and `req.itemId` from
   * the second (`/user/2` gives `get user 2 (2)`).
   */
  lemma ChainsParamFunctions(p: string, url: string, v: string, conv: string -> string)
    requires p == "/user/:id" && url == "/user/" + v
    requires v != [] && '/' !in v && '?' !in v && '%' !in v
    ensures var f := Handle(Router([RouteLayer(p, SoleRoute("GET", GetUserItem))], map["id" := [ParseId(conv), ParseItemId(conv)]]),
                            NewExchange("GET", url));
            f.end == Held && f.ex.status == 200 && f.ex.body == "get user " + conv(v) + " (" + conv(v) + ")"
  {
    var rt := Router([RouteLayer(p, SoleRoute("GET", GetUserItem))], map["id" := [ParseId(conv), ParseItemId(conv)]]);
    var ex := NewExchange("GET", url);
    var c := Start(ex);
    UserCapturePattern(p);
    UserRequest(url, v);
    MatchLiteralCapture("user", "id", url, "user", v);
    PlainValue(v);
    SoleRouteMethods("GET", GetUserItem, "GET");
    ChainedFunctionsRun(conv, rt.params, ex, v);
    var ex2 := ex.(params := map["id" := conv(v)], locals := ex.locals["itemId" := Str(conv(v))]);
    var st := ParamState(ex2, map["id" := ParamMemo(Continue, v, Some(conv(v)))]);
    var c1 := AfterParams(rt, 0, c, st);
    SoleChainAnswers("GET", GetUserItem, 0, c1);
    var c2 := c1.(ex := GetUserItem(c1.ex).ex, log := c1.log + Published(AtEntry(0, 0), Returned));
    ParamsThenClaims(rt, 0, c, map["id" := v], st, c2);
    HandleHeld(rt, ex, c2);
  }

  /** `parseUser`: `req.user = user`, then `next()`. */
  function ParseUser(ex: Exchange, val: string): (r: Reply)
    ensures r == Reply(ex.(locals := ex.locals["user" := Str(val)]), Called(Continue))
  {
    Reply(ex.(locals := ex.locals["user" := Str(val)]), Called(Continue))
  }

  /** A route `/user/:id` answering through a route that captures no name with functions. */
  lemma DecodedValueAnswers(p: string, url: string, v: string, d: string)
    requires p == "/user/:id" && url == "/user/" + v && v != [] && '/' !in v && '?' !in v
    requires DecodeParam(v) == Ok(d)
    ensures var f := Handle(Router([RouteLayer(p, SoleRoute("GET", GetUser))], map["user" := [ParseUser]]), NewExchange("GET", url));
            f.end == Held && f.ex.body == "get user " + d && f.ex.locals == map[]
  {
    var rt := Router([RouteLayer(p, SoleRoute("GET", GetUser))], map["user" := [ParseUser]]);
    var ex := NewExchange("GET", url);
    var c := Start(ex);
    UserCapturePattern(p);
    UserRequest(url, v);
    MatchLiteralCapture("user", "id", url, "user", v);
    SoleRouteMethods("GET", GetUser, "GET");
    var st := ParamState(ex.(params := map["id" := d]), map[]);
    ProcessUnregistered(rt.params, "id", st);
    var c1 := AfterParams(rt, 0, c, st);
    SoleChainAnswers("GET", GetUser, 0, c1);
    var c2 := c1.(ex := GetUser(c1.ex).ex, log := c1.log + Published(AtEntry(0, 0), Returned));
    ParamsThenClaims(rt, 0, c, map["id" := d], st, c2);
    HandleHeld(rt, ex, c2);
  }

  /**
   * A captured value is percent-decoded before anyone sees it: GET
   * `/user/%22bob%2Frobert%22` answers `get user "bob/robert"`, the escaped
   * slash staying inside the one value; the `user` function does not run,
   * the route capturing only `id`.
   */
  lemma DecodesPathValue(p: string, url: string, v: string)
    requires p == "/user/:id" && url == "/user/" + v && v == "%22bob%2Frobert%22"
    ensures var f := Handle(Router([RouteLayer(p, SoleRoute("GET", GetUser))], map["user" := [ParseUser]]), NewExchange("GET", url));
            f.end == Held && f.ex.body == "get user " + "\"bob/robert\"" && f.ex.locals == map[]
  {
    QuotedValue(v);
    QuotedPieces(v);
    DecodedValueAnswers(p, url, v, "\"bob/robert\"");
  }

  /**
   * A malformed escape fails the route's match: GET `/user/%bob` goes to
   * `done` with the URIError `Failed to decode param '%bob'` of status 400,
   * and no handler runs.
   */
  lemma RejectsMalformedValue(p: string, url: string, v: string)
    requires p == "/user/:id" && url == "/user/" + v && v == "%bob"
    ensures var f := Handle(Router([RouteLayer(p, SoleRoute("GET", GetUser))], map["user" := [ParseUser]]), NewExchange("GET", url));
            f == Final(NewExchange("GET", url), [], Done(Some(DecodeError(v)))) &&
            f.end.error.value.name == "URIError" && f.end.error.value.status == Some(400)
  {
    var rt := Router([RouteLayer(p, SoleRoute("GET", GetUser))], map["user" := [ParseUser]]);
    var ex := NewExchange("GET", url);
    var c := Start(ex);
    UserCapturePattern(p);
    MalformedValue(v);
    MalformedPieces(v);
    UserRequest(url, v);
    MatchLiteralCapture("user", "id", url, "user", v);
    RunPastDecodeFailure(rt, 0, c, DecodeError(v));
    RunEnds(rt, 1, Some(DecodeError(v)), c);
    HandleExhausted(rt, ex, Some(DecodeError(v)), c);
    assert c.ex.(params := ex.params) == ex;
  }

  /** The only-when-necessary test's `parseId`: `res.setHeader('x-id', val)`, then `next()`. */
  function SetXId(ex: Exchange, val: string): (r: Reply)
    ensures r == Reply(SetHeader(ex, "x-id", val), Called(Continue))
  {
    Reply(SetHeader(ex, "x-id", val), Called(Continue))
  }

  /** A parameter function throwing `new Error('boom')`. */
  function ThrowBoom(ex: Exchange, val: string): (r: Reply)
    ensures r == Reply(ex, Threw(Boom))
  {
    Reply(ex, Threw(Boom))
  }

  /** The registrations and routes of the only-when-necessary test. */
  ghost predicate NecessaryRoutes(rt: Router, p1: string, p2: string) {
    rt == Router([RouteLayer(p1, SoleRoute("GET", Saw)), RouteLayer(p2, SoleRoute("PUT", Saw))],
                 map["id" := [SetXId], "user" := [ThrowBoom]])
  }

  /** How the two routes of the only-when-necessary test match `url`, capturing `v`. */
  ghost predicate NecessaryMatch(rt: Router, url: string, v: string)
    requires |rt.layers| == 2
  {
    && MatchRoute(Compile(rt.layers[0].path), Pathname(url)) == Matched(map["user" := v])
    && MatchRoute(Compile(rt.layers[1].path), Pathname(url)) == Matched(map["id" := v])
    && Keys(Compile(rt.layers[0].path)) == ["user"]
    && Keys(Compile(rt.layers[1].path)) == ["id"]
  }

  lemma NecessaryPaths(rt: Router, p1: string, p2: string, url: string, v: string)
    requires NecessaryRoutes(rt, p1, p2) && p1 == "/user/:user" && p2 == "/user/:id" && url == "/user/" + v
    requires v != [] && '/' !in v && '?' !in v && '%' !in v
    ensures NecessaryMatch(rt, url, v)
  {
    UserCapturePattern(p1);
    UserCapturePattern(p2);
    UserRequest(url, v);
    MatchLiteralCapture("user", "user", url, "user", v);
    MatchLiteralCapture("user", "id", url, "user", v);
    PlainValue(v);
  }

  /**
   * GET `/user/<v>` matches the GET route `/user/:user`, whose `user`
   * function throws: the request goes to `done` with `Error: boom`, and the
   * `id` function, whose name this route does not capture, never ran (no
   * `x-id` header).
   */
  lemma NecessaryGet(rt: Router, p1: string, p2: string, url: string, v: string)
    requires NecessaryRoutes(rt, p1, p2) && NecessaryMatch(rt, url, v)
    ensures Handle(rt, NewExchange("GET", url)) == Final(NewExchange("GET", url), [], Done(Some(Boom)))
  {
    var ex := NewExchange("GET", url);
    var c := Start(ex);
    SoleRouteMethods("GET", Saw, "GET");
    var st := ParamState(ex.(params := map["user" := v]), map[]);
    OneFnDecides(rt.params, "user", ThrowBoom, st);
    var st1 := ParamState(st.ex, map["user" := ParamMemo(Fail(Boom), v, Some(v))]);
    assert EntryParams(rt, 0, c, map["user" := v]) == (ParamsFailed(Fail(Boom)), st1);
    ParamsFail(rt, 0, c, map["user" := v], Fail(Boom), st1);
    var c1 := c.(ex := st1.ex, memo := st1.memo);
    RunPastOnError(rt, 1, Boom, c1, map["id" := v]);
    RunEnds(rt, 2, Some(Boom), c1);
    HandleExhausted(rt, ex, Some(Boom), c1);
    assert c1.ex.(params := ex.params) == ex;
  }

  /** PUT `/user/<v>`: the GET route is passed over, then the PUT route's `id` function runs. */
  lemma NecessaryPutRun(rt: Router, p1: string, p2: string, url: string, v: string)
    requires NecessaryRoutes(rt, p1, p2) && NecessaryMatch(rt, url, v)
    ensures var ex := NewExchange("PUT", url);
            var st1 := ParamState(SetHeader(ex.(params := map["id" := v]), "x-id", v), map["id" := ParamMemo(Continue, v, Some(v))]);
            var c1 := AfterParams(rt, 1, Start(ex), st1);
            Run(rt, 0, None, Start(ex)) == (Halted, c1.(ex := Saw(c1.ex).ex, log := c1.log + Published(AtEntry(1, 0), Returned)))
  {
    var ex := NewExchange("PUT", url);
    var c := Start(ex);
    SoleRouteMethods("GET", Saw, "PUT");
    SoleRouteMethods("PUT", Saw, "PUT");
    RunPastOtherMethod(rt, 0, c, map["user" := v]);
    var st := ParamState(ex.(params := map["id" := v]), map[]);
    OneFnDecides(rt.params, "id", SetXId, st);
    var st1 := ParamState(SetHeader(st.ex, "x-id", v), map["id" := ParamMemo(Continue, v, Some(v))]);
    assert EntryParams(rt, 1, c, map["id" := v]) == (ParamsDone, st1);
    var c1 := AfterParams(rt, 1, c, st1);
    SoleChainAnswers("PUT", Saw, 1, c1);
    var c2 := c1.(ex := Saw(c1.ex).ex, log := c1.log + Published(AtEntry(1, 0), Returned));
    ParamsThenClaims(rt, 1, c, map["id" := v], st1, c2);
  }

  /**
   * PUT `/user/<v>` passes the GET route over without running the `user`
   * function and is answered by the PUT route `/user/:id`, whose `id`
   * function set `x-id` to the value first (`/user/bob` gives `x-id: bob`
   * and `saw PUT /user/bob`).
   */
  lemma NecessaryPut(rt: Router, p1: string, p2: string, url: string, v: string)
    requires NecessaryRoutes(rt, p1, p2) && NecessaryMatch(rt, url, v)
    ensures var f := Handle(rt, NewExchange("PUT", url));
            f.end == Held && f.ex.status == 200 && f.ex.body == "saw PUT " + url &&
            f.ex.headers == map["x-id" := v, "Content-Type" := "text/plain"]
  {
    var ex := NewExchange("PUT", url);
    NecessaryPutRun(rt, p1, p2, url, v);
    var st1 := ParamState(SetHeader(ex.(params := map["id" := v]), "x-id", v), map["id" := ParamMemo(Continue, v, Some(v))]);
    var c1 := AfterParams(rt, 1, Start(ex), st1);
    HandleHeld(rt, ex, c1.(ex := Saw(c1.ex).ex, log := c1.log + Published(AtEntry(1, 0), Returned)));
    SawWords();
    assert c1.ex.headers == map["x-id" := v];
  }

  /** Both requests of the only-when-necessary test. */
  lemma InvokesOnlyWhenNecessary(p1: string, p2: string, url: string, v: string)
    requires p1 == "/user/:user" && p2 == "/user/:id" && url == "/user/" + v
    requires v != [] && '/' !in v && '?' !in v && '%' !in v
    ensures var rt := Router([RouteLayer(p1, SoleRoute("GET", Saw)), RouteLayer(p2, SoleRoute("PUT", Saw))],
                             map["id" := [SetXId], "user" := [ThrowBoom]]);
            Handle(rt, NewExchange("GET", url)).end == Done(Some(Boom)) &&
            Handle(rt, NewExchange("GET", url)).ex.headers == map[] &&
            Handle(rt, NewExchange("PUT", url)).end == Held &&
            Handle(rt, NewExchange("PUT", url)).ex.headers == map["x-id" := v, "Content-Type" := "text/plain"] &&
            Handle(rt, NewExchange("PUT", url)).ex.body == "saw PUT " + url
  {
    var rt := Router([RouteLayer(p1, SoleRoute("GET", Saw)), RouteLayer(p2, SoleRoute("PUT", Saw))],
                     map["id" := [SetXId], "user" := [ThrowBoom]]);
    NecessaryPaths(rt, p1, p2, url, v);
    NecessaryGet(rt, p1, p2, url, v);
    NecessaryPut(rt, p1, p2, url, v);
  }

  /** `(req.count || 0) + 1`. */
  function CountUp(locals: map<string, Value>): (n: int)
    ensures "count" !in locals ==> n == 1
    ensures "count" in locals && locals["count"].Num? ==> n == locals["count"].n + 1
  {
    if "count" in locals && locals["count"].Num? then locals["count"].n + 1 else 1
  }

  /** The once-per-request test's `parseUser`: counts its runs, stores `req.user`, then `next()`. */
  function CountUser(ex: Exchange, val: string): (r: Reply)
    ensures r == Reply(ex.(locals := ex.locals["count" := Num(CountUp(ex.locals))]["user" := Str(val)]), Called(Continue))
  {
    Reply(ex.(locals := ex.locals["count" := Num(CountUp(ex.locals))]["user" := Str(val)]), Called(Continue))
  }

  /** The closing `router.use` handler: `get user <req.user> <req.count> times`. */
  function CountReport(ex: Exchange): (r: Reply)
    ensures r.settled == Returned && r.ex.headers == ex.headers && r.ex.locals == ex.locals
    ensures r.ex.body == "get user " + Shown(ex.locals, "user") + " " + Shown(ex.locals, "count") + " times"
  {
    Reply(Http.End(ex, "get user " + Shown(ex.locals, "user") + " " + Shown(ex.locals, "count") + " times"), Returned)
  }

  ghost predicate OnceRoutes(rt: Router, p: string) {
    rt == Router([RouteLayer(p, SoleRoute("GET", SetHit("x-fn-1"))), RouteLayer(p, SoleRoute("GET", SetHit("x-fn-2"))),
                  Mount("/", Normal(CountReport))], map["user" := [CountUser]])
  }

  /** Both routes of a test capture `v` as `user` from `url`. */
  ghost predicate BothCaptureUser(rt: Router, url: string, v: string)
    requires |rt.layers| >= 2
  {
    && MatchRoute(Compile(rt.layers[0].path), Pathname(url)) == Matched(map["user" := v])
    && MatchRoute(Compile(rt.layers[1].path), Pathname(url)) == Matched(map["user" := v])
    && Keys(Compile(rt.layers[0].path)) == ["user"] && Keys(Compile(rt.layers[1].path)) == ["user"]
  }

  lemma OncePaths(rt: Router, p: string, url: string, v: string)
    requires OnceRoutes(rt, p) && p == "/user/:user" && url == "/user/" + v
    requires v != [] && '/' !in v && '?' !in v && '%' !in v
    ensures BothCaptureUser(rt, url, v)
  {
    UserCapturePattern(p);
    UserRequest(url, v);
    MatchLiteralCapture("user", "user", url, "user", v);
    PlainValue(v);
  }

  /** The first capture of `v` runs `parseUser`: the count becomes 1. */
  lemma CountUserRuns(reg: Registry, ex: Exchange, v: string)
    requires reg == map["user" := [CountUser]] && ex.locals == map[]
    ensures Process(reg, ["user"], 0, ParamState(ex.(params := map["user" := v]), map[])) ==
              (ParamsDone, ParamState(ex.(params := map["user" := v], locals := map["count" := Num(1), "user" := Str(v)]),
                                      map["user" := ParamMemo(Continue, v, Some(v))]))
  {
    var st := ParamState(ex.(params := map["user" := v]), map[]);
    OneFnDecides(reg, "user", CountUser, st);
  }

  /** The first route's parameters: `parseUser` runs for `v` and the count becomes 1. */
  lemma OnceFirstParams(rt: Router, url: string, v: string) returns (st1: ParamState)
    requires 1 <= |rt.layers| && rt.params == map["user" := [CountUser]] && Keys(Compile(rt.layers[0].path)) == ["user"]
    ensures EntryParams(rt, 0, Start(NewExchange("GET", url)), map["user" := v]) == (ParamsDone, st1)
    ensures st1.ex == NewExchange("GET", url).(params := map["user" := v], locals := map["count" := Num(1), "user" := Str(v)])
    ensures st1.memo == map["user" := ParamMemo(Continue, v, Some(v))]
  {
    var ex := NewExchange("GET", url);
    CountUserRuns(rt.params, ex, v);
    st1 := ParamState(ex.(params := map["user" := v], locals := map["count" := Num(1), "user" := Str(v)]),
                      map["user" := ParamMemo(Continue, v, Some(v))]);
  }

  /** The first route's chain: `x-fn-1` is set and the chain goes on. */
  lemma OnceFirstChain(rt: Router, p: string, url: string, st1: ParamState) returns (c1: Ctx)
    requires LayerIs(rt, 0, RouteLayer(p, SoleRoute("GET", SetHit("x-fn-1"))))
    ensures RouteRun(rt.layers[0].route, "GET", 0, 0, None, AfterParams(rt, 0, Start(NewExchange("GET", url)), st1)) == (Exit(None), c1)
    ensures c1.ex == SetHeader(st1.ex, "x-fn-1", "hit") && c1.memo == st1.memo
    ensures c1.log == [RequestEvent(AtLayer(0, p)), RequestEvent(AtEntry(0, 0))]
  {
    var c0 := AfterParams(rt, 0, Start(NewExchange("GET", url)), st1);
    SoleChainContinues("GET", SetHit("x-fn-1"), 0, c0);
    assert Published(AtEntry(0, 0), Called(Continue)) == [RequestEvent(AtEntry(0, 0))];
    c1 := c0.(ex := SetHeader(c0.ex, "x-fn-1", "hit"), log := c0.log + [RequestEvent(AtEntry(0, 0))]);
    assert c0.log == [RequestEvent(AtLayer(0, p))];
  }

  /** The first route: `parseUser` runs for `v`, the count becomes 1 and `x-fn-1` is set. */
  lemma OnceFirst(rt: Router, p: string, url: string, v: string) returns (c1: Ctx)
    requires |rt.layers| >= 2 && LayerIs(rt, 0, RouteLayer(p, SoleRoute("GET", SetHit("x-fn-1")))) && rt.params == map["user" := [CountUser]]
    requires BothCaptureUser(rt, url, v)
    ensures LayerStep(rt, 0, None, Start(NewExchange("GET", url))) == Onward(None, c1)
    ensures c1.ex == SetHeader(NewExchange("GET", url).(params := map["user" := v], locals := map["count" := Num(1), "user" := Str(v)]), "x-fn-1", "hit")
    ensures c1.memo == map["user" := ParamMemo(Continue, v, Some(v))]
    ensures c1.log == [RequestEvent(AtLayer(0, p)), RequestEvent(AtEntry(0, 0))]
  {
    SoleRouteMethods("GET", SetHit("x-fn-1"), "GET");
    var st1 := OnceFirstParams(rt, url, v);
    c1 := OnceFirstChain(rt, p, url, st1);
    ParamsThenExitsStep(rt, 0, Start(NewExchange("GET", url)), map["user" := v], st1, None, c1);
  }

  /** The second route captures the same value: `parseUser` does not run again; `x-fn-2` is set. */
  lemma OnceSecond(rt: Router, p: string, url: string, v: string, c1: Ctx) returns (c2: Ctx)
    requires LayerIs(rt, 1, RouteLayer(p, SoleRoute("GET", SetHit("x-fn-2")))) && "user" in rt.params
    requires BothCaptureUser(rt, url, v)
    requires c1.ex.verb == "GET" && c1.ex.url == url && c1.ex.params == map["user" := v]
    requires c1.memo == map["user" := ParamMemo(Continue, v, Some(v))]
    ensures LayerStep(rt, 1, None, c1) == Onward(None, c2)
    ensures c2.ex == SetHeader(c1.ex, "x-fn-2", "hit")
    ensures c2.log == c1.log + [RequestEvent(AtLayer(1, p)), RequestEvent(AtEntry(1, 0))]
  {
    SoleRouteMethods("GET", SetHit("x-fn-2"), "GET");
    OnceSecondParams(rt, v, c1);
    c2 := OnceSecondChain(rt, p, c1);
    ParamsThenExitsStep(rt, 1, c1, map["user" := v], ParamState(c1.ex, c1.memo), None, c2);
  }

  /** The second route's parameters: the remembered value is the captured one, so nothing runs. */
  lemma OnceSecondParams(rt: Router, v: string, c1: Ctx)
    requires 2 <= |rt.layers| && "user" in rt.params && Keys(Compile(rt.layers[1].path)) == ["user"]
    requires c1.ex.params == map["user" := v] && c1.memo == map["user" := ParamMemo(Continue, v, Some(v))]
    ensures EntryParams(rt, 1, c1, map["user" := v]) == (ParamsDone, ParamState(c1.ex, c1.memo))
  {
    SameValueSkips(rt.params, "user", c1.ex, c1.memo, v, v);
    assert c1.ex.(params := map["user" := v]) == c1.ex;
  }

  /** The second route's chain: `x-fn-2` is set and the chain goes on. */
  lemma OnceSecondChain(rt: Router, p: string, c1: Ctx) returns (c2: Ctx)
    requires LayerIs(rt, 1, RouteLayer(p, SoleRoute("GET", SetHit("x-fn-2"))))
    ensures RouteRun(rt.layers[1].route, "GET", 1, 0, None, AfterParams(rt, 1, c1, ParamState(c1.ex, c1.memo))) == (Exit(None), c2)
    ensures c2.ex == SetHeader(c1.ex, "x-fn-2", "hit")
    ensures c2.log == c1.log + [RequestEvent(AtLayer(1, p)), RequestEvent(AtEntry(1, 0))]
  {
    var c0 := AfterParams(rt, 1, c1, ParamState(c1.ex, c1.memo));
    SoleChainContinues("GET", SetHit("x-fn-2"), 1, c0);
    assert Published(AtEntry(1, 0), Called(Continue)) == [RequestEvent(AtEntry(1, 0))];
    c2 := c0.(ex := SetHeader(c0.ex, "x-fn-2", "hit"), log := c0.log + [RequestEvent(AtEntry(1, 0))]);
    assert c2.log == c1.log + [RequestEvent(AtLayer(1, p)), RequestEvent(AtEntry(1, 0))];
  }

  lemma OnceWords(v: string)
    ensures "get user " + v + " " + Decimal(1) + " times" == "get user " + v + " 1 times"
  {
    assert Decimal(1) == "1";
  }

  /**
   * Two GET routes `/user/:user` and a closing handler: GET `/user/<v>` runs
   * `parseUser` once although both routes capture `v`; both routes' handlers
   * run (`x-fn-1` and `x-fn-2`), and the closing handler answers
   * `get user <v> 1 times` (`get user bob 1 times`).
   */
  lemma InvokesOncePerRequest(p: string, url: string, v: string)
    requires p == "/user/:user" && url == "/user/" + v
    requires v != [] && '/' !in v && '?' !in v && '%' !in v
    ensures var rt := Router([RouteLayer(p, SoleRoute("GET", SetHit("x-fn-1"))), RouteLayer(p, SoleRoute("GET", SetHit("x-fn-2"))),
                              Mount("/", Normal(CountReport))], map["user" := [CountUser]]);
            var f := Handle(rt, NewExchange("GET", url));
            f.end == Held && "count" in f.ex.locals && f.ex.locals["count"] == Num(1) && f.ex.body == "get user " + v + " 1 times" &&
            f.ex.headers == map["x-fn-1" := "hit", "x-fn-2" := "hit"]
  {
    var rt := Router([RouteLayer(p, SoleRoute("GET", SetHit("x-fn-1"))), RouteLayer(p, SoleRoute("GET", SetHit("x-fn-2"))),
                      Mount("/", Normal(CountReport))], map["user" := [CountUser]]);
    OncePaths(rt, p, url, v);
    var c1 := OnceFirst(rt, p, url, v);
    var c2 := OnceSecond(rt, p, url, v, c1);
    RunTwoOnward(rt, Start(NewExchange("GET", url)), None, c1, None, c2);
    RunRootMount(rt, 2, c2);
    var reply := CountReport(c2.ex.(params := map[]));
    var c3 := c2.(ex := reply.ex, log := c2.log + Published(AtLayer(2, "/"), Returned));
    HandleHeld(rt, NewExchange("GET", url), c3);
    OnceWords(v);
  }

  /** The keep-changes test's `parseUser`: counts its runs, `req.params.id = Number(val)`, then `next()`. */
  function CountId(conv: string -> string): ParamFn {
    (ex: Exchange, val: string) =>
      Reply(ex.(locals := ex.locals["count" := Num(CountUp(ex.locals))], params := ex.params["id" := conv(val)]), Called(Continue))
  }

  /** `res.setHeader('x-user-id', req.params.id)`, then `next()`. */
  function SetUserIdHeader(ex: Exchange): (r: Reply)
    ensures r == Reply(SetHeader(ex, "x-user-id", Field(ex.params, "id")), Called(Continue))
  {
    Reply(SetHeader(ex, "x-user-id", Field(ex.params, "id")), Called(Continue))
  }

  lemma UserIdHeaderSet(ex: Exchange, x: string)
    requires ex.params == map["id" := x]
    ensures SetUserIdHeader(ex) == Reply(SetHeader(ex, "x-user-id", x), Called(Continue))
  {
  }

  /** `res.end('get user ' + req.params.id + ' ' + req.count + ' times')`. */
  function CountIdReport(ex: Exchange): (r: Reply)
    ensures r.settled == Returned && r.ex.headers == ex.headers && r.ex.status == ex.status
    ensures r.ex.body == "get user " + Field(ex.params, "id") + " " + Shown(ex.locals, "count") + " times"
  {
    Reply(Http.End(ex, "get user " + Field(ex.params, "id") + " " + Shown(ex.locals, "count") + " times"), Returned)
  }

  /** Both routes of a test capture `v` as `id` from `url`. */
  ghost predicate BothCaptureId(rt: Router, url: string, v: string)
    requires |rt.layers| >= 2
  {
    && MatchRoute(Compile(rt.layers[0].path), Pathname(url)) == Matched(map["id" := v])
    && MatchRoute(Compile(rt.layers[1].path), Pathname(url)) == Matched(map["id" := v])
    && Keys(Compile(rt.layers[0].path)) == ["id"] && Keys(Compile(rt.layers[1].path)) == ["id"]
  }

  lemma KeepPaths(rt: Router, p: string, url: string, v: string)
    requires |rt.layers| >= 2 && rt.layers[0].path == p && rt.layers[1].path == p
    requires p == "/user/:id" && url == "/user/" + v && v != [] && '/' !in v && '?' !in v && '%' !in v
    ensures BothCaptureId(rt, url, v)
  {
    UserCapturePattern(p);
    UserRequest(url, v);
    MatchLiteralCapture("user", "id", url, "user", v);
    PlainValue(v);
  }

  /** The first capture of `v` runs the counting `parseUser`. */
  lemma CountIdRuns(conv: string -> string, reg: Registry, ex: Exchange, v: string)
    requires reg == map["id" := [CountId(conv)]] && ex.locals == map[]
    ensures Process(reg, ["id"], 0, ParamState(ex.(params := map["id" := v]), map[])) ==
              (ParamsDone, ParamState(ex.(params := map["id" := conv(v)], locals := map["count" := Num(1)]),
                                      map["id" := ParamMemo(Continue, v, Some(conv(v)))]))
  {
    var st := ParamState(ex.(params := map["id" := v]), map[]);
    OneFnDecides(reg, "id", CountId(conv), st);
    assert st.ex.params["id" := conv(v)] == map["id" := conv(v)];
  }

  /** The first route: the function converts the value, and the handler copies it into `x-user-id`. */
  lemma KeepFirst(rt: Router, p: string, url: string, v: string, conv: string -> string) returns (c1: Ctx)
    requires |rt.layers| >= 2 && LayerIs(rt, 0, RouteLayer(p, SoleRoute("GET", SetUserIdHeader))) && rt.params == map["id" := [CountId(conv)]]
    requires BothCaptureId(rt, url, v)
    ensures LayerStep(rt, 0, None, Start(NewExchange("GET", url))) == Onward(None, c1)
    ensures c1.ex == SetHeader(NewExchange("GET", url).(params := map["id" := conv(v)], locals := map["count" := Num(1)]), "x-user-id", conv(v))
    ensures c1.memo == map["id" := ParamMemo(Continue, v, Some(conv(v)))]
  {
    var ex := NewExchange("GET", url);
    var c := Start(ex);
    SoleRouteMethods("GET", SetUserIdHeader, "GET");
    CountIdRuns(conv, rt.params, ex, v);
    var st1 := ParamState(ex.(params := map["id" := conv(v)], locals := map["count" := Num(1)]),
                          map["id" := ParamMemo(Continue, v, Some(conv(v)))]);
    assert EntryParams(rt, 0, c, map["id" := v]) == (ParamsDone, st1);
    var c0 := AfterParams(rt, 0, c, st1);
    SoleChainContinues("GET", SetUserIdHeader, 0, c0);
    UserIdHeaderSet(c0.ex, conv(v));
    c1 := c0.(ex := SetHeader(c0.ex, "x-user-id", conv(v)), log := c0.log + Published(AtEntry(0, 0), Called(Continue)));
    ParamsThenExitsStep(rt, 0, c, map["id" := v], st1, None, c1);
  }

  /** A key remembered with the raw value `v` and left value `x`: its functions are skipped, and `x` is restored. */
  lemma SameValueSkips(reg: Registry, key: string, ex: Exchange, memo: map<string, ParamMemo>, v: string, x: string)
    requires key in reg && memo == map[key := ParamMemo(Continue, v, Some(x))]
    ensures Process(reg, [key], 0, ParamState(ex.(params := map[key := v]), memo)) ==
              (ParamsDone, ParamState(ex.(params := map[key := x]), memo))
  {
    var st := ParamState(ex.(params := map[key := v]), memo);
    RememberedValueSkipsFunctions(reg, key, st);
    assert Put(st.ex.params, key, Some(x)) == map[key := x];
  }

  /** The second route captures the same raw value: the function does not run, and `req.params.id` is its converted value again. */
  lemma KeepSecond(rt: Router, p: string, url: string, v: string, conv: string -> string, c1: Ctx) returns (c2: Ctx)
    requires LayerIs(rt, 1, RouteLayer(p, SoleRoute("GET", CountIdReport))) && "id" in rt.params
    requires BothCaptureId(rt, url, v)
    requires c1.ex.verb == "GET" && c1.ex.url == url && c1.memo == map["id" := ParamMemo(Continue, v, Some(conv(v)))]
    ensures LayerStep(rt, 1, None, c1) == Stop(c2)
    ensures c2.ex == CountIdReport(c1.ex.(params := map["id" := conv(v)])).ex
  {
    SoleRouteMethods("GET", CountIdReport, "GET");
    SameValueSkips(rt.params, "id", c1.ex, c1.memo, v, conv(v));
    var st1 := ParamState(c1.ex.(params := map["id" := conv(v)]), c1.memo);
    assert EntryParams(rt, 1, c1, map["id" := v]) == (ParamsDone, st1);
    var c0 := AfterParams(rt, 1, c1, st1);
    SoleChainAnswers("GET", CountIdReport, 1, c0);
    c2 := c0.(ex := CountIdReport(c0.ex).ex, log := c0.log + Published(AtEntry(1, 0), Returned));
    ParamsThenClaimsStep(rt, 1, c1, map["id" := v], st1, c2);
  }

  /**
   * Two GET routes `/user/:id`, the function converting the value: GET
   * `/user/<v>` runs it once, and the second route sees the converted value
   * it left, not the raw capture (`/user/01` gives `get user 1 1 times`).
   */
  lemma KeepsParamChanges(p: string, url: string, v: string, conv: string -> string)
    requires p == "/user/:id" && url == "/user/" + v && v != [] && '/' !in v && '?' !in v && '%' !in v
    ensures var rt := Router([RouteLayer(p, SoleRoute("GET", SetUserIdHeader)), RouteLayer(p, SoleRoute("GET", CountIdReport))],
                             map["id" := [CountId(conv)]]);
            var f := Handle(rt, NewExchange("GET", url));
            f.end == Held && f.ex.body == "get user " + conv(v) + " 1 times" && f.ex.headers == map["x-user-id" := conv(v)]
  {
    var rt := Router([RouteLayer(p, SoleRoute("GET", SetUserIdHeader)), RouteLayer(p, SoleRoute("GET", CountIdReport))],
                     map["id" := [CountId(conv)]]);
    KeepPaths(rt, p, url, v);
    var c1 := KeepFirst(rt, p, url, v, conv);
    var c2 := KeepSecond(rt, p, url, v, conv, c1);
    RunOnward(rt, 0, None, Start(NewExchange("GET", url)));
    RunStops(rt, 1, None, c1);
    HandleHeld(rt, NewExchange("GET", url), c2);
    OnceWords(conv(v));
  }
}
