/**
 * The remaining parameter tests of the router: a function that runs again for
 * a different value of the same name, functions that throw or reject, and
 * `next('route')` from a parameter function, each request walked through the
 * dispatch loop to the answer or error it ends in.
 */
module ParamRoutes {
  import opened Wrappers
  import opened Http
  import opened Paths
  import opened Urls
  import opened Params
  import opened Diagnostics
  import opened Dispatch
  import opened Steps
  import opened Fixtures
  import opened ParamScenarios

  /** `(req.vals || [])`. */
  function Vals(locals: map<string, Value>): (items: seq<string>)
    ensures "vals" !in locals ==> items == []
    ensures "vals" in locals && locals["vals"].List? ==> items == locals["vals"].items
  {
    if "vals" in locals && locals["vals"].List? then locals["vals"].items else []
  }

  /** What the differing-value tests' `parseUser` leaves: the count up by one, `req.user = user`, `user` appended to `req.vals`. */
  function Collect(ex: Exchange, val: string): (r: Exchange)
    ensures r.locals == ex.locals["count" := Num(CountUp(ex.locals))]["user" := Str(val)]["vals" := List(Vals(ex.locals) + [val])]
    ensures r.params == ex.params && r.headers == ex.headers && r.verb == ex.verb && r.url == ex.url
  {
    ex.(locals := ex.locals["count" := Num(CountUp(ex.locals))]["user" := Str(val)]["vals" := List(Vals(ex.locals) + [val])])
  }

  /** `parseUser` of the first differing-value test: collects, then `next()`. */
  function CollectUser(ex: Exchange, val: string): (r: Reply)
    ensures r == Reply(Collect(ex, val), Called(Continue))
  {
    Reply(Collect(ex, val), Called(Continue))
  }

  /** `parseUser` of the `next('route')` differing-value test: collects, then `next('route')` for the value `user`. */
  function CollectUserOrSkip(ex: Exchange, val: string): (r: Reply)
    ensures r.ex == Collect(ex, val)
    ensures r.settled == Called(if val == "user" then SkipRoute else Continue)
  {
    Reply(Collect(ex, val), Called(if val == "user" then SkipRoute else Continue))
  }

  /** The closing handler: `get user <req.user> <req.count> times: <req.vals.join(', ')>`; `join` of no array throws. */
  function ValsReport(ex: Exchange): (r: Reply)
    ensures "vals" in ex.locals && ex.locals["vals"].List? ==>
              r.settled == Returned && r.ex.headers == ex.headers &&
              r.ex.body == "get user " + Shown(ex.locals, "user") + " " + Shown(ex.locals, "count") + " times: " +
                           JoinBy(ex.locals["vals"].items, ", ")
    ensures !("vals" in ex.locals && ex.locals["vals"].List?) ==> r.settled.Threw? && r.ex == ex
  {
    if "vals" in ex.locals && ex.locals["vals"].List? then
      Reply(Http.End(ex, "get user " + Shown(ex.locals, "user") + " " + Shown(ex.locals, "count") + " times: " +
                         JoinBy(ex.locals["vals"].items, ", ")), Returned)
    else
      Reply(ex, Threw(Error("TypeError", "Cannot read properties of undefined (reading 'join')", None)))
  }

  /** The first route captures `u` for `user` from `url`, the second `w`. */
  ghost predicate DiffersMatch(rt: Router, url: string, u: string, w: string)
    requires |rt.layers| >= 2
  {
    && MatchRoute(Compile(rt.layers[0].path), Pathname(url)) == Matched(map["user" := u])
    && MatchRoute(Compile(rt.layers[1].path), Pathname(url)) == Matched(map["user" := w])
    && Keys(Compile(rt.layers[0].path)) == ["user"] && Keys(Compile(rt.layers[1].path)) == ["user"]
  }

  /** `/:user/<w>` and `/<u>/:user` both match `/<u>/<w>`, capturing `u` and `w`. */
  lemma DiffersPaths(rt: Router, url: string, u: string, w: string)
    requires |rt.layers| >= 2
    requires Compile(rt.layers[0].path) == [Capture("user"), Literal(w)] && Keys(Compile(rt.layers[0].path)) == ["user"]
    requires Compile(rt.layers[1].path) == [Literal(u), Capture("user")] && Keys(Compile(rt.layers[1].path)) == ["user"]
    requires url == "/" + u + "/" + w && u != [] && w != []
    requires '/' !in u && '?' !in u && '%' !in u && '/' !in w && '?' !in w && '%' !in w
    ensures DiffersMatch(rt, url, u, w)
  {
    assert '?' !in url by {
      assert url == "/" + u + "/" + w;
    }
    RequestTwo(url, u, w);
    MatchCaptureLiteral("user", w, url, u, w);
    MatchLiteralCapture(u, "user", url, u, w);
    PlainValue(u);
    PlainValue(w);
  }

  /** The values of both differing-value tests. */
  lemma DiffersValues(u: string, w: string)
    requires u == "user" && w == "bob"
    ensures u != [] && '/' !in u && '?' !in u && '%' !in u
    ensures w != [] && '/' !in w && '?' !in w && '%' !in w && w != u
    ensures forall ex: Exchange :: CollectUser(ex, u) == Reply(Collect(ex, u), Called(Continue))
    ensures forall ex: Exchange :: CollectUser(ex, w) == Reply(Collect(ex, w), Called(Continue))
    ensures forall ex: Exchange :: CollectUserOrSkip(ex, u) == Reply(Collect(ex, u), Called(SkipRoute))
    ensures forall ex: Exchange :: CollectUserOrSkip(ex, w) == Reply(Collect(ex, w), Called(Continue))
    ensures "/user/bob" == "/" + u + "/" + w
    ensures "get user " + w + " 2 times: " + u + ", " + w == "get user bob 2 times: user, bob"
  {
  }

  /** The only function for `user`, continuing for `v`, runs for a value not remembered and leaves its collection. */
  lemma CollectRuns(fn: ParamFn, reg: Registry, st: ParamState, v: string)
    requires forall ex: Exchange :: fn(ex, v) == Reply(Collect(ex, v), Called(Continue))
    requires reg == map["user" := [fn]] && st.ex.params == map["user" := v] && !Remembered(st.memo, "user", v)
    ensures Process(reg, ["user"], 0, st) ==
              (ParamsDone, ParamState(Collect(st.ex, v), st.memo["user" := ParamMemo(Continue, v, Some(v))]))
  {
    OneFnDecides(reg, "user", fn, st);
    assert fn(st.ex, v) == Reply(Collect(st.ex, v), Called(Continue));
  }

  /** What the first run of a collecting function leaves on a fresh request. */
  lemma CollectFirst(ex: Exchange, u: string)
    requires ex.locals == map[]
    ensures Collect(ex, u).locals == map["count" := Num(1), "user" := Str(u), "vals" := List([u])]
  {
    assert [] + [u] == [u];
  }

  /** What the second run of a collecting function leaves after the first. */
  lemma CollectSecond(ex: Exchange, u: string, w: string)
    requires ex.locals == map["count" := Num(1), "user" := Str(u), "vals" := List([u])]
    ensures Collect(ex, w).locals == map["count" := Num(2), "user" := Str(w), "vals" := List([u, w])]
  {
    assert [u] + [w] == [u, w];
  }

  /** The first route, whose function continues for `u`: `u` is collected and `x-fn-1` is set. */
  lemma DiffersFirst(rt: Router, url: string, p1: string, u: string, w: string) returns (c1: Ctx)
    requires |rt.layers| >= 2 && LayerIs(rt, 0, RouteLayer(p1, SoleRoute("GET", SetHit("x-fn-1"))))
    requires rt.params == map["user" := [CollectUser]] && DiffersMatch(rt, url, u, w)
    requires forall ex: Exchange :: CollectUser(ex, u) == Reply(Collect(ex, u), Called(Continue))
    ensures LayerStep(rt, 0, None, Start(NewExchange("GET", url))) == Onward(None, c1)
    ensures c1.ex.verb == "GET" && c1.ex.url == url && c1.ex.headers == map["x-fn-1" := "hit"]
    ensures c1.ex.locals == map["count" := Num(1), "user" := Str(u), "vals" := List([u])]
    ensures c1.memo == map["user" := ParamMemo(Continue, u, Some(u))]
  {
    var ex := NewExchange("GET", url);
    var c := Start(ex);
    SoleRouteMethods("GET", SetHit("x-fn-1"), "GET");
    var st := ParamState(ex.(params := map["user" := u]), map[]);
    CollectRuns(CollectUser, rt.params, st, u);
    var st1 := ParamState(Collect(st.ex, u), st.memo["user" := ParamMemo(Continue, u, Some(u))]);
    assert EntryParams(rt, 0, c, map["user" := u]) == (ParamsDone, st1);
    var c0 := AfterParams(rt, 0, c, st1);
    SoleChainContinues("GET", SetHit("x-fn-1"), 0, c0);
    c1 := c0.(ex := SetHeader(c0.ex, "x-fn-1", "hit"), log := c0.log + Published(AtEntry(0, 0), Called(Continue)));
    ParamsThenExitsStep(rt, 0, c, map["user" := u], st1, None, c1);
    CollectFirst(st.ex, u);
  }

  /** The first route, whose function calls `next('route')` for `u`: `u` is collected and the route is skipped. */
  lemma DiffersSkipFirst(rt: Router, url: string, p1: string, u: string, w: string) returns (c1: Ctx)
    requires |rt.layers| >= 2 && LayerIs(rt, 0, RouteLayer(p1, SoleRoute("GET", SetHit("x-fn-1"))))
    requires rt.params == map["user" := [CollectUserOrSkip]] && DiffersMatch(rt, url, u, w)
    requires forall ex: Exchange :: CollectUserOrSkip(ex, u) == Reply(Collect(ex, u), Called(SkipRoute))
    ensures LayerStep(rt, 0, None, Start(NewExchange("GET", url))) == Onward(None, c1)
    ensures c1.ex.verb == "GET" && c1.ex.url == url && c1.ex.headers == map[]
    ensures c1.ex.locals == map["count" := Num(1), "user" := Str(u), "vals" := List([u])]
    ensures c1.memo == map["user" := ParamMemo(SkipRoute, u, Some(u))]
  {
    var ex := NewExchange("GET", url);
    var c := Start(ex);
    SoleRouteMethods("GET", SetHit("x-fn-1"), "GET");
    var st := ParamState(ex.(params := map["user" := u]), map[]);
    OneFnDecides(rt.params, "user", CollectUserOrSkip, st);
    assert CollectUserOrSkip(st.ex, u) == Reply(Collect(st.ex, u), Called(SkipRoute));
    var st1 := ParamState(Collect(st.ex, u), st.memo["user" := ParamMemo(SkipRoute, u, Some(u))]);
    assert EntryParams(rt, 0, c, map["user" := u]) == (ParamsFailed(SkipRoute), st1);
    ParamsFailStep(rt, 0, c, map["user" := u], SkipRoute, st1);
    c1 := c.(ex := st1.ex, memo := st1.memo);
    CollectFirst(st.ex, u);
  }

  /** The second route captures `w`, not the remembered `u`: the only function for `user` runs again and `x-fn-2` is set. */
  lemma DiffersSecond(rt: Router, url: string, p2: string, fn: ParamFn, u: string, w: string, o: Signal, c1: Ctx) returns (c2: Ctx)
    requires LayerIs(rt, 1, RouteLayer(p2, SoleRoute("GET", SetHit("x-fn-2")))) && rt.params == map["user" := [fn]]
    requires forall ex: Exchange :: fn(ex, w) == Reply(Collect(ex, w), Called(Continue))
    requires DiffersMatch(rt, url, u, w) && u != w && !o.Fail?
    requires c1.ex.verb == "GET" && c1.ex.url == url && c1.memo == map["user" := ParamMemo(o, u, Some(u))]
    requires c1.ex.locals == map["count" := Num(1), "user" := Str(u), "vals" := List([u])]
    ensures LayerStep(rt, 1, None, c1) == Onward(None, c2)
    ensures c2.ex.headers == c1.ex.headers["x-fn-2" := "hit"] && c2.ex.verb == "GET" && c2.ex.url == url
    ensures c2.ex.locals == map["count" := Num(2), "user" := Str(w), "vals" := List([u, w])]
  {
    SoleRouteMethods("GET", SetHit("x-fn-2"), "GET");
    var st := ParamState(c1.ex.(params := map["user" := w]), c1.memo);
    CollectRuns(fn, rt.params, st, w);
    var st1 := ParamState(Collect(st.ex, w), c1.memo["user" := ParamMemo(Continue, w, Some(w))]);
    assert EntryParams(rt, 1, c1, map["user" := w]) == (ParamsDone, st1);
    var c0 := AfterParams(rt, 1, c1, st1);
    SoleChainContinues("GET", SetHit("x-fn-2"), 1, c0);
    c2 := c0.(ex := SetHeader(c0.ex, "x-fn-2", "hit"), log := c0.log + Published(AtEntry(1, 0), Called(Continue)));
    ParamsThenExitsStep(rt, 1, c1, map["user" := w], st1, None, c2);
    CollectSecond(st.ex, u, w);
  }

  lemma DiffersWords(u: string, w: string)
    ensures "get user " + w + " " + Decimal(2) + " times: " + JoinBy([u, w], ", ") == "get user " + w + " 2 times: " + u + ", " + w
  {
    assert Decimal(2) == "2";
    assert JoinBy([u, w], ", ") == u + ", " + JoinBy([w], ", ");
  }

  /** The closing handler after both routes: the collection is reported. */
  lemma DiffersReport(rt: Router, url: string, u: string, w: string, c2: Ctx)
    requires |rt.layers| == 3 && LayerIs(rt, 2, Mount("/", Normal(ValsReport)))
    requires Run(rt, 0, None, Start(NewExchange("GET", url))) == Run(rt, 2, None, c2)
    requires c2.ex.locals == map["count" := Num(2), "user" := Str(w), "vals" := List([u, w])]
    ensures var f := Handle(rt, NewExchange("GET", url));
            f.end == Held && f.ex.body == "get user " + w + " 2 times: " + u + ", " + w && f.ex.headers == c2.ex.headers
  {
    RunRootMount(rt, 2, c2);
    var reply := ValsReport(c2.ex.(params := map[]));
    var c3 := c2.(ex := reply.ex, log := c2.log + Published(AtLayer(2, "/"), Returned));
    HandleHeld(rt, NewExchange("GET", url), c3);
    DiffersWords(u, w);
  }

  /**
   * `parseUser` for `user`, and GET routes `/:user/bob` and `/user/:user`
   * before a closing handler: GET `/user/bob` runs the function for `user`
   * and again for `bob`, since the second route captures a different value;
   * both routes' handlers run and the answer is `get user bob 2 times: user, bob`.
   */
  lemma InvokesAgainWhenValueDiffers(p1: string, p2: string, url: string)
    requires p1 == "/:user/bob" && p2 == "/user/:user" && url == "/user/bob"
    ensures var rt := Router([RouteLayer(p1, SoleRoute("GET", SetHit("x-fn-1"))), RouteLayer(p2, SoleRoute("GET", SetHit("x-fn-2"))),
                              Mount("/", Normal(ValsReport))], map["user" := [CollectUser]]);
            var f := Handle(rt, NewExchange("GET", url));
            f.end == Held && f.ex.body == "get user bob 2 times: user, bob" &&
            f.ex.headers == map["x-fn-1" := "hit", "x-fn-2" := "hit"]
  {
    var rt := Router([RouteLayer(p1, SoleRoute("GET", SetHit("x-fn-1"))), RouteLayer(p2, SoleRoute("GET", SetHit("x-fn-2"))),
                      Mount("/", Normal(ValsReport))], map["user" := [CollectUser]]);
    var u, w := "user", "bob";
    DiffersValues(u, w);
    UserBobPattern(p1);
    UserCapturePattern(p2);
    DiffersPaths(rt, url, u, w);
    var c1 := DiffersFirst(rt, url, p1, u, w);
    var c2 := DiffersSecond(rt, url, p2, CollectUser, u, w, Continue, c1);
    RunTwoOnward(rt, Start(NewExchange("GET", url)), None, c1, None, c2);
    DiffersReport(rt, url, u, w, c2);
  }

  /**
   * The same, with the function calling `next('route')` when the value is
   * `user`: the first route is skipped (no `x-fn-1`), the function still runs
   * again for `bob`, and the answer is the same.
   */
  lemma SkipsRouteThenInvokesAgain(p1: string, p2: string, url: string)
    requires p1 == "/:user/bob" && p2 == "/user/:user" && url == "/user/bob"
    ensures var rt := Router([RouteLayer(p1, SoleRoute("GET", SetHit("x-fn-1"))), RouteLayer(p2, SoleRoute("GET", SetHit("x-fn-2"))),
                              Mount("/", Normal(ValsReport))], map["user" := [CollectUserOrSkip]]);
            var f := Handle(rt, NewExchange("GET", url));
            f.end == Held && f.ex.body == "get user bob 2 times: user, bob" && f.ex.headers == map["x-fn-2" := "hit"]
  {
    var rt := Router([RouteLayer(p1, SoleRoute("GET", SetHit("x-fn-1"))), RouteLayer(p2, SoleRoute("GET", SetHit("x-fn-2"))),
                      Mount("/", Normal(ValsReport))], map["user" := [CollectUserOrSkip]]);
    var u, w := "user", "bob";
    DiffersValues(u, w);
    UserBobPattern(p1);
    UserCapturePattern(p2);
    DiffersPaths(rt, url, u, w);
    var c1 := DiffersSkipFirst(rt, url, p1, u, w);
    var c2 := DiffersSecond(rt, url, p2, CollectUserOrSkip, u, w, SkipRoute, c1);
    RunTwoOnward(rt, Start(NewExchange("GET", url)), None, c1, None, c2);
    DiffersReport(rt, url, u, w, c2);
  }

  /** `process.nextTick(next)`: continues later, changing nothing. */
  function Defer(ex: Exchange, val: string): (r: Reply)
    ensures r == Reply(ex, Called(Continue))
  {
    Reply(ex, Called(Continue))
  }

  /** A parameter function returning `Promise.reject(new Error('boom'))`. */
  function RejectBoom(ex: Exchange, val: string): (r: Reply)
    ensures r == Reply(ex, Rejected(Some(Boom)))
  {
    Reply(ex, Rejected(Some(Boom)))
  }

  /** A parameter function returning `Promise.reject()`. */
  function RejectNothing(ex: Exchange, val: string): (r: Reply)
    ensures r == Reply(ex, Rejected(None))
  {
    Reply(ex, Rejected(None))
  }

  /** `createError` of the parameter tests: `Promise.reject()`, with no reason, unlike the diagnostics tests' `DiagnosticsScenarios.CreateError`. */
  function CreateError(ex: Exchange): (r: Reply)
    ensures r == Reply(ex, Rejected(None))
  {
    Reply(ex, Rejected(None))
  }

  /**
   * A GET route `/user/:user` whose parameter processing fails with `e` for
   * the captured `v`, leaving the request as it was: the request goes to
   * `done` with `e`, nothing written and no event published.
   */
  lemma FailingParamReachesDone(rt: Router, url: string, v: string, e: Error, st1: ParamState)
    requires |rt.layers| == 1 && rt.layers[0].RouteLayer? && rt.layers[0].route == SoleRoute("GET", GetUser)
    requires MatchRoute(Compile(rt.layers[0].path), Pathname(url)) == Matched(map["user" := v])
    requires Keys(Compile(rt.layers[0].path)) == ["user"]
    requires Process(rt.params, ["user"], 0, ParamState(NewExchange("GET", url).(params := map["user" := v]), map[])) == (ParamsFailed(Fail(e)), st1)
    requires st1.ex == NewExchange("GET", url).(params := map["user" := v])
    ensures Handle(rt, NewExchange("GET", url)) == Final(NewExchange("GET", url), [], Done(Some(e)))
  {
    var ex := NewExchange("GET", url);
    var c := Start(ex);
    SoleRouteMethods("GET", GetUser, "GET");
    assert EntryParams(rt, 0, c, map["user" := v]) == (ParamsFailed(Fail(e)), st1);
    ParamsFail(rt, 0, c, map["user" := v], Fail(e), st1);
    var c1 := c.(ex := st1.ex, memo := st1.memo);
    RunEnds(rt, 1, Some(e), c1);
    HandleExhausted(rt, ex, Some(e), c1);
    assert c1.ex.(params := ex.params) == ex;
  }

  /** `router.get('/user/:user', ...)` and GET `/user/<v>`: the route captures `v` as `user`. */
  lemma UserRoutePath(rt: Router, url: string, v: string)
    requires |rt.layers| >= 1 && rt.layers[0].path == "/user/:user"
    requires url == "/user/" + v && v != [] && '/' !in v && '?' !in v && '%' !in v
    ensures MatchRoute(Compile(rt.layers[0].path), Pathname(url)) == Matched(map["user" := v])
    ensures Keys(Compile(rt.layers[0].path)) == ["user"]
  {
    UserCapturePattern(rt.layers[0].path);
    UserRequest(url, v);
    MatchLiteralCapture("user", "user", url, "user", v);
    PlainValue(v);
  }

  /**
   * A `user` function that throws `new Error('boom')`: GET `/user/<v>` goes
   * to `done` with that error (500 `Error: boom`), the route's handler never
   * running.
   */
  lemma CatchesThrowInParam(url: string, v: string)
    requires url == "/user/" + v && v != [] && '/' !in v && '?' !in v && '%' !in v
    ensures Handle(Router([RouteLayer("/user/:user", SoleRoute("GET", GetUser))], map["user" := [ThrowBoom]]), NewExchange("GET", url)) ==
              Final(NewExchange("GET", url), [], Done(Some(Boom)))
  {
    var rt := Router([RouteLayer("/user/:user", SoleRoute("GET", GetUser))], map["user" := [ThrowBoom]]);
    UserRoutePath(rt, url, v);
    var st := ParamState(NewExchange("GET", url).(params := map["user" := v]), map[]);
    OneFnDecides(rt.params, "user", ThrowBoom, st);
    FailingParamReachesDone(rt, url, v, Boom, ParamState(st.ex, st.memo["user" := ParamMemo(Fail(Boom), v, Some(v))]));
  }

  /**
   * Two `user` functions, the first deferring `next()`, the second throwing:
   * both run in order and the request goes to `done` with `Error: boom`.
   */
  lemma CatchesThrowInChainedParam(url: string, v: string)
    requires url == "/user/" + v && v != [] && '/' !in v && '?' !in v && '%' !in v
    ensures Handle(Router([RouteLayer("/user/:user", SoleRoute("GET", GetUser))], map["user" := [Defer, ThrowBoom]]), NewExchange("GET", url)) ==
              Final(NewExchange("GET", url), [], Done(Some(Boom)))
  {
    var rt := Router([RouteLayer("/user/:user", SoleRoute("GET", GetUser))], map["user" := [Defer, ThrowBoom]]);
    UserRoutePath(rt, url, v);
    var st := ParamState(NewExchange("GET", url).(params := map["user" := v]), map[]);
    ProcessFresh(rt.params, "user", st);
    var m := ParamMemo(Continue, v, Some(v));
    var st1 := st.(memo := st.memo["user" := m]);
    FnContinues(rt.params["user"], 0, "user", v, st1);
    assert st1.memo["user" := st1.memo["user"].(value := Lookup(st.ex.params, "user"))] == st1.memo;
    FnStops(rt.params["user"], 1, "user", v, st1, Fail(Boom));
    FailingParamReachesDone(rt, url, v, Boom, ParamState(st.ex, st1.memo["user" := m.(outcome := Fail(Boom))]));
  }

  /** A `user` function whose promise rejects with `new Error('boom')`: `done` gets that error. */
  lemma PassesRejectionInParam(url: string, v: string)
    requires url == "/user/" + v && v != [] && '/' !in v && '?' !in v && '%' !in v
    ensures Handle(Router([RouteLayer("/user/:user", SoleRoute("GET", GetUser))], map["user" := [RejectBoom]]), NewExchange("GET", url)) ==
              Final(NewExchange("GET", url), [], Done(Some(Boom)))
  {
    var rt := Router([RouteLayer("/user/:user", SoleRoute("GET", GetUser))], map["user" := [RejectBoom]]);
    UserRoutePath(rt, url, v);
    var st := ParamState(NewExchange("GET", url).(params := map["user" := v]), map[]);
    OneFnDecides(rt.params, "user", RejectBoom, st);
    FailingParamReachesDone(rt, url, v, Boom, ParamState(st.ex, st.memo["user" := ParamMemo(Fail(Boom), v, Some(v))]));
  }

  /** A `user` function whose promise rejects without a reason: `done` gets `Error: Rejected promise`. */
  lemma RejectionWithoutReasonInParam(url: string, v: string)
    requires url == "/user/" + v && v != [] && '/' !in v && '?' !in v && '%' !in v
    ensures Handle(Router([RouteLayer("/user/:user", SoleRoute("GET", GetUser))], map["user" := [RejectNothing]]), NewExchange("GET", url)) ==
              Final(NewExchange("GET", url), [], Done(Some(RejectedPromise)))
  {
    var rt := Router([RouteLayer("/user/:user", SoleRoute("GET", GetUser))], map["user" := [RejectNothing]]);
    UserRoutePath(rt, url, v);
    var st := ParamState(NewExchange("GET", url).(params := map["user" := v]), map[]);
    OneFnDecides(rt.params, "user", RejectNothing, st);
    FailingParamReachesDone(rt, url, v, RejectedPromise, ParamState(st.ex, st.memo["user" := ParamMemo(Fail(RejectedPromise), v, Some(v))]));
  }

  /**
   * `createError` mounted at `/` rejects without a reason before the route
   * `/user/:user`, whose function would reject too: `done` gets
   * `Error: Rejected promise` from the mounted handler, the route (and so its
   * function) passed over with the error in flight; the one error event is
   * the mounted handler's.
   */
  lemma PassesRejectionWithoutReason(url: string, v: string)
    requires url == "/user/" + v && v != [] && '/' !in v && '?' !in v && '%' !in v
    ensures var rt := Router([Mount("/", Normal(CreateError)), RouteLayer("/user/:user", SoleRoute("GET", GetUser))],
                             map["user" := [RejectNothing]]);
            Handle(rt, NewExchange("GET", url)) ==
              Final(NewExchange("GET", url), [RequestEvent(AtLayer(0, "/")), ErrorEvent(AtLayer(0, "/"), RejectedPromise)],
                    Done(Some(RejectedPromise)))
  {
    var rt := Router([Mount("/", Normal(CreateError)), RouteLayer("/user/:user", SoleRoute("GET", GetUser))],
                     map["user" := [RejectNothing]]);
    var ex := NewExchange("GET", url);
    UserCapturePattern(rt.layers[1].path);
    UserRequest(url, v);
    MatchLiteralCapture("user", "user", url, "user", v);
    PlainValue(v);
    var c1 := RejectionRun(rt, url, v);
    HandleExhausted(rt, ex, Some(RejectedPromise), c1);
    assert c1.ex.(params := ex.params) == ex;
  }

  /** The loop of that test: the mounted handler's rejection passes over the route and ends the loop. */
  lemma RejectionRun(rt: Router, url: string, v: string) returns (c1: Ctx)
    requires |rt.layers| == 2 && LayerIs(rt, 0, Mount("/", Normal(CreateError))) && rt.layers[1].RouteLayer?
    requires MatchRoute(Compile(rt.layers[1].path), Pathname(url)) == Matched(map["user" := v])
    ensures Run(rt, 0, None, Start(NewExchange("GET", url))) == (Exhausted(Some(RejectedPromise)), c1)
    ensures c1.ex == NewExchange("GET", url).(params := map[])
    ensures c1.log == [RequestEvent(AtLayer(0, "/")), ErrorEvent(AtLayer(0, "/"), RejectedPromise)]
  {
    var ex := NewExchange("GET", url);
    var c := Start(ex);
    RunRootMount(rt, 0, c);
    c1 := c.(ex := CreateError(ex.(params := map[])).ex, log := Published(AtLayer(0, "/"), Rejected(None)));
    RunPastOnError(rt, 1, RejectedPromise, c1, map["user" := v]);
    RunEnds(rt, 2, Some(RejectedPromise), c1);
  }

  /**
   * `parseId` of the `next('route')` test: `next('route')` when `Number(val)`
   * is NaN, otherwise `req.params.id = id` and `next()`. `number` renders
   * `Number(val)`, None standing for NaN.
   */
  function ParseIdOrSkip(number: string -> Option<string>): ParamFn {
    (ex: Exchange, val: string) =>
      if number(val).None? then Reply(ex, Called(SkipRoute))
      else Reply(ex.(params := ex.params["id" := number(val).value]), Called(Continue))
  }

  /** The `/user/new` handler: status 400, `cannot get a new user` as plain text. */
  function RefuseNewUser(ex: Exchange): (r: Reply)
    ensures r.settled == Returned && r.ex.status == 400 && r.ex.body == "cannot get a new user"
    ensures r.ex.headers == ex.headers["Content-Type" := "text/plain"]
  {
    Reply(Http.End(SetHeader(ex.(status := 400), "Content-Type", "text/plain"), "cannot get a new user"), Returned)
  }

  /** The routes of the `next('route')` test: `/user/:id` before `/user/new`, `parseId` for `id`. */
  function SkipRouter(number: string -> Option<string>): Router {
    Router([RouteLayer("/user/:id", SoleRoute("GET", GetUser)), RouteLayer("/user/new", SoleRoute("GET", RefuseNewUser))],
           map["id" := [ParseIdOrSkip(number)]])
  }

  /** How the two routes match `/user/<v>`: the first captures `v` as `id`, the second only when `v` is `new`. */
  ghost predicate SkipMatch(rt: Router, url: string, v: string, n: string)
    requires |rt.layers| == 2
  {
    && MatchRoute(Compile(rt.layers[0].path), Pathname(url)) == Matched(map["id" := v])
    && Keys(Compile(rt.layers[0].path)) == ["id"]
    && MatchRoute(Compile(rt.layers[1].path), Pathname(url)) == (if v == n then Matched(map[]) else NoMatch)
    && Keys(Compile(rt.layers[1].path)) == []
  }

  lemma SkipPaths(number: string -> Option<string>, url: string, v: string, n: string)
    requires url == "/user/" + v && v != [] && '/' !in v && '?' !in v && '%' !in v && n == "new"
    ensures SkipMatch(SkipRouter(number), url, v, n)
  {
    var rt := SkipRouter(number);
    UserCapturePattern(rt.layers[0].path);
    UserNewPattern(rt.layers[1].path);
    UserRequest(url, v);
    MatchLiteralCapture("user", "id", url, "user", v);
    MatchLiterals("user", "new", url, "user", v);
    PlainValue(v);
  }

  /** `parseId` for a value whose `Number` is NaN calls `next('route')`, changing nothing. */
  lemma ParseIdSkips(number: string -> Option<string>, ex: Exchange, v: string)
    requires number(v).None?
    ensures ParseIdOrSkip(number)(ex, v) == Reply(ex, Called(SkipRoute))
  {
  }

  /** `parseId` for a value whose `Number` is `x` stores `x` as `id` and continues. */
  lemma ParseIdConverts(number: string -> Option<string>, ex: Exchange, v: string, x: string)
    requires number(v) == Some(x)
    ensures ParseIdOrSkip(number)(ex, v) == Reply(ex.(params := ex.params["id" := x]), Called(Continue))
  {
  }

  /** The first route when `parseId` yields NaN: the route is skipped, nothing changed but the captured `id`. */
  lemma SkipFirst(rt: Router, p: string, number: string -> Option<string>, url: string, v: string) returns (c1: Ctx)
    requires |rt.layers| >= 2 && LayerIs(rt, 0, RouteLayer(p, SoleRoute("GET", GetUser))) && rt.params == map["id" := [ParseIdOrSkip(number)]]
    requires MatchRoute(Compile(p), Pathname(url)) == Matched(map["id" := v]) && Keys(Compile(p)) == ["id"]
    requires number(v).None?
    ensures LayerStep(rt, 0, None, Start(NewExchange("GET", url))) == Onward(None, c1)
    ensures c1.ex == NewExchange("GET", url).(params := map["id" := v]) && c1.log == [] && c1.allow == []
    ensures c1.memo == map["id" := ParamMemo(SkipRoute, v, Some(v))]
  {
    var ex := NewExchange("GET", url);
    var c := Start(ex);
    SoleRouteMethods("GET", GetUser, "GET");
    var st := ParamState(ex.(params := map["id" := v]), map[]);
    ParseIdSkips(number, st.ex, v);
    OneFnDecides(rt.params, "id", ParseIdOrSkip(number), st);
    var st1 := ParamState(st.ex, st.memo["id" := ParamMemo(SkipRoute, v, Some(v))]);
    assert EntryParams(rt, 0, c, map["id" := v]) == (ParamsFailed(SkipRoute), st1);
    ParamsFailStep(rt, 0, c, map["id" := v], SkipRoute, st1);
    c1 := c.(ex := st1.ex, memo := st1.memo);
  }

  /** The first route when `parseId` yields the number `x`: it answers `get user <x>`. */
  lemma AnswerFirst(rt: Router, p: string, number: string -> Option<string>, url: string, v: string, x: string) returns (c1: Ctx)
    requires |rt.layers| >= 1 && LayerIs(rt, 0, RouteLayer(p, SoleRoute("GET", GetUser))) && rt.params == map["id" := [ParseIdOrSkip(number)]]
    requires MatchRoute(Compile(p), Pathname(url)) == Matched(map["id" := v]) && Keys(Compile(p)) == ["id"]
    requires number(v) == Some(x)
    ensures LayerStep(rt, 0, None, Start(NewExchange("GET", url))) == Stop(c1)
    ensures c1.ex.status == 200 && c1.ex.body == "get user " + x
  {
    var ex := NewExchange("GET", url);
    var c := Start(ex);
    SoleRouteMethods("GET", GetUser, "GET");
    var st := ParamState(ex.(params := map["id" := v]), map[]);
    ParseIdConverts(number, st.ex, v, x);
    OneFnDecides(rt.params, "id", ParseIdOrSkip(number), st);
    var st1 := ParamState(st.ex.(params := st.ex.params["id" := x]), st.memo["id" := ParamMemo(Continue, v, Some(x))]);
    assert EntryParams(rt, 0, c, map["id" := v]) == (ParamsDone, st1);
    var c0 := AfterParams(rt, 0, c, st1);
    SoleChainAnswers("GET", GetUser, 0, c0);
    c1 := c0.(ex := GetUser(c0.ex).ex, log := c0.log + Published(AtEntry(0, 0), Returned));
    ParamsThenClaimsStep(rt, 0, c, map["id" := v], st1, c1);
  }

  /**
   * GET `/user/<v>` with `Number(v)` a number `n`: the first route answers
   * `get user <n>` (`/user/2` gives `get user 2`).
   */
  lemma AnswersNumericId(number: string -> Option<string>, url: string, v: string)
    requires url == "/user/" + v && v != [] && '/' !in v && '?' !in v && '%' !in v && number(v).Some?
    ensures var f := Handle(SkipRouter(number), NewExchange("GET", url));
            f.end == Held && f.ex.status == 200 && f.ex.body == "get user " + number(v).value
  {
    var rt := SkipRouter(number);
    SkipPaths(number, url, v, "new");
    var c1 := AnswerFirst(rt, rt.layers[0].path, number, url, v, number(v).value);
    RunStops(rt, 0, None, Start(NewExchange("GET", url)));
    HandleHeld(rt, NewExchange("GET", url), c1);
  }

  /**
   * GET `/user/<v>` with `Number(v)` NaN and `v` not `new`: the first route
   * is skipped, the second does not match, and the request reaches `done`
   * with no error (404 for `/user/bob`).
   */
  lemma SkippedRouteFallsThrough(number: string -> Option<string>, url: string, v: string, n: string)
    requires url == "/user/" + v && v != [] && '/' !in v && '?' !in v && '%' !in v && number(v).None?
    requires n == "new" && v != n
    ensures Handle(SkipRouter(number), NewExchange("GET", url)) == Final(NewExchange("GET", url), [], Done(None))
  {
    var rt := SkipRouter(number);
    var ex := NewExchange("GET", url);
    SkipPaths(number, url, v, n);
    var c1 := SkipFirst(rt, rt.layers[0].path, number, url, v);
    RunOnward(rt, 0, None, Start(ex));
    RunPastUnmatched(rt, 1, None, c1);
    RunEnds(rt, 2, None, c1);
    HandleExhausted(rt, ex, None, c1);
    assert c1.ex.(params := ex.params) == ex;
  }

  /**
   * GET `/user/new`, `Number('new')` being NaN: the first route is skipped
   * and the second answers 400 `cannot get a new user`.
   */
  lemma SkippedRouteReachesNext(number: string -> Option<string>, url: string, v: string)
    requires url == "/user/" + v && v == "new" && number(v).None?
    ensures var f := Handle(SkipRouter(number), NewExchange("GET", url));
            f.end == Held && f.ex.status == 400 && f.ex.body == "cannot get a new user"
  {
    var rt := SkipRouter(number);
    var ex := NewExchange("GET", url);
    NewPieces(v);
    SkipPaths(number, url, v, v);
    var c1 := SkipFirst(rt, rt.layers[0].path, number, url, v);
    RunOnward(rt, 0, None, Start(ex));
    SkipSecond(number, url, v, c1);
  }

  lemma NewPieces(v: string)
    requires v == "new"
    ensures v != [] && '/' !in v && '?' !in v && '%' !in v
  {
  }

  /** The second route, matching `/user/new` with no names to process, answers 400. */
  lemma SkipSecond(number: string -> Option<string>, url: string, v: string, c1: Ctx)
    requires SkipMatch(SkipRouter(number), url, v, v)
    requires c1.ex == NewExchange("GET", url).(params := map["id" := v])
    requires Run(SkipRouter(number), 0, None, Start(NewExchange("GET", url))) == Run(SkipRouter(number), 1, None, c1)
    ensures var f := Handle(SkipRouter(number), NewExchange("GET", url));
            f.end == Held && f.ex.status == 400 && f.ex.body == "cannot get a new user"
  {
    var rt := SkipRouter(number);
    SoleRouteMethods("GET", RefuseNewUser, "GET");
    var st := ParamState(c1.ex.(params := map[]), c1.memo);
    assert EntryParams(rt, 1, c1, map[]) == (ParamsDone, st);
    var c2 := AfterParams(rt, 1, c1, st);
    SoleChainAnswers("GET", RefuseNewUser, 1, c2);
    var c3 := c2.(ex := RefuseNewUser(c2.ex).ex, log := c2.log + Published(AtEntry(1, 0), Returned));
    ParamsThenClaims(rt, 1, c1, map[], st, c3);
    HandleHeld(rt, NewExchange("GET", url), c3);
  }
}
