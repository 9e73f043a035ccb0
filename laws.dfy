/**
 * Properties of the dispatch state machine over all routers and requests:
 * an error nobody handles reaches `done` intact, a path nothing matches falls
 * through to `done` with no error, the observer log never steers dispatch,
 * and OPTIONS for a path whose routes do not handle it is answered with
 * exactly the methods of those routes.
 */
module Laws {
  import opened Wrappers
  import opened Http
  import opened Paths
  import opened Urls
  import opened Methods
  import opened Diagnostics
  import opened Dispatch
  import opened Steps

  /** A mount layer whose handler is not of the kind that runs is passed over; `req.url` comes back as it was. */
  lemma MountPassesOver(prefix: string, h: Handler, err: Option<Error>, site: Site, c: Ctx)
    requires MountMatches(prefix, Pathname(c.ex.url))
    requires !Accepts(h, err)
    ensures AtMount(prefix, h, err, site, c) == (Go(Pass(err)), c.(ex := c.ex.(params := map[])))
  {
    if prefix != [] {
      StripRestore(c.ex.url, prefix);
    }
  }

  /** No error handler among the mount layers from `i` on. */
  predicate NoErrorHandlerFrom(layers: seq<Layer>, i: nat) {
    forall j :: i <= j < |layers| && layers[j].Mount? ==> layers[j].handler.Normal?
  }

  /** One layer, with an error in flight and no error handler there, is passed over. */
  lemma ErrorPassesLayer(rt: Router, i: nat, e: Error, c: Ctx)
    requires i < |rt.layers| && NoErrorHandlerFrom(rt.layers, i)
    ensures LayerStep(rt, i, Some(e), c).Onward?
    ensures LayerStep(rt, i, Some(e), c).error == Some(e)
    ensures LayerStep(rt, i, Some(e), c).ctx == c.(ex := c.ex.(params := LayerStep(rt, i, Some(e), c).ctx.ex.params))
  {
    match rt.layers[i]
    case Mount(mp, h) =>
      if MountMatches(MountPath(mp), Pathname(c.ex.url)) {
        MountPassesOver(MountPath(mp), h, Some(e), AtLayer(i, mp), c);
        assert LayerStep(rt, i, Some(e), c) == Onward(Some(e), c.(ex := c.ex.(params := map[])));
      } else {
        assert LayerStep(rt, i, Some(e), c) == Onward(Some(e), c);
      }
    case RouteLayer(pattern, route) =>
      assert LayerStep(rt, i, Some(e), c) == Onward(Some(e), c);
  }

  /**
   * Errors are never swallowed: with an error in flight and no error handler
   * left, every remaining layer is passed over, nothing runs or is published,
   * and the layers run out with that same error.
   */
  lemma {:induction false} UnhandledErrorReachesDone(rt: Router, i: nat, e: Error, c: Ctx)
    requires NoErrorHandlerFrom(rt.layers, i)
    ensures Run(rt, i, Some(e), c).0 == Exhausted(Some(e))
    ensures Run(rt, i, Some(e), c).1 == c.(ex := c.ex.(params := Run(rt, i, Some(e), c).1.ex.params))
    decreases |rt.layers| - i
  {
    if i < |rt.layers| {
      ErrorPassesLayer(rt, i, e, c);
      UnhandledErrorReachesDone(rt, i + 1, e, LayerStep(rt, i, Some(e), c).ctx);
    }
  }

  /** No layer from `i` on matches `path`: neither a route pattern nor a mount path. */
  predicate NothingMatchesFrom(layers: seq<Layer>, i: nat, path: string) {
    forall j :: i <= j < |layers| ==> Unmatched(layers[j], path)
  }

  /** A layer whose path does not match `path`. */
  predicate Unmatched(l: Layer, path: string) {
    || (l.RouteLayer? && MatchRoute(Compile(l.path), path).NoMatch?)
    || (l.Mount? && !MountMatches(MountPath(l.path), path))
  }

  lemma {:induction false} NoMatchFallsThrough(rt: Router, i: nat, err: Option<Error>, c: Ctx)
    requires NothingMatchesFrom(rt.layers, i, Pathname(c.ex.url))
    ensures Run(rt, i, err, c) == (Exhausted(err), c)
    decreases |rt.layers| - i
  {
    if i < |rt.layers| {
      assert LayerStep(rt, i, err, c) == Onward(err, c);
      NoMatchFallsThrough(rt, i + 1, err, c);
    }
  }

  /**
   * A request whose path no route matches reaches `done` with no error and
   * untouched (the terminal callback's "not found"), and for OPTIONS no
   * automatic answer is sent.
   */
  lemma NotFound(rt: Router, ex: Exchange)
    requires NothingMatchesFrom(rt.layers, 0, Pathname(ex.url))
    ensures Handle(rt, ex) == Final(ex, [], Done(None))
  {
    NoMatchFallsThrough(rt, 0, None, Start(ex));
  }

  /** The context with `L` published before anything else. */
  function After(L: seq<Event>, c: Ctx): (d: Ctx)
    ensures d.ex == c.ex && d.memo == c.memo && d.allow == c.allow && d.log == L + c.log
  {
    c.(log := L + c.log)
  }

  lemma InvokeIgnoresLog(h: Handler, err: Option<Error>, site: Site, c: Ctx, L: seq<Event>)
    ensures Invoke(h, err, site, After(L, c)) == (Invoke(h, err, site, c).0, After(L, Invoke(h, err, site, c).1))
  {
    if Accepts(h, err) {
      var reply := if h.Normal? then h.run(c.ex) else h.recover(err.value, c.ex);
      assert L + c.log + Published(site, reply.settled) == L + (c.log + Published(site, reply.settled));
    }
  }

  lemma MountIgnoresLog(prefix: string, h: Handler, err: Option<Error>, site: Site, c: Ctx, L: seq<Event>)
    requires MountMatches(prefix, Pathname(c.ex.url))
    ensures AtMount(prefix, h, err, site, After(L, c)) == (AtMount(prefix, h, err, site, c).0, After(L, AtMount(prefix, h, err, site, c).1))
  {
    if prefix == [] {
      InvokeIgnoresLog(h, err, site, c.(ex := c.ex.(params := map[])), L);
    } else {
      var s := Strip(c.ex.url, prefix);
      InvokeIgnoresLog(h, err, site, c.(ex := c.ex.(url := s.url, params := map[])), L);
    }
  }

  lemma {:induction false} RouteIgnoresLog(route: Route, chain: string, li: nat, j: nat, err: Option<Error>, c: Ctx, L: seq<Event>)
    ensures RouteRun(route, chain, li, j, err, After(L, c)) == (RouteRun(route, chain, li, j, err, c).0, After(L, RouteRun(route, chain, li, j, err, c).1))
    decreases |route.stack| - j
  {
    if j < |route.stack| {
      if !Selects(route.stack[j], chain) {
        RouteIgnoresLog(route, chain, li, j + 1, err, c, L);
      } else {
        var r := Invoke(route.stack[j].handler, err, AtEntry(li, j), c);
        InvokeIgnoresLog(route.stack[j].handler, err, AtEntry(li, j), c, L);
        if r.0.Go? && !r.0.signal.SkipRoute? {
          RouteIgnoresLog(route, chain, li, j + 1, InFlight(r.0.signal), r.1, L);
        }
      }
    }
  }

  lemma EnterIgnoresLog(reg: Params.Registry, pattern: string, route: Route, li: nat, captured: map<string, string>, c: Ctx, L: seq<Event>)
    ensures EnterRoute(reg, pattern, route, li, captured, After(L, c)) == (EnterRoute(reg, pattern, route, li, captured, c).0, After(L, EnterRoute(reg, pattern, route, li, captured, c).1))
  {
    var p := Params.Process(reg, Keys(Compile(pattern)), 0, Params.ParamState(c.ex.(params := captured), c.memo));
    if p.0.ParamsDone? {
      var c1 := c.(ex := p.1.ex, memo := p.1.memo);
      var c2 := c1.(log := c1.log + [RequestEvent(AtLayer(li, pattern))]);
      assert After(L, c1).log + [RequestEvent(AtLayer(li, pattern))] == After(L, c2).log;
      RouteIgnoresLog(route, ChainVerb(route, c.ex.verb), li, 0, None, c2, L);
    }
  }

  /** A turn whose context has `L` published first. */
  function ShiftTurn(L: seq<Event>, t: Turn): (u: Turn)
    ensures u.Onward? == t.Onward? && u.ctx == After(L, t.ctx)
    ensures u.Onward? ==> u.error == t.error
  {
    match t
    case Onward(e, c) => Onward(e, After(L, c))
    case Stop(c) => Stop(After(L, c))
  }

  lemma MountStepIgnoresLog(mp: string, h: Handler, i: nat, err: Option<Error>, c: Ctx, L: seq<Event>)
    ensures MountStep(mp, h, i, err, After(L, c)) == ShiftTurn(L, MountStep(mp, h, i, err, c))
  {
    if MountMatches(MountPath(mp), Pathname(c.ex.url)) {
      MountIgnoresLog(MountPath(mp), h, err, AtLayer(i, mp), c, L);
    }
  }

  lemma RouteStepIgnoresLog(reg: Params.Registry, pattern: string, route: Route, i: nat, err: Option<Error>, c: Ctx, L: seq<Event>)
    ensures RouteStep(reg, pattern, route, i, err, After(L, c)) == ShiftTurn(L, RouteStep(reg, pattern, route, i, err, c))
  {
    match MatchRoute(Compile(pattern), Pathname(c.ex.url))
    case NoMatch =>
    case DecodeFailed(_) =>
    case Matched(captured) =>
      if err.None? && HandlesMethod(route, c.ex.verb) {
        EnterIgnoresLog(reg, pattern, route, i, captured, c, L);
      }
  }

  lemma LayerIgnoresLog(rt: Router, i: nat, err: Option<Error>, c: Ctx, L: seq<Event>)
    requires i < |rt.layers|
    ensures LayerStep(rt, i, err, After(L, c)) == ShiftTurn(L, LayerStep(rt, i, err, c))
  {
    match rt.layers[i]
    case Mount(mp, h) => MountStepIgnoresLog(mp, h, i, err, c, L);
    case RouteLayer(pattern, route) => RouteStepIgnoresLog(rt.params, pattern, route, i, err, c, L);
  }

  /**
   * The observer log never steers dispatch: whatever was published before,
   * the outcome, the exchange, the memo and the collected methods are the
   * same, and the same events are appended after it.
   */
  lemma {:induction false} RunIgnoresLog(rt: Router, i: nat, err: Option<Error>, c: Ctx, L: seq<Event>)
    ensures Run(rt, i, err, After(L, c)) == (Run(rt, i, err, c).0, After(L, Run(rt, i, err, c).1))
    decreases |rt.layers| - i
  {
    if i < |rt.layers| {
      var t := LayerStep(rt, i, err, c);
      if t.Onward? {
        RunIgnoresLog(rt, i + 1, t.error, t.ctx, L);
      }
      LayerThenRunIgnoresLog(rt, i, err, c, L);
    }
  }

  /** One layer of the induction: once the rest of the loop ignores the log, the loop from `i` does. */
  lemma LayerThenRunIgnoresLog(rt: Router, i: nat, err: Option<Error>, c: Ctx, L: seq<Event>)
    requires i < |rt.layers|
    requires LayerStep(rt, i, err, c).Onward? ==>
               var t := LayerStep(rt, i, err, c);
               Run(rt, i + 1, t.error, After(L, t.ctx)) == (Run(rt, i + 1, t.error, t.ctx).0, After(L, Run(rt, i + 1, t.error, t.ctx).1))
    ensures Run(rt, i, err, After(L, c)) == (Run(rt, i, err, c).0, After(L, Run(rt, i, err, c).1))
  {
    LayerIgnoresLog(rt, i, err, c, L);
    RunByTurn(rt, i, err, c);
    RunByTurn(rt, i, err, After(L, c));
  }

  /** The rest of the loop once layer `i` has made its turn. */
  function AfterTurn(rt: Router, i: nat, t: Turn): (Outcome, Ctx)
  {
    match t
    case Stop(c1) => (Halted, c1)
    case Onward(e, c1) => Run(rt, i + 1, e, c1)
  }

  lemma RunByTurn(rt: Router, i: nat, err: Option<Error>, c: Ctx)
    requires i < |rt.layers|
    ensures Run(rt, i, err, c) == AfterTurn(rt, i, LayerStep(rt, i, err, c))
  {
  }


  /** The routes from layer `i` on whose pattern matches `path`, in layer order. */
  function MatchingRoutes(layers: seq<Layer>, i: nat, path: string): (rs: seq<Route>)
    ensures |rs| <= |layers| - i || (i > |layers| && rs == [])
    decreases |layers| - i
  {
    if i >= |layers| then []
    else
      (if layers[i].RouteLayer? && MatchRoute(Compile(layers[i].path), path).Matched? then [layers[i].route] else [])
      + MatchingRoutes(layers, i + 1, path)
  }

  /**
   * From `i` on, every layer either does not match `path`, or is a route that
   * matches it without a handler for OPTIONS (no OPTIONS route, no `all`).
   */
  predicate OnlyPassedOverFrom(layers: seq<Layer>, i: nat, path: string) {
    forall j :: i <= j < |layers| ==> PassedOver(layers[j], path)
  }

  /** A layer that does not match `path`, or a route that matches it without a handler for OPTIONS. */
  predicate PassedOver(l: Layer, path: string) {
    || Unmatched(l, path)
    || (l.RouteLayer? && MatchRoute(Compile(l.path), path).Matched? && !HandlesMethod(l.route, "OPTIONS"))
  }

  lemma OptionsPassesLayer(rt: Router, i: nat, c: Ctx)
    requires c.ex.verb == "OPTIONS"
    requires i < |rt.layers| && OnlyPassedOverFrom(rt.layers, i, Pathname(c.ex.url))
    ensures LayerStep(rt, i, None, c) ==
              Onward(None, if rt.layers[i].RouteLayer? && MatchRoute(Compile(rt.layers[i].path), Pathname(c.ex.url)).Matched?
                           then c.(allow := c.allow + Allowed(rt.layers[i].route)) else c)
  {
  }

  /** The methods an OPTIONS request collects from layer `i` on, route by route. */
  function Gathered(layers: seq<Layer>, i: nat, path: string): seq<string>
    decreases |layers| - i
  {
    if i >= |layers| then []
    else
      (if layers[i].RouteLayer? && MatchRoute(Compile(layers[i].path), path).Matched? then Allowed(layers[i].route) else [])
      + Gathered(layers, i + 1, path)
  }

  lemma {:induction false} GatheredIsCollected(layers: seq<Layer>, i: nat, path: string)
    ensures Gathered(layers, i, path) == Collected(MatchingRoutes(layers, i, path))
    decreases |layers| - i
  {
    if i < |layers| {
      GatheredIsCollected(layers, i + 1, path);
      var rest := MatchingRoutes(layers, i + 1, path);
      if layers[i].RouteLayer? && MatchRoute(Compile(layers[i].path), path).Matched? {
        CollectedCons(layers[i].route, rest);
        assert MatchingRoutes(layers, i, path) == [layers[i].route] + rest;
      } else {
        assert MatchingRoutes(layers, i, path) == rest;
      }
    } else {
      assert MatchingRoutes(layers, i, path) == [];
    }
  }

  /** What an OPTIONS request gathers from layer `i` on, as a context. */
  predicate GathersFrom(rt: Router, i: nat, c: Ctx) {
    Run(rt, i, None, c) == (Exhausted(None), c.(allow := c.allow + Gathered(rt.layers, i, Pathname(c.ex.url))))
  }

  /** Gluing one turn of collecting to the rest: what is gathered after the turn, added to what the turn gathered. */
  lemma GatherLink(c: Ctx, c': Ctx, g: seq<string>, G0: seq<string>, G1: seq<string>)
    requires c' == c.(allow := c.allow + g)
    requires G0 == g + G1
    ensures c'.(allow := c'.allow + G1) == c.(allow := c.allow + G0)
  {
    assert c'.allow + G1 == c.allow + G0;
  }

  lemma GathersStep(rt: Router, i: nat, c: Ctx)
    requires c.ex.verb == "OPTIONS"
    requires i < |rt.layers| && OnlyPassedOverFrom(rt.layers, i, Pathname(c.ex.url))
    requires GathersFrom(rt, i + 1, LayerStep(rt, i, None, c).ctx)
    ensures GathersFrom(rt, i, c)
  {
    var path := Pathname(c.ex.url);
    OptionsPassesLayer(rt, i, c);
    RunOnward(rt, i, None, c);
    var c' := LayerStep(rt, i, None, c).ctx;
    var g := if rt.layers[i].RouteLayer? && MatchRoute(Compile(rt.layers[i].path), path).Matched? then Allowed(rt.layers[i].route) else [];
    GatherLink(c, c', g, Gathered(rt.layers, i, path), Gathered(rt.layers, i + 1, path));
  }

  lemma {:induction false} OptionsCollects(rt: Router, i: nat, c: Ctx)
    requires c.ex.verb == "OPTIONS"
    requires OnlyPassedOverFrom(rt.layers, i, Pathname(c.ex.url))
    ensures GathersFrom(rt, i, c)
    decreases |rt.layers| - i
  {
    if i >= |rt.layers| {
      assert c.allow + [] == c.allow;
    } else {
      OptionsPassesLayer(rt, i, c);
      OptionsCollects(rt, i + 1, LayerStep(rt, i, None, c).ctx);
      GathersStep(rt, i, c);
    }
  }

  /**
   * A matched route with a handler for OPTIONS (an OPTIONS entry or an `all`
   * entry) takes an OPTIONS request like any other method: it is entered, and
   * it adds nothing to the methods collected for the automatic answer.
   */
  lemma ExplicitOptionsEntersRoute(rt: Router, i: nat, c: Ctx, captured: map<string, string>)
    requires i < |rt.layers| && rt.layers[i].RouteLayer? && c.ex.verb == "OPTIONS"
    requires MatchRoute(Compile(rt.layers[i].path), Pathname(c.ex.url)) == Matched(captured)
    requires HandlesMethod(rt.layers[i].route, "OPTIONS")
    ensures LayerStep(rt, i, None, c) == TurnOf(EnterRoute(rt.params, rt.layers[i].path, rt.layers[i].route, i, captured, c))
    ensures LayerStep(rt, i, None, c).ctx.allow == c.allow
  {
    EntersRoute(rt, i, c, captured);
  }

  /**
   * When the request reaches such a route and the route claims it, the
   * automatic OPTIONS answer is never sent: handling ends held by the route,
   * with the exchange and log the route left.
   */
  lemma ExplicitOptionsBypassesAnswer(rt: Router, ex: Exchange, i: nat, c: Ctx, captured: map<string, string>)
    requires i < |rt.layers| && rt.layers[i].RouteLayer? && c.ex.verb == "OPTIONS"
    requires Run(rt, 0, None, Start(ex)) == Run(rt, i, None, c)
    requires MatchRoute(Compile(rt.layers[i].path), Pathname(c.ex.url)) == Matched(captured)
    requires HandlesMethod(rt.layers[i].route, "OPTIONS")
    requires EnterRoute(rt.params, rt.layers[i].path, rt.layers[i].route, i, captured, c).0.Claimed?
    ensures var c1 := EnterRoute(rt.params, rt.layers[i].path, rt.layers[i].route, i, captured, c).1;
            Handle(rt, ex) == Final(c1.ex, c1.log, Held)
  {
    ExplicitOptionsEntersRoute(rt, i, c, captured);
    RunStops(rt, i, None, c);
  }

  /** `done` for an OPTIONS request that ran out of layers with no error, once the collected methods are known. */
  lemma AnswerCollected(rt: Router, ex: Exchange, A: seq<string>)
    requires ex.verb == "OPTIONS" && A != []
    requires Run(rt, 0, None, Start(ex)) == (Exhausted(None), Start(ex).(allow := A))
    ensures var allow := JoinComma(AllowList(A));
            var f := Handle(rt, ex);
            f.log == [] &&
            (ex.headersSent ==> f == Final(ex, [], Done(Some(HeadersSent)))) &&
            (!ex.headersSent ==> f.end == AnsweredOptions && f.ex.status == 200 && f.ex.body == allow &&
                                 "Allow" in f.ex.headers && f.ex.headers["Allow"] == allow)
  {
    assert ex.(params := ex.params) == ex;
  }

  /**
   * The automatic OPTIONS answer: when every route that matches the path
   * lacks a handler for OPTIONS and they declare at least one method, the
   * router answers 200 with `Allow` and the body both set to the joined
   * `Allow` list of those routes, in layer order, without running any handler;
   * if the headers are already out, `done` receives the failure instead.
   */
  lemma AutoOptions(rt: Router, ex: Exchange)
    requires ex.verb == "OPTIONS"
    requires OnlyPassedOverFrom(rt.layers, 0, Pathname(ex.url))
    requires Collected(MatchingRoutes(rt.layers, 0, Pathname(ex.url))) != []
    ensures var allow := JoinComma(AllowList(Collected(MatchingRoutes(rt.layers, 0, Pathname(ex.url)))));
            var f := Handle(rt, ex);
            f.log == [] &&
            (ex.headersSent ==> f == Final(ex, [], Done(Some(HeadersSent)))) &&
            (!ex.headersSent ==> f.end == AnsweredOptions && f.ex.status == 200 && f.ex.body == allow &&
                                 "Allow" in f.ex.headers && f.ex.headers["Allow"] == allow)
  {
    OptionsCollects(rt, 0, Start(ex));
    GatheredIsCollected(rt.layers, 0, Pathname(ex.url));
    var A := Gathered(rt.layers, 0, Pathname(ex.url));
    assert Start(ex).allow + A == A;
    AnswerCollected(rt, ex, A);
  }
}
