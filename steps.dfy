/**
 * One-step unfoldings of the dispatch functions, each stated over arbitrary
 * arguments, so that a walk through a concrete request can go one layer, one
 * route entry or one handler at a time.
 */
module Steps {
  import opened Wrappers
  import opened Http
  import opened Paths
  import opened Urls
  import opened Methods
  import opened Params
  import opened Diagnostics
  import opened Dispatch

  /** The router's loop after a layer that goes on. */
  lemma RunOnward(rt: Router, i: nat, err: Option<Error>, c: Ctx)
    requires i < |rt.layers| && LayerStep(rt, i, err, c).Onward?
    ensures Run(rt, i, err, c) == Run(rt, i + 1, LayerStep(rt, i, err, c).error, LayerStep(rt, i, err, c).ctx)
  {
  }

  /** The router's loop after a layer that stops. */
  lemma RunStops(rt: Router, i: nat, err: Option<Error>, c: Ctx)
    requires i < |rt.layers| && LayerStep(rt, i, err, c).Stop?
    ensures Run(rt, i, err, c) == (Halted, LayerStep(rt, i, err, c).ctx)
  {
  }

  /** Two layers that go on, one after the other, from the start of the loop. */
  lemma RunTwoOnward(rt: Router, c0: Ctx, e1: Option<Error>, c1: Ctx, e2: Option<Error>, c2: Ctx)
    requires 2 <= |rt.layers|
    requires LayerStep(rt, 0, None, c0) == Onward(e1, c1) && LayerStep(rt, 1, e1, c1) == Onward(e2, c2)
    ensures Run(rt, 0, None, c0) == Run(rt, 2, e2, c2)
  {
    RunOnward(rt, 0, None, c0);
    RunOnward(rt, 1, e1, c1);
  }

  lemma RunEnds(rt: Router, i: nat, err: Option<Error>, c: Ctx)
    requires i >= |rt.layers|
    ensures Run(rt, i, err, c) == (Exhausted(err), c)
  {
  }

  /** The turn a route's end makes in the router's loop. */
  function TurnOf(r: (RouteEnd, Ctx)): (t: Turn)
    ensures t.ctx == r.1
    ensures t.Stop? <==> r.0.Claimed?
    ensures t.Onward? ==> t.error == r.0.error
  {
    if r.0.Claimed? then Stop(r.1) else Onward(r.0.error, r.1)
  }

  /** A route layer that matches, with no error in flight, for a method it handles, is entered. */
  lemma EntersRoute(rt: Router, i: nat, c: Ctx, captured: map<string, string>)
    requires i < |rt.layers| && rt.layers[i].RouteLayer?
    requires MatchRoute(Compile(rt.layers[i].path), Pathname(c.ex.url)) == Matched(captured)
    requires HandlesMethod(rt.layers[i].route, c.ex.verb)
    ensures LayerStep(rt, i, None, c) == TurnOf(EnterRoute(rt.params, rt.layers[i].path, rt.layers[i].route, i, captured, c))
  {
  }

  /** A route layer that does not match is passed over. */
  lemma SkipsRoute(rt: Router, i: nat, err: Option<Error>, c: Ctx)
    requires i < |rt.layers| && rt.layers[i].RouteLayer?
    requires MatchRoute(Compile(rt.layers[i].path), Pathname(c.ex.url)) == NoMatch
    ensures LayerStep(rt, i, err, c) == Onward(err, c)
  {
  }

  /** A matching route layer is passed over while an error is in flight. */
  lemma SkipsRouteOnError(rt: Router, i: nat, e: Error, c: Ctx, captured: map<string, string>)
    requires i < |rt.layers| && rt.layers[i].RouteLayer?
    requires MatchRoute(Compile(rt.layers[i].path), Pathname(c.ex.url)) == Matched(captured)
    ensures LayerStep(rt, i, Some(e), c) == Onward(Some(e), c)
  {
  }

  /** A matching route layer that does not handle the method is passed over, its methods collected for OPTIONS. */
  lemma PassesRoute(rt: Router, i: nat, c: Ctx, captured: map<string, string>)
    requires i < |rt.layers| && rt.layers[i].RouteLayer?
    requires MatchRoute(Compile(rt.layers[i].path), Pathname(c.ex.url)) == Matched(captured)
    requires !HandlesMethod(rt.layers[i].route, c.ex.verb)
    ensures LayerStep(rt, i, None, c) ==
              Onward(None, if c.ex.verb == "OPTIONS" then c.(allow := c.allow + Allowed(rt.layers[i].route)) else c)
  {
  }

  /** A mount layer whose path matches runs through `AtMount`. */
  lemma EntersMount(rt: Router, i: nat, err: Option<Error>, c: Ctx)
    requires i < |rt.layers| && rt.layers[i].Mount?
    requires MountMatches(MountPath(rt.layers[i].path), Pathname(c.ex.url))
    ensures var r := AtMount(MountPath(rt.layers[i].path), rt.layers[i].handler, err, AtLayer(i, rt.layers[i].path), c);
            LayerStep(rt, i, err, c) == if r.0.Halt? then Stop(r.1) else Onward(InFlight(r.0.signal), r.1)
  {
  }

  /** A mount layer whose path does not match is passed over. */
  lemma SkipsMount(rt: Router, i: nat, err: Option<Error>, c: Ctx)
    requires i < |rt.layers| && rt.layers[i].Mount?
    requires !MountMatches(MountPath(rt.layers[i].path), Pathname(c.ex.url))
    ensures LayerStep(rt, i, err, c) == Onward(err, c)
  {
  }

  /** A pattern without captures runs no parameter function: the route's chain starts at once. */
  lemma EntersWithoutKeys(reg: Registry, pattern: string, route: Route, li: nat, captured: map<string, string>, c: Ctx)
    requires Keys(Compile(pattern)) == []
    ensures EnterRoute(reg, pattern, route, li, captured, c) ==
              RouteRun(route, ChainVerb(route, c.ex.verb), li, 0, None,
                       c.(ex := c.ex.(params := captured), log := c.log + [RequestEvent(AtLayer(li, pattern))]))
  {
  }

  /** An entry of the chosen method (or `all`) is invoked. */
  lemma RunsEntry(route: Route, chain: string, li: nat, j: nat, err: Option<Error>, c: Ctx)
    requires j < |route.stack| && Selects(route.stack[j], chain)
    ensures var r := Invoke(route.stack[j].handler, err, AtEntry(li, j), c);
            RouteRun(route, chain, li, j, err, c) ==
              if r.0.Halt? then (Claimed, r.1)
              else if r.0.signal.SkipRoute? then (Exit(None), r.1)
              else RouteRun(route, chain, li, j + 1, InFlight(r.0.signal), r.1)
  {
  }

  /** An entry of another method is passed over. */
  lemma SkipsEntry(route: Route, chain: string, li: nat, j: nat, err: Option<Error>, c: Ctx)
    requires j < |route.stack| && !Selects(route.stack[j], chain)
    ensures RouteRun(route, chain, li, j, err, c) == RouteRun(route, chain, li, j + 1, err, c)
  {
  }

  lemma RouteEnds(route: Route, chain: string, li: nat, j: nat, err: Option<Error>, c: Ctx)
    requires j >= |route.stack|
    ensures RouteRun(route, chain, li, j, err, c) == (Exit(err), c)
  {
  }

  /** A normal handler with no error in flight runs on the exchange. */
  lemma InvokesNormal(h: Handler, site: Site, c: Ctx)
    requires h.Normal?
    ensures var reply := h.run(c.ex);
            Invoke(h, None, site, c) == (Settle(reply.settled), c.(ex := reply.ex, log := c.log + Published(site, reply.settled)))
  {
  }

  /** An error handler with an error in flight runs on the error and the exchange. */
  lemma InvokesOnError(h: Handler, e: Error, site: Site, c: Ctx)
    requires h.OnError?
    ensures var reply := h.recover(e, c.ex);
            Invoke(h, Some(e), site, c) == (Settle(reply.settled), c.(ex := reply.ex, log := c.log + Published(site, reply.settled)))
  {
  }

  /** `done` after a handler held the request. */
  lemma HandleHeld(rt: Router, ex: Exchange, c: Ctx)
    requires Run(rt, 0, None, Start(ex)) == (Halted, c)
    ensures Handle(rt, ex) == Final(c.ex, c.log, Held)
  {
  }

  /** `done` when the layers ran out and no automatic OPTIONS answer is due. */
  lemma HandleExhausted(rt: Router, ex: Exchange, err: Option<Error>, c: Ctx)
    requires Run(rt, 0, None, Start(ex)) == (Exhausted(err), c)
    requires ex.verb != "OPTIONS" || err.Some? || c.allow == []
    ensures Handle(rt, ex) == Final(c.ex.(params := ex.params), c.log, Done(err))
  {
  }

  /** `done` for OPTIONS when the layers ran out with no error and some methods were collected. */
  lemma HandleOptions(rt: Router, ex: Exchange, c: Ctx)
    requires Run(rt, 0, None, Start(ex)) == (Exhausted(None), c)
    requires ex.verb == "OPTIONS" && c.allow != []
    ensures var ex1 := c.ex.(params := ex.params);
            Handle(rt, ex) == match SendOptions(ex1, JoinComma(AllowList(c.allow)))
                              case Ok(ex2) => Final(ex2, c.log, AnsweredOptions)
                              case Err(e) => Final(ex1, c.log, Done(Some(e)))
  {
  }

  /** The context a route layer's chain starts from, when its pattern has no captures. */
  function Entered(rt: Router, i: nat, c: Ctx, captured: map<string, string>): (c1: Ctx)
    requires i < |rt.layers|
    ensures c1.ex == c.ex.(params := captured) && c1.memo == c.memo && c1.allow == c.allow
    ensures c1.log == c.log + [RequestEvent(AtLayer(i, rt.layers[i].path))]
  {
    c.(ex := c.ex.(params := captured), log := c.log + [RequestEvent(AtLayer(i, rt.layers[i].path))])
  }

  /** A route layer, entered without captures, that claims the request ends the loop. */
  lemma RouteClaims(rt: Router, i: nat, c: Ctx, captured: map<string, string>, c1: Ctx)
    requires i < |rt.layers| && rt.layers[i].RouteLayer?
    requires MatchRoute(Compile(rt.layers[i].path), Pathname(c.ex.url)) == Matched(captured)
    requires Keys(Compile(rt.layers[i].path)) == [] && HandlesMethod(rt.layers[i].route, c.ex.verb)
    requires RouteRun(rt.layers[i].route, ChainVerb(rt.layers[i].route, c.ex.verb), i, 0, None, Entered(rt, i, c, captured)) == (Claimed, c1)
    ensures Run(rt, i, None, c) == (Halted, c1)
  {
    EntersRoute(rt, i, c, captured);
    EntersWithoutKeys(rt.params, rt.layers[i].path, rt.layers[i].route, i, captured, c);
    RunStops(rt, i, None, c);
  }

  /** A route layer, entered without captures, whose chain exits hands its error to the next layer. */
  lemma RouteExits(rt: Router, i: nat, c: Ctx, captured: map<string, string>, err: Option<Error>, c1: Ctx)
    requires i < |rt.layers| && rt.layers[i].RouteLayer?
    requires MatchRoute(Compile(rt.layers[i].path), Pathname(c.ex.url)) == Matched(captured)
    requires Keys(Compile(rt.layers[i].path)) == [] && HandlesMethod(rt.layers[i].route, c.ex.verb)
    requires RouteRun(rt.layers[i].route, ChainVerb(rt.layers[i].route, c.ex.verb), i, 0, None, Entered(rt, i, c, captured)) == (Exit(err), c1)
    ensures Run(rt, i, None, c) == Run(rt, i + 1, err, c1)
  {
    EntersRoute(rt, i, c, captured);
    EntersWithoutKeys(rt.params, rt.layers[i].path, rt.layers[i].route, i, captured, c);
    RunOnward(rt, i, None, c);
  }

  /** The loop over a route layer whose pattern does not match the path. */
  lemma RunPastUnmatched(rt: Router, i: nat, err: Option<Error>, c: Ctx)
    requires i < |rt.layers| && rt.layers[i].RouteLayer?
    requires MatchRoute(Compile(rt.layers[i].path), Pathname(c.ex.url)) == NoMatch
    ensures Run(rt, i, err, c) == Run(rt, i + 1, err, c)
  {
    SkipsRoute(rt, i, err, c);
    RunOnward(rt, i, err, c);
  }

  /** The loop over a matching route layer that does not handle OPTIONS: its methods are collected. */
  lemma RunPastForOptions(rt: Router, i: nat, c: Ctx, captured: map<string, string>)
    requires i < |rt.layers| && rt.layers[i].RouteLayer? && c.ex.verb == "OPTIONS"
    requires MatchRoute(Compile(rt.layers[i].path), Pathname(c.ex.url)) == Matched(captured)
    requires !HandlesMethod(rt.layers[i].route, c.ex.verb)
    ensures Run(rt, i, None, c) == Run(rt, i + 1, None, c.(allow := c.allow + Allowed(rt.layers[i].route)))
  {
    PassesRoute(rt, i, c, captured);
    RunOnward(rt, i, None, c);
  }

  /** `RunPastForOptions`, with the methods collected so far and the route's own given by name. */
  lemma RunCollects(rt: Router, i: nat, c: Ctx, captured: map<string, string>, sofar: seq<string>, declared: seq<string>)
    requires i < |rt.layers| && rt.layers[i].RouteLayer? && c.ex.verb == "OPTIONS"
    requires MatchRoute(Compile(rt.layers[i].path), Pathname(c.ex.url)) == Matched(captured)
    requires !HandlesMethod(rt.layers[i].route, c.ex.verb) && Allowed(rt.layers[i].route) == declared
    ensures Run(rt, i, None, c.(allow := sofar)) == Run(rt, i + 1, None, c.(allow := sofar + declared))
  {
    RunPastForOptions(rt, i, c.(allow := sofar), captured);
  }

  /** The context a route's chain starts from once its parameter functions are done. */
  function AfterParams(rt: Router, i: nat, c: Ctx, st: ParamState): (c1: Ctx)
    requires i < |rt.layers|
    ensures c1.ex == st.ex && c1.memo == st.memo && c1.allow == c.allow
    ensures c1.log == c.log + [RequestEvent(AtLayer(i, rt.layers[i].path))]
  {
    c.(ex := st.ex, memo := st.memo, log := c.log + [RequestEvent(AtLayer(i, rt.layers[i].path))])
  }

  /** The parameter processing a route layer starts when it is entered with `captured`. */
  function EntryParams(rt: Router, i: nat, c: Ctx, captured: map<string, string>): (r: (ParamsEnd, ParamState))
    requires i < |rt.layers|
  {
    Process(rt.params, Keys(Compile(rt.layers[i].path)), 0, ParamState(c.ex.(params := captured), c.memo))
  }

  /** A route layer whose parameter functions are done and whose chain claims the request ends the loop. */
  lemma ParamsThenClaims(rt: Router, i: nat, c: Ctx, captured: map<string, string>, st: ParamState, c1: Ctx)
    requires i < |rt.layers| && rt.layers[i].RouteLayer?
    requires MatchRoute(Compile(rt.layers[i].path), Pathname(c.ex.url)) == Matched(captured)
    requires HandlesMethod(rt.layers[i].route, c.ex.verb)
    requires EntryParams(rt, i, c, captured) == (ParamsDone, st)
    requires RouteRun(rt.layers[i].route, ChainVerb(rt.layers[i].route, c.ex.verb), i, 0, None, AfterParams(rt, i, c, st)) == (Claimed, c1)
    ensures Run(rt, i, None, c) == (Halted, c1)
  {
    EntersRoute(rt, i, c, captured);
    RunStops(rt, i, None, c);
  }

  /** The same step seen on its own: the layer stops the loop. */
  lemma ParamsThenClaimsStep(rt: Router, i: nat, c: Ctx, captured: map<string, string>, st: ParamState, c1: Ctx)
    requires i < |rt.layers| && rt.layers[i].RouteLayer?
    requires MatchRoute(Compile(rt.layers[i].path), Pathname(c.ex.url)) == Matched(captured)
    requires HandlesMethod(rt.layers[i].route, c.ex.verb)
    requires EntryParams(rt, i, c, captured) == (ParamsDone, st)
    requires RouteRun(rt.layers[i].route, ChainVerb(rt.layers[i].route, c.ex.verb), i, 0, None, AfterParams(rt, i, c, st)) == (Claimed, c1)
    ensures LayerStep(rt, i, None, c) == Stop(c1)
  {
    EntersRoute(rt, i, c, captured);
  }

  /** A route layer whose parameter functions are done and whose chain exits hands its error to the next layer. */
  lemma ParamsThenExits(rt: Router, i: nat, c: Ctx, captured: map<string, string>, st: ParamState, err: Option<Error>, c1: Ctx)
    requires i < |rt.layers| && rt.layers[i].RouteLayer?
    requires MatchRoute(Compile(rt.layers[i].path), Pathname(c.ex.url)) == Matched(captured)
    requires HandlesMethod(rt.layers[i].route, c.ex.verb)
    requires EntryParams(rt, i, c, captured) == (ParamsDone, st)
    requires RouteRun(rt.layers[i].route, ChainVerb(rt.layers[i].route, c.ex.verb), i, 0, None, AfterParams(rt, i, c, st)) == (Exit(err), c1)
    ensures Run(rt, i, None, c) == Run(rt, i + 1, err, c1)
  {
    EntersRoute(rt, i, c, captured);
    RunOnward(rt, i, None, c);
  }

  /** The same step seen on its own: the layer hands the chain's error and context on. */
  lemma ParamsThenExitsStep(rt: Router, i: nat, c: Ctx, captured: map<string, string>, st: ParamState, err: Option<Error>, c1: Ctx)
    requires i < |rt.layers| && rt.layers[i].RouteLayer?
    requires MatchRoute(Compile(rt.layers[i].path), Pathname(c.ex.url)) == Matched(captured)
    requires HandlesMethod(rt.layers[i].route, c.ex.verb)
    requires EntryParams(rt, i, c, captured) == (ParamsDone, st)
    requires RouteRun(rt.layers[i].route, ChainVerb(rt.layers[i].route, c.ex.verb), i, 0, None, AfterParams(rt, i, c, st)) == (Exit(err), c1)
    ensures LayerStep(rt, i, None, c) == Onward(err, c1)
  {
    EntersRoute(rt, i, c, captured);
  }

  /** A route layer whose parameter functions failed or skipped the route hands that on without running the chain. */
  lemma ParamsFail(rt: Router, i: nat, c: Ctx, captured: map<string, string>, s: Signal, st: ParamState)
    requires i < |rt.layers| && rt.layers[i].RouteLayer?
    requires MatchRoute(Compile(rt.layers[i].path), Pathname(c.ex.url)) == Matched(captured)
    requires HandlesMethod(rt.layers[i].route, c.ex.verb)
    requires EntryParams(rt, i, c, captured) == (ParamsFailed(s), st)
    ensures Run(rt, i, None, c) == Run(rt, i + 1, InFlight(s), c.(ex := st.ex, memo := st.memo))
  {
    EntersRoute(rt, i, c, captured);
    RunOnward(rt, i, None, c);
  }

  /** The same step seen on its own: the layer puts the functions' signal in flight. */
  lemma ParamsFailStep(rt: Router, i: nat, c: Ctx, captured: map<string, string>, s: Signal, st: ParamState)
    requires i < |rt.layers| && rt.layers[i].RouteLayer?
    requires MatchRoute(Compile(rt.layers[i].path), Pathname(c.ex.url)) == Matched(captured)
    requires HandlesMethod(rt.layers[i].route, c.ex.verb)
    requires EntryParams(rt, i, c, captured) == (ParamsFailed(s), st)
    ensures LayerStep(rt, i, None, c) == Onward(InFlight(s), c.(ex := st.ex, memo := st.memo))
  {
    EntersRoute(rt, i, c, captured);
  }

  /** A route layer whose pattern fails to decode puts the decode error in flight when none is. */
  lemma RunPastDecodeFailure(rt: Router, i: nat, c: Ctx, e: Error)
    requires i < |rt.layers| && rt.layers[i].RouteLayer?
    requires MatchRoute(Compile(rt.layers[i].path), Pathname(c.ex.url)) == DecodeFailed(e)
    ensures Run(rt, i, None, c) == Run(rt, i + 1, Some(e), c)
  {
    RunOnward(rt, i, None, c);
  }

  /** A matching route layer is passed over, nothing run, while an error is in flight. */
  lemma RunPastOnError(rt: Router, i: nat, e: Error, c: Ctx, captured: map<string, string>)
    requires i < |rt.layers| && rt.layers[i].RouteLayer?
    requires MatchRoute(Compile(rt.layers[i].path), Pathname(c.ex.url)) == Matched(captured)
    ensures Run(rt, i, Some(e), c) == Run(rt, i + 1, Some(e), c)
  {
    RunOnward(rt, i, Some(e), c);
  }

  /** A matching route layer that does not handle a method other than OPTIONS is passed over, nothing collected. */
  lemma RunPastOtherMethod(rt: Router, i: nat, c: Ctx, captured: map<string, string>)
    requires i < |rt.layers| && rt.layers[i].RouteLayer? && c.ex.verb != "OPTIONS"
    requires MatchRoute(Compile(rt.layers[i].path), Pathname(c.ex.url)) == Matched(captured)
    requires !HandlesMethod(rt.layers[i].route, c.ex.verb)
    ensures Run(rt, i, None, c) == Run(rt, i + 1, None, c)
  {
    RunOnward(rt, i, None, c);
  }

  /** A root mount (`use(fn)`) of a normal handler with no error in flight: the handler runs with `req.params` empty. */
  lemma RunRootMount(rt: Router, i: nat, c: Ctx)
    requires i < |rt.layers| && rt.layers[i].Mount? && MountPath(rt.layers[i].path) == [] && rt.layers[i].handler.Normal?
    ensures var reply := rt.layers[i].handler.run(c.ex.(params := map[]));
            var c1 := c.(ex := reply.ex, log := c.log + Published(AtLayer(i, rt.layers[i].path), reply.settled));
            Run(rt, i, None, c) == match Settle(reply.settled)
                                   case Halt => (Halted, c1)
                                   case Go(s) => Run(rt, i + 1, InFlight(s), c1)
  {
    var c0 := c.(ex := c.ex.(params := map[]));
    InvokesNormal(rt.layers[i].handler, AtLayer(i, rt.layers[i].path), c0);
  }

  /**
   * A mount at a prefix (`use('/blog', fn)`) of a normal handler with no error
   * in flight, whose prefix matches: the handler runs on `req.url` stripped of
   * the prefix and `req.params` empty; if it calls `next`, `req.url` is
   * restored from what it left.
   */
  lemma RunPrefixMount(rt: Router, i: nat, c: Ctx)
    requires i < |rt.layers| && rt.layers[i].Mount? && rt.layers[i].handler.Normal?
    requires MountPath(rt.layers[i].path) != [] && MountMatches(MountPath(rt.layers[i].path), Pathname(c.ex.url))
    ensures var prefix := MountPath(rt.layers[i].path);
            var s := Strip(c.ex.url, prefix);
            var reply := rt.layers[i].handler.run(c.ex.(url := s.url, params := map[]));
            var c1 := c.(ex := reply.ex, log := c.log + Published(AtLayer(i, rt.layers[i].path), reply.settled));
            Run(rt, i, None, c) == match Settle(reply.settled)
                                   case Halt => (Halted, c1)
                                   case Go(sig) =>
                                     Run(rt, i + 1, InFlight(sig),
                                         c1.(ex := reply.ex.(url := Restore(reply.ex.url, Protohost(c.ex.url), prefix, s.slashAdded))))
  {
    var prefix := MountPath(rt.layers[i].path);
    var s := Strip(c.ex.url, prefix);
    var c0 := c.(ex := c.ex.(url := s.url, params := map[]));
    InvokesNormal(rt.layers[i].handler, AtLayer(i, rt.layers[i].path), c0);
    EntersMount(rt, i, None, c);
  }

  /** A root mount of an error handler with an error in flight: the handler runs on the error, with `req.params` empty. */
  lemma RunRootMountOnError(rt: Router, i: nat, e: Error, c: Ctx)
    requires i < |rt.layers| && rt.layers[i].Mount? && MountPath(rt.layers[i].path) == [] && rt.layers[i].handler.OnError?
    ensures var reply := rt.layers[i].handler.recover(e, c.ex.(params := map[]));
            var c1 := c.(ex := reply.ex, log := c.log + Published(AtLayer(i, rt.layers[i].path), reply.settled));
            Run(rt, i, Some(e), c) == match Settle(reply.settled)
                                      case Halt => (Halted, c1)
                                      case Go(s) => Run(rt, i + 1, InFlight(s), c1)
  {
    var c0 := c.(ex := c.ex.(params := map[]));
    InvokesOnError(rt.layers[i].handler, e, AtLayer(i, rt.layers[i].path), c0);
  }

  /** One parameter function that calls `next()`: the memo takes the value it left in `req.params`. */
  lemma FnContinues(fns: seq<ParamFn>, c: nat, key: string, val: string, st: ParamState)
    requires key in st.memo && c < |fns| && Settle(fns[c](st.ex, val).settled) == Go(Continue)
    ensures var ex1 := fns[c](st.ex, val).ex;
            RunFns(fns, c, key, val, st) ==
              RunFns(fns, c + 1, key, val, ParamState(ex1, st.memo[key := st.memo[key].(value := Lookup(ex1.params, key))]))
  {
  }

  /** One parameter function that fails or skips the route: that is recorded and ends the chain. */
  lemma FnStops(fns: seq<ParamFn>, c: nat, key: string, val: string, st: ParamState, s: Signal)
    requires key in st.memo && c < |fns| && Settle(fns[c](st.ex, val).settled) == Go(s) && !s.Continue?
    ensures var ex1 := fns[c](st.ex, val).ex;
            RunFns(fns, c, key, val, st) ==
              (ParamsFailed(s), ParamState(ex1, st.memo[key := st.memo[key].(value := Lookup(ex1.params, key), outcome := s)]))
  {
    var ex1 := fns[c](st.ex, val).ex;
    var memo := st.memo[key := st.memo[key].(value := Lookup(ex1.params, key))];
    assert memo[key := memo[key].(outcome := s)] == st.memo[key := st.memo[key].(value := Lookup(ex1.params, key), outcome := s)];
  }

  lemma FnsEnd(fns: seq<ParamFn>, c: nat, key: string, val: string, st: ParamState)
    requires key in st.memo && c >= |fns|
    ensures RunFns(fns, c, key, val, st) == (ParamsDone, st)
  {
  }

  /** A single captured name whose functions have not run for its value: they run, and the memo remembers the value. */
  lemma ProcessFresh(reg: Registry, key: string, st: ParamState)
    requires key in reg && key in st.ex.params && !Remembered(st.memo, key, st.ex.params[key])
    ensures var val := st.ex.params[key];
            var r1 := RunFns(reg[key], 0, key, val, st.(memo := st.memo[key := ParamMemo(Continue, val, Some(val))]));
            Process(reg, [key], 0, st) == r1
  {
    var val := st.ex.params[key];
    var r1 := RunFns(reg[key], 0, key, val, st.(memo := st.memo[key := ParamMemo(Continue, val, Some(val))]));
    if r1.0.ParamsDone? {
      assert Process(reg, [key], 1, r1.1) == (ParamsDone, r1.1);
    }
  }

  /** A single captured name without functions: nothing runs. */
  lemma ProcessUnregistered(reg: Registry, key: string, st: ParamState)
    requires key !in reg
    ensures Process(reg, [key], 0, st) == (ParamsDone, st)
  {
  }

  /** A single captured name with one function, not remembered for its value: that function alone decides. */
  lemma OneFnDecides(reg: Registry, key: string, fn: ParamFn, st: ParamState)
    requires key in reg && reg[key] == [fn] && key in st.ex.params && !Remembered(st.memo, key, st.ex.params[key])
    ensures var val := st.ex.params[key];
            var reply := fn(st.ex, val);
            var m := ParamMemo(Continue, val, Lookup(reply.ex.params, key));
            Process(reg, [key], 0, st) ==
              match Settle(reply.settled)
              case Halt => (ParamsHalted, ParamState(reply.ex, st.memo[key := ParamMemo(Continue, val, Some(val))]))
              case Go(s) =>
                if s.Continue? then (ParamsDone, ParamState(reply.ex, st.memo[key := m]))
                else (ParamsFailed(s), ParamState(reply.ex, st.memo[key := m.(outcome := s)]))
  {
    var val := st.ex.params[key];
    var st1 := st.(memo := st.memo[key := ParamMemo(Continue, val, Some(val))]);
    ProcessFresh(reg, key, st);
    var reply := fn(st.ex, val);
    var m := ParamMemo(Continue, val, Lookup(reply.ex.params, key));
    match Settle(reply.settled)
    case Halt =>
    case Go(s) =>
      assert st1.memo[key := st1.memo[key].(value := Lookup(reply.ex.params, key))] == st.memo[key := m];
      if s.Continue? {
        FnContinues(reg[key], 0, key, val, st1);
        FnsEnd(reg[key], 1, key, val, ParamState(reply.ex, st.memo[key := m]));
      } else {
        FnStops(reg[key], 0, key, val, st1, s);
        assert st1.memo[key := st1.memo[key].(value := Lookup(reply.ex.params, key), outcome := s)] == st.memo[key := m.(outcome := s)];
      }
  }
}
