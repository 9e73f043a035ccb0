/**
 * The dispatch state machine of one request, as functions of the router's
 * layers and the per-request context: matching layers in order, rewriting
 * `req.url` around a mounted handler, resolving captured parameters, running
 * a route's handler chain, carrying an in-flight error forward to the next
 * error handler, collecting the methods of passed-over routes for OPTIONS,
 * and finally calling the terminal callback or answering OPTIONS itself.
 */
module Dispatch {
  import opened Wrappers
  import opened Http
  import opened Paths
  import opened Urls
  import opened Methods
  import opened Params
  import opened Diagnostics

  /** A layer of the router: `router.use(path, fn)` or a route for a path pattern. */
  datatype Layer = Mount(path: string, handler: Handler) | RouteLayer(path: string, route: Route)

  /** A router as the dispatch reads it: its layers in registration order and its parameter registry. */
  datatype Router = Router(layers: seq<Layer>, params: Registry)

  /** The per-request dispatch context. */
  datatype Ctx = Ctx(ex: Exchange, memo: map<string, ParamMemo>, log: seq<Event>, allow: seq<string>)

  /** The error a continuation leaves in flight: `next()` and `next('route')` leave none. */
  function InFlight(s: Signal): (e: Option<Error>)
    ensures e.Some? <==> s.Fail?
    ensures e.Some? ==> e.value == s.error
  {
    if s.Fail? then Some(s.error) else None
  }

  /** The continuation that passes the in-flight error (or none) on unchanged. */
  function Pass(err: Option<Error>): (s: Signal)
    ensures InFlight(s) == err
    ensures !s.SkipRoute?
  {
    if err.Some? then Fail(err.value) else Continue
  }

  /** A normal handler runs when no error is in flight, an error handler only when one is. */
  predicate Accepts(h: Handler, err: Option<Error>) {
    h.Normal? <==> err.None?
  }

  /** The events published for one invocation: the request event, then the error it raised, if any. */
  function Published(site: Site, s: Settled): (events: seq<Event>)
    ensures |events| >= 1 && events[0] == RequestEvent(site)
    ensures Errors(events) == (if CapturedError(s).Some? then [CapturedError(s).value] else [])
  {
    var events := [RequestEvent(site)] + (if CapturedError(s).Some? then [ErrorEvent(site, CapturedError(s).value)] else []);
    assert events[1..] == (if CapturedError(s).Some? then [ErrorEvent(site, CapturedError(s).value)] else []);
    events
  }

  /**
   * Handing the context to one handler with the error in flight. A handler of
   * the other kind is passed over (the error, or its absence, goes on
   * unchanged, and nothing is published); otherwise the request event is
   * published, the handler runs, a throw or rejection is published as an
   * error event, and its settlement says how dispatch goes on.
   */
  function Invoke(h: Handler, err: Option<Error>, site: Site, c: Ctx): (r: (Step, Ctx))
    ensures !Accepts(h, err) ==> r == (Go(Pass(err)), c)
    ensures r.1.memo == c.memo && r.1.allow == c.allow
    ensures Accepts(h, err) ==> |r.1.log| > |c.log| && r.1.log[..|c.log|] == c.log && r.1.log[|c.log|] == RequestEvent(site)
  {
    if !Accepts(h, err) then (Go(Pass(err)), c)
    else
      var reply := if h.Normal? then h.run(c.ex) else h.recover(err.value, c.ex);
      (Settle(reply.settled), c.(ex := reply.ex, log := c.log + Published(site, reply.settled)))
  }

  /**
   * A mount layer whose path matched: the handler sees `req.params` empty and,
   * under a non-root mount, `req.url` with the mount path removed from its
   * path part; when it calls `next`, `req.url` gets the mount path back.
   */
  function AtMount(prefix: string, h: Handler, err: Option<Error>, site: Site, c: Ctx): (r: (Step, Ctx))
    requires MountMatches(prefix, Pathname(c.ex.url))
    ensures r.1.memo == c.memo && r.1.allow == c.allow
  {
    if prefix == [] then Invoke(h, err, site, c.(ex := c.ex.(params := map[])))
    else
      var url := c.ex.url;
      var s := Strip(url, prefix);
      var r := Invoke(h, err, site, c.(ex := c.ex.(url := s.url, params := map[])));
      if r.0.Halt? then r
      else (r.0, r.1.(ex := r.1.ex.(url := Restore(r.1.ex.url, Protohost(url), prefix, s.slashAdded))))
  }

  /** How a route's dispatch ended: back to the router with an error or none, or claimed by a handler that did not call `next`. */
  datatype RouteEnd = Exit(error: Option<Error>) | Claimed

  /**
   * Running the stack of the route of layer `li` from entry `j` on: the
   * entries that select the chosen method (or `all`) run in order; `next('route')`
   * leaves the route with no error; the end of the stack leaves it with the
   * error then in flight.
   */
  function RouteRun(route: Route, chain: string, li: nat, j: nat, err: Option<Error>, c: Ctx): (r: (RouteEnd, Ctx))
    ensures r.1.memo == c.memo && r.1.allow == c.allow
    decreases |route.stack| - j
  {
    if j >= |route.stack| then (Exit(err), c)
    else if !Selects(route.stack[j], chain) then RouteRun(route, chain, li, j + 1, err, c)
    else
      var r := Invoke(route.stack[j].handler, err, AtEntry(li, j), c);
      match r.0
      case Halt => (Claimed, r.1)
      case Go(s) => if s.SkipRoute? then (Exit(None), r.1) else RouteRun(route, chain, li, j + 1, InFlight(s), r.1)
  }

  /**
   * Entering the route of layer `li` with the parameters its pattern captured:
   * `req.params` becomes the captures, the registered parameter functions run,
   * and then, unless one of them failed, skipped the route or held the
   * request, the route's chain for the request method runs.
   */
  function EnterRoute(reg: Registry, pattern: string, route: Route, li: nat, captured: map<string, string>, c: Ctx): (r: (RouteEnd, Ctx))
    ensures r.1.allow == c.allow
  {
    var p := Process(reg, Keys(Compile(pattern)), 0, ParamState(c.ex.(params := captured), c.memo));
    var c1 := c.(ex := p.1.ex, memo := p.1.memo);
    match p.0
    case ParamsHalted => (Claimed, c1)
    case ParamsFailed(s) => (Exit(InFlight(s)), c1)
    case ParamsDone =>
      RouteRun(route, ChainVerb(route, c.ex.verb), li, 0, None, c1.(log := c1.log + [RequestEvent(AtLayer(li, pattern))]))
  }

  /** What one layer leaves the router's loop with: go on to the next layer with an error or none, or stop. */
  datatype Turn = Onward(error: Option<Error>, ctx: Ctx) | Stop(ctx: Ctx)

  /** A mount layer: passed over unless its path is a segment-wise prefix of the request path. */
  function MountStep(mp: string, h: Handler, i: nat, err: Option<Error>, c: Ctx): (t: Turn)
    ensures t.ctx.memo == c.memo && t.ctx.allow == c.allow
  {
    if !MountMatches(MountPath(mp), Pathname(c.ex.url)) then Onward(err, c)
    else
      var r := AtMount(MountPath(mp), h, err, AtLayer(i, mp), c);
      if r.0.Halt? then Stop(r.1) else Onward(InFlight(r.0.signal), r.1)
  }

  /**
   * A route layer. A decode failure in its captures becomes the in-flight
   * error unless one is already there; the route is entered only with no
   * error in flight and only when it handles the method, and a matched route
   * that does not is remembered for OPTIONS.
   */
  function RouteStep(reg: Registry, pattern: string, route: Route, i: nat, err: Option<Error>, c: Ctx): (t: Turn)
  {
    match MatchRoute(Compile(pattern), Pathname(c.ex.url))
    case NoMatch => Onward(err, c)
    case DecodeFailed(e) => Onward(if err.Some? then err else Some(e), c)
    case Matched(captured) =>
      if err.Some? then Onward(err, c)
      else if !HandlesMethod(route, c.ex.verb) then
        Onward(err, if c.ex.verb == "OPTIONS" then c.(allow := c.allow + Allowed(route)) else c)
      else
        var r := EnterRoute(reg, pattern, route, i, captured, c);
        if r.0.Claimed? then Stop(r.1) else Onward(r.0.error, r.1)
  }

  function LayerStep(rt: Router, i: nat, err: Option<Error>, c: Ctx): (t: Turn)
    requires i < |rt.layers|
  {
    match rt.layers[i]
    case Mount(mp, h) => MountStep(mp, h, i, err, c)
    case RouteLayer(pattern, route) => RouteStep(rt.params, pattern, route, i, err, c)
  }

  /** How the router's loop ended: the layers ran out with an error or none, or a handler held the request. */
  datatype Outcome = Exhausted(error: Option<Error>) | Halted

  /** The router's `next` from layer `i` on, with `err` in flight. */
  function Run(rt: Router, i: nat, err: Option<Error>, c: Ctx): (r: (Outcome, Ctx))
    decreases |rt.layers| - i
  {
    if i >= |rt.layers| then (Exhausted(err), c)
    else
      match LayerStep(rt, i, err, c)
      case Stop(c1) => (Halted, c1)
      case Onward(err1, c1) => Run(rt, i + 1, err1, c1)
  }

  /** How handling a request ended. */
  datatype End = Held | Done(error: Option<Error>) | AnsweredOptions

  /** The exchange as the request leaves the router, the events it published and how it ended. */
  datatype Final = Final(ex: Exchange, log: seq<Event>, end: End)

  /** The context a request starts with: nothing remembered, published or collected. */
  function Start(ex: Exchange): (c: Ctx)
    ensures c.ex == ex && c.memo == map[] && c.log == [] && c.allow == []
  {
    Ctx(ex, map[], [], [])
  }

  /**
   * `router(req, res, done)`. When the layers run out, `req.params` is
   * restored; an OPTIONS request with no error and at least one passed-over
   * route is answered with the collected methods, and a failure to answer
   * goes to `done`; every other request goes to `done` with the error in flight.
   */
  function Handle(rt: Router, ex: Exchange): (f: Final)
  {
    var r := Run(rt, 0, None, Start(ex));
    match r.0
    case Halted => Final(r.1.ex, r.1.log, Held)
    case Exhausted(err) =>
      var ex1 := r.1.ex.(params := ex.params);
      if ex.verb == "OPTIONS" && err.None? && r.1.allow != [] then
        match SendOptions(ex1, JoinComma(AllowList(r.1.allow)))
        case Ok(ex2) => Final(ex2, r.1.log, AnsweredOptions)
        case Err(e) => Final(ex1, r.1.log, Done(Some(e)))
      else Final(ex1, r.1.log, Done(err))
  }
}
