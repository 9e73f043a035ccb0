/**
 * The dispatch as the router runs it: a per-request context object whose
 * fields (the exchange, the parameter memo, the observer log and the methods
 * collected for OPTIONS) are updated step by step by loops over the layers,
 * a route's stack and a name's parameter functions; and the router object
 * whose registration methods grow its layer list and parameter registry.
 * Every method is proved to leave exactly the state the functions of
 * `Params` and `Dispatch` describe.
 */
module Engine {
  import opened Wrappers
  import opened Http
  import opened Paths
  import opened Urls
  import opened Methods
  import opened Params
  import opened Diagnostics
  import D = Dispatch

  class Context {
    var ex: Exchange
    var memo: map<string, ParamMemo>
    var log: seq<Event>
    var allow: seq<string>

    function State(): D.Ctx
      reads this
    {
      D.Ctx(ex, memo, log, allow)
    }

    function ParamView(): ParamState
      reads this
    {
      ParamState(ex, memo)
    }

    constructor (ex0: Exchange)
      ensures State() == D.Start(ex0)
    {
      ex := ex0;
      memo := map[];
      log := [];
      allow := [];
    }

    /** The functions of `key`, in order, with the captured value `val`. */
    method RunParamFns(fns: seq<ParamFn>, key: string, val: string) returns (end: ParamsEnd)
      requires key in memo
      modifies this
      ensures (end, ParamView()) == RunFns(fns, 0, key, val, old(ParamView()))
      ensures log == old(log) && allow == old(allow)
    {
      var c := 0;
      while c < |fns|
        invariant 0 <= c <= |fns|
        invariant key in memo
        invariant RunFns(fns, c, key, val, ParamView()) == RunFns(fns, 0, key, val, old(ParamView()))
        invariant log == old(log) && allow == old(allow)
        decreases |fns| - c
      {
        var reply := fns[c](ex, val);
        var step := Settle(reply.settled);
        if step.Halt? {
          ex := reply.ex;
          return ParamsHalted;
        }
        memo := memo[key := memo[key].(value := Lookup(reply.ex.params, key))];
        ex := reply.ex;
        if !step.signal.Continue? {
          memo := memo[key := memo[key].(outcome := step.signal)];
          return ParamsFailed(step.signal);
        }
        c := c + 1;
      }
      return ParamsDone;
    }

    /** The captured names `keys`, in order, through the memo and the registry. */
    method ProcessParams(reg: Registry, keys: seq<string>) returns (end: ParamsEnd)
      modifies this
      ensures (end, ParamView()) == Process(reg, keys, 0, old(ParamView()))
      ensures log == old(log) && allow == old(allow)
    {
      var k := 0;
      while k < |keys|
        invariant 0 <= k <= |keys|
        invariant Process(reg, keys, k, ParamView()) == Process(reg, keys, 0, old(ParamView()))
        invariant log == old(log) && allow == old(allow)
        decreases |keys| - k
      {
        var key := keys[k];
        if key in ex.params && key in reg {
          var val := ex.params[key];
          if Remembered(memo, key, val) {
            var m := memo[key];
            ex := ex.(params := Put(ex.params, key, m.value));
            if !m.outcome.Continue? {
              return ParamsFailed(m.outcome);
            }
          } else {
            memo := memo[key := ParamMemo(Continue, val, Some(val))];
            end := RunParamFns(reg[key], key, val);
            if !end.ParamsDone? {
              return;
            }
          }
        }
        k := k + 1;
      }
      return ParamsDone;
    }

    /** One handler, with the error in flight, at `site`. */
    method Invoke(h: Handler, err: Option<Error>, site: Site) returns (step: Step)
      modifies this
      ensures (step, State()) == D.Invoke(h, err, site, old(State()))
    {
      if !D.Accepts(h, err) {
        return Go(D.Pass(err));
      }
      var reply := if h.Normal? then h.run(ex) else h.recover(err.value, ex);
      ex := reply.ex;
      log := log + D.Published(site, reply.settled);
      step := Settle(reply.settled);
    }

    /** A matched mount layer: strip `req.url`, run the handler, and restore `req.url` when it calls `next`. */
    method AtMount(prefix: string, h: Handler, err: Option<Error>, site: Site) returns (step: Step)
      requires MountMatches(prefix, Pathname(ex.url))
      modifies this
      ensures (step, State()) == D.AtMount(prefix, h, err, site, old(State()))
    {
      if prefix == [] {
        ex := ex.(params := map[]);
        step := Invoke(h, err, site);
        return;
      }
      var url := ex.url;
      var s := Strip(url, prefix);
      ex := ex.(url := s.url, params := map[]);
      step := Invoke(h, err, site);
      if step.Go? {
        ex := ex.(url := Restore(ex.url, Protohost(url), prefix, s.slashAdded));
      }
    }

    /** The stack of the route of layer `li`, for the chosen method. */
    method RunRoute(route: Route, chain: string, li: nat) returns (end: D.RouteEnd)
      modifies this
      ensures (end, State()) == D.RouteRun(route, chain, li, 0, None, old(State()))
    {
      var j := 0;
      var err: Option<Error> := None;
      while j < |route.stack|
        invariant 0 <= j <= |route.stack|
        invariant D.RouteRun(route, chain, li, j, err, State()) == D.RouteRun(route, chain, li, 0, None, old(State()))
        decreases |route.stack| - j
      {
        if Selects(route.stack[j], chain) {
          var step := Invoke(route.stack[j].handler, err, AtEntry(li, j));
          if step.Halt? {
            return D.Claimed;
          }
          if step.signal.SkipRoute? {
            return D.Exit(None);
          }
          err := D.InFlight(step.signal);
        }
        j := j + 1;
      }
      return D.Exit(err);
    }

    /** Entering a matched route: its captures, its parameter functions, then its chain. */
    method EnterRoute(reg: Registry, pattern: string, route: Route, li: nat, captured: map<string, string>) returns (end: D.RouteEnd)
      modifies this
      ensures (end, State()) == D.EnterRoute(reg, pattern, route, li, captured, old(State()))
    {
      var verb := ex.verb;
      ex := ex.(params := captured);
      var p := ProcessParams(reg, Keys(Compile(pattern)));
      match p
      case ParamsHalted => return D.Claimed;
      case ParamsFailed(s) => return D.Exit(D.InFlight(s));
      case ParamsDone =>
        log := log + [RequestEvent(AtLayer(li, pattern))];
        end := RunRoute(route, ChainVerb(route, verb), li);
    }

    /** One layer of the router's loop. */
    method Step(rt: D.Router, i: nat, err: Option<Error>) returns (onward: bool, next: Option<Error>)
      requires i < |rt.layers|
      modifies this
      ensures onward == D.LayerStep(rt, i, err, old(State())).Onward?
      ensures State() == D.LayerStep(rt, i, err, old(State())).ctx
      ensures onward ==> next == D.LayerStep(rt, i, err, old(State())).error
    {
      var path := Pathname(ex.url);
      match rt.layers[i]
      case Mount(mp, h) =>
        if !MountMatches(MountPath(mp), path) {
          return true, err;
        }
        var step := AtMount(MountPath(mp), h, err, AtLayer(i, mp));
        if step.Halt? {
          return false, err;
        }
        return true, D.InFlight(step.signal);
      case RouteLayer(pattern, route) =>
        match MatchRoute(Compile(pattern), path)
        case NoMatch => return true, err;
        case DecodeFailed(e) => return true, if err.Some? then err else Some(e);
        case Matched(captured) =>
          if err.Some? {
            return true, err;
          }
          if !HandlesMethod(route, ex.verb) {
            if ex.verb == "OPTIONS" {
              allow := allow + Allowed(route);
            }
            return true, err;
          }
          var end := EnterRoute(rt.params, pattern, route, i, captured);
          if end.Claimed? {
            return false, err;
          }
          return true, end.error;
    }

    /** The router's loop over its layers. */
    method Run(rt: D.Router) returns (out: D.Outcome)
      modifies this
      ensures (out, State()) == D.Run(rt, 0, None, old(State()))
    {
      var i := 0;
      var err: Option<Error> := None;
      while i < |rt.layers|
        invariant 0 <= i <= |rt.layers|
        invariant D.Run(rt, i, err, State()) == D.Run(rt, 0, None, old(State()))
        decreases |rt.layers| - i
      {
        var onward, next := Step(rt, i, err);
        if !onward {
          return D.Halted;
        }
        err := next;
        i := i + 1;
      }
      return D.Exhausted(err);
    }
  }

  /** The router object: its layers in registration order and its parameter registry. */
  class Router {
    var layers: seq<D.Layer>
    var params: Registry

    constructor ()
      ensures layers == [] && params == map[]
    {
      layers := [];
      params := map[];
    }

    function Snapshot(): D.Router
      reads this
    {
      D.Router(layers, params)
    }

    /** `router.use(path, fn)`; `router.use(fn)` is `path` "/". */
    method Use(path: string, h: Handler)
      modifies this
      ensures layers == old(layers) + [D.Mount(path, h)] && params == old(params)
    {
      layers := layers + [D.Mount(path, h)];
    }

    /** `router.route(path)` with the entries added to it by `route.get(...)`, `route.all(...)` and so on. */
    method AddRoute(path: string, route: Route)
      modifies this
      ensures layers == old(layers) + [D.RouteLayer(path, route)] && params == old(params)
    {
      layers := layers + [D.RouteLayer(path, route)];
    }

    /**
     * `router.get(path, ...fns)` (`verb` "GET") and the other methods, and
     * `router.all(path, ...fns)` (`verb` None): a new route for `path` whose
     * stack holds the handlers, in order, for that method.
     */
    method On(verb: Option<string>, path: string, handlers: seq<Handler>)
      modifies this
      ensures layers == old(layers) + [D.RouteLayer(path, Route(seq(|handlers|, k requires 0 <= k < |handlers| => RouteEntry(verb, handlers[k]))))]
      ensures params == old(params)
    {
      var stack := seq(|handlers|, k requires 0 <= k < |handlers| => RouteEntry(verb, handlers[k]));
      layers := layers + [D.RouteLayer(path, Route(stack))];
    }

    /** `router.param(name, fn)`: the registry grows, or the call fails and nothing changes. */
    method Param(name: Arg, fn: Arg) returns (failure: Option<Error>)
      modifies this
      ensures layers == old(layers)
      ensures Register(old(params), name, fn).Ok? ==> failure.None? && params == Register(old(params), name, fn).value
      ensures Register(old(params), name, fn).Err? ==> failure == Some(Register(old(params), name, fn).error) && params == old(params)
    {
      var r := Register(params, name, fn);
      if r.Err? {
        return Some(r.error);
      }
      params := r.value;
      return None;
    }

    /** `router(req, res, done)`. */
    method Handle(ex0: Exchange) returns (f: D.Final)
      ensures f == D.Handle(Snapshot(), ex0)
    {
      var rt := Snapshot();
      var ctx := new Context(ex0);
      var out := ctx.Run(rt);
      match out
      case Halted => f := D.Final(ctx.ex, ctx.log, D.Held);
      case Exhausted(err) =>
        var ex1 := ctx.ex.(params := ex0.params);
        if ex0.verb == "OPTIONS" && err.None? && ctx.allow != [] {
          var sent := SendOptions(ex1, JoinComma(AllowList(ctx.allow)));
          if sent.Ok? {
            f := D.Final(sent.value, ctx.log, D.AnsweredOptions);
          } else {
            f := D.Final(ex1, ctx.log, D.Done(Some(sent.error)));
          }
        } else {
          f := D.Final(ex1, ctx.log, D.Done(err));
        }
    }
  }
}
