/** HEAD requests: the GET chain is reused when no HEAD handler is registered. */
module HeadScenarios {
  import opened Wrappers
  import opened Http
  import opened Paths
  import opened Urls
  import opened Methods
  import opened Diagnostics
  import opened Dispatch
  import opened Steps
  import opened Fixtures

  /** `get(p, sethit(1), saw)`, for any `p` the HEAD request's path matches. */
  lemma HeadThroughGetRoute(p: string, url: string)
    requires MatchRoute(Compile(p), Pathname(url)) == Matched(map[]) && Keys(Compile(p)) == []
    ensures var f := Handle(Router([RouteLayer(p, HitSawRoute("GET", "x-fn-1"))], map[]), NewExchange("HEAD", url));
            f.end == Held && f.ex.status == 200 &&
            f.ex.headers == map["x-fn-1" := "hit", "Content-Type" := "text/plain"] &&
            f.ex.body == "saw HEAD " + url
  {
    var route := HitSawRoute("GET", "x-fn-1");
    var ex := NewExchange("HEAD", url);
    var rt := Router([RouteLayer(p, route)], map[]);
    assert route.stack[0].verb == Some("GET");
    assert HandlesMethod(route, "HEAD") && ChainVerb(route, "HEAD") == "GET";
    var c := Start(ex);
    var c2 := Entered(rt, 0, c, map[]);
    HitSawChain("GET", "x-fn-1", 0, c2);
    var c3 := c2.(ex := SetHeader(c2.ex, "x-fn-1", "hit"), log := c2.log + Published(AtEntry(0, 0), Called(Continue)));
    var c4 := c3.(ex := Saw(c3.ex).ex, log := c3.log + Published(AtEntry(0, 1), Returned));
    RouteClaims(rt, 0, c, map[], c4);
    HandleHeld(rt, ex, c4);
    HitThenSaw("HEAD", url, "x-fn-1");
    SawWords();
  }

  /**
   * A HEAD request to a path with only GET registered runs the GET chain in
   * order: `sethit(1)` sets `x-fn-1`, then `saw` answers 200 with
   * `Content-Type: text/plain`.
   */
  lemma HeadUsesGetChain(url: string)
    requires url == "/users"
    ensures var f := Handle(Router([RouteLayer(url, HitSawRoute("GET", "x-fn-1"))], map[]), NewExchange("HEAD", url));
            f.end == Held && f.ex.status == 200 &&
            f.ex.headers == map["x-fn-1" := "hit", "Content-Type" := "text/plain"] &&
            f.ex.body == "saw HEAD " + url
  {
    UsersPath(url);
    HeadThroughGetRoute(url, url);
  }

  /** `head(p, sethit(1), saw)` then `get(p, sethit(2), saw)`, for any `p` the request's path matches. */
  lemma HeadBeforeGetRoute(p: string, url: string)
    requires MatchRoute(Compile(p), Pathname(url)) == Matched(map[]) && Keys(Compile(p)) == []
    ensures var rt := Router([RouteLayer(p, HitSawRoute("HEAD", "x-fn-1")), RouteLayer(p, HitSawRoute("GET", "x-fn-2"))], map[]);
            var f := Handle(rt, NewExchange("HEAD", url));
            f.end == Held && f.ex.status == 200 &&
            f.ex.headers == map["x-fn-1" := "hit", "Content-Type" := "text/plain"] &&
            f.ex.body == "saw HEAD " + url
  {
    var route := HitSawRoute("HEAD", "x-fn-1");
    var ex := NewExchange("HEAD", url);
    var rt := Router([RouteLayer(p, route), RouteLayer(p, HitSawRoute("GET", "x-fn-2"))], map[]);
    assert route.stack[0].verb == Some("HEAD");
    assert HandlesMethod(route, "HEAD") && ChainVerb(route, "HEAD") == "HEAD";
    var c := Start(ex);
    var c2 := Entered(rt, 0, c, map[]);
    HitSawChain("HEAD", "x-fn-1", 0, c2);
    var c3 := c2.(ex := SetHeader(c2.ex, "x-fn-1", "hit"), log := c2.log + Published(AtEntry(0, 0), Called(Continue)));
    var c4 := c3.(ex := Saw(c3.ex).ex, log := c3.log + Published(AtEntry(0, 1), Returned));
    RouteClaims(rt, 0, c, map[], c4);
    HandleHeld(rt, ex, c4);
    HitThenSaw("HEAD", url, "x-fn-1");
    SawWords();
  }

  /**
   * With a HEAD route registered before the GET route, a HEAD request runs
   * the HEAD route (`x-fn-1` set) and never reaches the GET route.
   */
  lemma HeadBeforeGet(url: string)
    requires url == "/users"
    ensures var rt := Router([RouteLayer(url, HitSawRoute("HEAD", "x-fn-1")), RouteLayer(url, HitSawRoute("GET", "x-fn-2"))], map[]);
            var f := Handle(rt, NewExchange("HEAD", url));
            f.end == Held && f.ex.status == 200 &&
            f.ex.headers == map["x-fn-1" := "hit", "Content-Type" := "text/plain"] &&
            f.ex.body == "saw HEAD " + url
  {
    UsersPath(url);
    HeadBeforeGetRoute(url, url);
  }
}
