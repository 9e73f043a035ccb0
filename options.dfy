/** OPTIONS requests: the automatic answer listing the methods of the routes on the path. */
module OptionsScenarios {
  import opened Wrappers
  import opened Http
  import opened Paths
  import opened Urls
  import opened Methods
  import opened Diagnostics
  import opened Dispatch
  import opened Steps
  import opened Fixtures
  import opened Laws

  /** The request path `/` is all path, and matches the pattern `/`. */
  lemma RootPath(root: string)
    requires root == "/"
    ensures Pathname(root) == root && Compile(root) == [Literal([])]
  {
    OriginForm("/");
    assert Relative("/") == [];
    SplitSingle([]);
  }

  /** `/` and `/users` do not match each other. */
  lemma RootAndUsers(root: string, users: string)
    requires root == "/" && users == "/users"
    ensures MatchRoute(Compile(root), users) == NoMatch
    ensures MatchRoute(Compile(users), root) == NoMatch
  {
    RootPath(root);
    assert "/users" == "/" + "users";
    CompileOne("users");
    SegmentsOne("users");
    assert "/"[1..] == [];
    SplitSingle([]);
  }

  /** A route of one named method does not answer OPTIONS unless that method is OPTIONS. */
  lemma SawRouteRefuses(verb: string)
    requires verb != "OPTIONS" && verb != "HEAD"
    ensures !HandlesMethod(SawRoute(verb), "OPTIONS")
  {
  }

  /** A route of one named method other than GET and HEAD declares just that method. */
  lemma SawRouteDeclares(verb: string)
    requires verb != "GET" && verb != "HEAD"
    ensures Allowed(SawRoute(verb)) == [verb]
  {
    assert Verbs(SawRoute(verb).stack) == [verb];
    assert Dedup([verb]) == [verb];
  }

  /** A GET route declares GET and then HEAD. */
  lemma GetRouteDeclares()
    ensures Allowed(SawRoute("GET")) == ["GET", "HEAD"]
  {
    assert Verbs(SawRoute("GET").stack) == ["GET"];
    assert Dedup(["GET"]) == ["GET"];
    assert FirstIndex(["GET"], "GET") == 0;
    assert "HEAD" !in ["GET"];
    assert WithHead(["GET"]) == ["GET"][..1] + ["HEAD"] + ["GET"][1..];
    assert ["GET"][..1] == ["GET"] && ["GET"][1..] == [];
  }

  /** Deduplicating a list without repeats changes nothing. */
  lemma {:induction false} DedupDistinct(xs: seq<string>)
    requires Distinct(xs)
    ensures Dedup(xs) == xs
  {
    if xs != [] {
      var init := xs[..|xs| - 1];
      assert Distinct(init);
      DedupDistinct(init);
      assert xs[|xs| - 1] !in init;
      assert init + [xs[|xs| - 1]] == xs;
    }
  }

  /** Elements already present add nothing when they come again. */
  lemma {:induction false} DedupRepeats(xs: seq<string>, ys: seq<string>)
    requires forall y :: y in ys ==> y in xs
    ensures Dedup(xs + ys) == Dedup(xs)
    decreases |ys|
  {
    if ys != [] {
      var init := ys[..|ys| - 1];
      assert (xs + ys)[..|xs + ys| - 1] == xs + init;
      DedupRepeats(xs, init);
      assert (xs + ys)[|xs + ys| - 1] == ys[|ys| - 1];
    } else {
      assert xs + ys == xs;
    }
  }

  lemma JoinThree(a: string, b: string, c: string)
    ensures JoinComma([a, b, c]) == a + ", " + b + ", " + c
  {
    assert [b, c][1..] == [c];
    assert JoinComma([b, c]) == b + ", " + c;
    assert [a, b, c][1..] == [b, c];
    assert JoinComma([a, b, c]) == a + ", " + (b + ", " + c);
  }

  lemma JoinFour(a: string, b: string, c: string, d: string)
    ensures JoinComma([a, b, c, d]) == a + ", " + b + ", " + c + ", " + d
  {
    assert [a, b, c, d][1..] == [b, c, d];
    JoinThree(b, c, d);
  }

  /** The `Allow` lists of the tests: first occurrences, in order. */
  lemma AllowLists()
    ensures AllowList(["GET", "HEAD"] + ["POST"] + ["PUT"]) == ["GET", "HEAD", "POST", "PUT"]
    ensures AllowList(["GET", "HEAD"] + ["PUT"] + ["GET", "HEAD"]) == ["GET", "HEAD", "PUT"]
    ensures AllowList(["GET", "HEAD"] + ["PUT"]) == ["GET", "HEAD", "PUT"]
  {
    var a := ["GET", "HEAD", "POST", "PUT"];
    assert ["GET", "HEAD"] + ["POST"] + ["PUT"] == a;
    assert Distinct(a);
    DedupDistinct(a);
    var b := ["GET", "HEAD", "PUT"];
    assert ["GET", "HEAD"] + ["PUT"] == b;
    assert Distinct(b);
    DedupDistinct(b);
    DedupRepeats(b, ["GET", "HEAD"]);
  }

  /** The `Allow` values of the tests. */
  lemma AllowTexts()
    ensures JoinComma(["GET", "HEAD", "POST", "PUT"]) == "GET, HEAD, POST, PUT"
    ensures JoinComma(["GET", "HEAD", "PUT"]) == "GET, HEAD, PUT"
  {
    JoinFour("GET", "HEAD", "POST", "PUT");
    JoinThree("GET", "HEAD", "PUT");
  }

  /** The four routes of the first test: DELETE at `q`, which does not match, then GET, POST and PUT at `p`, which does. */
  ghost predicate DefinedRoutes(rt: Router, q: string, p: string) {
    && |rt.layers| == 4 && rt.layers[0] == RouteLayer(q, SawRoute("DELETE"))
    && rt.layers[1] == RouteLayer(p, SawRoute("GET")) && rt.layers[2] == RouteLayer(p, SawRoute("POST"))
    && rt.layers[3] == RouteLayer(p, SawRoute("PUT"))
  }

  lemma DefinedRoutesHead(rt: Router, q: string, p: string, ex: Exchange)
    requires ex.verb == "OPTIONS" && DefinedRoutes(rt, q, p)
    requires MatchRoute(Compile(q), Pathname(ex.url)) == NoMatch
    requires MatchRoute(Compile(p), Pathname(ex.url)) == Matched(map[])
    ensures Run(rt, 0, None, Start(ex)) == Run(rt, 2, None, Start(ex).(allow := ["GET", "HEAD"]))
  {
    var c0 := Start(ex);
    SawRouteRefuses("GET");
    GetRouteDeclares();
    RunPastUnmatched(rt, 0, None, c0);
    assert c0.(allow := []) == c0;
    RunCollects(rt, 1, c0, map[], [], ["GET", "HEAD"]);
    assert [] + ["GET", "HEAD"] == ["GET", "HEAD"];
  }

  lemma DefinedRoutesTail(rt: Router, q: string, p: string, ex: Exchange)
    requires ex.verb == "OPTIONS" && DefinedRoutes(rt, q, p)
    requires MatchRoute(Compile(p), Pathname(ex.url)) == Matched(map[])
    ensures Run(rt, 2, None, Start(ex).(allow := ["GET", "HEAD"])) ==
              (Exhausted(None), Start(ex).(allow := ["GET", "HEAD"] + ["POST"] + ["PUT"]))
  {
    var c0 := Start(ex);
    SawRouteRefuses("POST");
    SawRouteRefuses("PUT");
    SawRouteDeclares("POST");
    SawRouteDeclares("PUT");
    RunCollects(rt, 2, c0, map[], ["GET", "HEAD"], ["POST"]);
    RunCollects(rt, 3, c0, map[], ["GET", "HEAD"] + ["POST"], ["PUT"]);
    RunEnds(rt, 4, None, c0.(allow := ["GET", "HEAD"] + ["POST"] + ["PUT"]));
  }

  lemma DefinedRoutesAnswer(rt: Router, q: string, p: string, ex: Exchange)
    requires q == "/" && p == "/users" && ex == NewExchange("OPTIONS", p)
    requires DefinedRoutes(rt, q, p)
    ensures var f := Handle(rt, ex);
            f.end == AnsweredOptions && f.ex.status == 200 && f.log == [] &&
            "Allow" in f.ex.headers && f.ex.headers["Allow"] == "GET, HEAD, POST, PUT" && f.ex.body == "GET, HEAD, POST, PUT"
  {
    RootAndUsers(q, p);
    UsersPath(p);
    DefinedRoutesHead(rt, q, p, ex);
    DefinedRoutesTail(rt, q, p, ex);
    AnswerCollected(rt, ex, ["GET", "HEAD"] + ["POST"] + ["PUT"]);
    AllowLists();
    AllowTexts();
  }

  /**
   * OPTIONS `/users` with DELETE on `/` and GET, POST and PUT on `/users`:
   * 200, with `Allow` and the body both `GET, HEAD, POST, PUT`, and no handler run.
   */
  lemma RespondsWithDefinedRoutes(root: string, users: string)
    requires root == "/" && users == "/users"
    ensures var rt := Router([RouteLayer(root, SawRoute("DELETE")), RouteLayer(users, SawRoute("GET")),
                              RouteLayer(users, SawRoute("POST")), RouteLayer(users, SawRoute("PUT"))], map[]);
            var f := Handle(rt, NewExchange("OPTIONS", users));
            f.end == AnsweredOptions && f.ex.status == 200 && f.log == [] &&
            "Allow" in f.ex.headers && f.ex.headers["Allow"] == "GET, HEAD, POST, PUT" && f.ex.body == "GET, HEAD, POST, PUT"
  {
    var rt := Router([RouteLayer(root, SawRoute("DELETE")), RouteLayer(users, SawRoute("GET")),
                      RouteLayer(users, SawRoute("POST")), RouteLayer(users, SawRoute("PUT"))], map[]);
    DefinedRoutesAnswer(rt, root, users, NewExchange("OPTIONS", users));
  }

  /** The routes of the second test: DELETE at `q`, then GET, PUT and GET again at `p`. */
  ghost predicate RepeatedRoutes(rt: Router, q: string, p: string) {
    && |rt.layers| == 4 && rt.layers[0] == RouteLayer(q, SawRoute("DELETE"))
    && rt.layers[1] == RouteLayer(p, SawRoute("GET")) && rt.layers[2] == RouteLayer(p, SawRoute("PUT"))
    && rt.layers[3] == RouteLayer(p, SawRoute("GET"))
  }

  lemma RepeatedRoutesHead(rt: Router, q: string, p: string, ex: Exchange)
    requires ex.verb == "OPTIONS" && RepeatedRoutes(rt, q, p)
    requires MatchRoute(Compile(q), Pathname(ex.url)) == NoMatch
    requires MatchRoute(Compile(p), Pathname(ex.url)) == Matched(map[])
    ensures Run(rt, 0, None, Start(ex)) == Run(rt, 2, None, Start(ex).(allow := ["GET", "HEAD"]))
  {
    var c0 := Start(ex);
    SawRouteRefuses("GET");
    GetRouteDeclares();
    RunPastUnmatched(rt, 0, None, c0);
    assert c0.(allow := []) == c0;
    RunCollects(rt, 1, c0, map[], [], ["GET", "HEAD"]);
    assert [] + ["GET", "HEAD"] == ["GET", "HEAD"];
  }

  lemma RepeatedRoutesTail(rt: Router, q: string, p: string, ex: Exchange)
    requires ex.verb == "OPTIONS" && RepeatedRoutes(rt, q, p)
    requires MatchRoute(Compile(p), Pathname(ex.url)) == Matched(map[])
    ensures Run(rt, 2, None, Start(ex).(allow := ["GET", "HEAD"])) ==
              (Exhausted(None), Start(ex).(allow := ["GET", "HEAD"] + ["PUT"] + ["GET", "HEAD"]))
  {
    var c0 := Start(ex);
    SawRouteRefuses("PUT");
    SawRouteRefuses("GET");
    SawRouteDeclares("PUT");
    GetRouteDeclares();
    RunCollects(rt, 2, c0, map[], ["GET", "HEAD"], ["PUT"]);
    RunCollects(rt, 3, c0, map[], ["GET", "HEAD"] + ["PUT"], ["GET", "HEAD"]);
    RunEnds(rt, 4, None, c0.(allow := ["GET", "HEAD"] + ["PUT"] + ["GET", "HEAD"]));
  }

  lemma RepeatedRoutesAnswer(rt: Router, q: string, p: string, ex: Exchange)
    requires q == "/" && p == "/users" && ex == NewExchange("OPTIONS", p)
    requires RepeatedRoutes(rt, q, p)
    ensures var f := Handle(rt, ex);
            f.end == AnsweredOptions && f.ex.status == 200 && f.log == [] &&
            "Allow" in f.ex.headers && f.ex.headers["Allow"] == "GET, HEAD, PUT" && f.ex.body == "GET, HEAD, PUT"
  {
    RootAndUsers(q, p);
    UsersPath(p);
    RepeatedRoutesHead(rt, q, p, ex);
    RepeatedRoutesTail(rt, q, p, ex);
    AnswerCollected(rt, ex, ["GET", "HEAD"] + ["PUT"] + ["GET", "HEAD"]);
    AllowLists();
    AllowTexts();
  }

  /**
   * OPTIONS `/users` with GET registered twice on `/users`: each method
   * appears once in `Allow`, in first-registration order: `GET, HEAD, PUT`.
   */
  lemma NoRepeatedMethods(root: string, users: string)
    requires root == "/" && users == "/users"
    ensures var rt := Router([RouteLayer(root, SawRoute("DELETE")), RouteLayer(users, SawRoute("GET")),
                              RouteLayer(users, SawRoute("PUT")), RouteLayer(users, SawRoute("GET"))], map[]);
            var f := Handle(rt, NewExchange("OPTIONS", users));
            f.end == AnsweredOptions && f.ex.status == 200 && f.log == [] &&
            "Allow" in f.ex.headers && f.ex.headers["Allow"] == "GET, HEAD, PUT" && f.ex.body == "GET, HEAD, PUT"
  {
    var rt := Router([RouteLayer(root, SawRoute("DELETE")), RouteLayer(users, SawRoute("GET")),
                      RouteLayer(users, SawRoute("PUT")), RouteLayer(users, SawRoute("GET"))], map[]);
    RepeatedRoutesAnswer(rt, root, users, NewExchange("OPTIONS", users));
  }

  /** The routes of the third test: GET at `q`, then GET and PUT at `p`, then `all(p, sethit(1))`. */
  ghost predicate AllRoutes(rt: Router, q: string, p: string) {
    && |rt.layers| == 4 && rt.layers[0] == RouteLayer(q, SawRoute("GET"))
    && rt.layers[1] == RouteLayer(p, SawRoute("GET")) && rt.layers[2] == RouteLayer(p, SawRoute("PUT"))
    && rt.layers[3] == RouteLayer(p, HitAllRoute("x-fn-1"))
  }

  lemma AllRoutesHead(rt: Router, q: string, p: string, ex: Exchange)
    requires ex.verb == "OPTIONS" && AllRoutes(rt, q, p)
    requires MatchRoute(Compile(q), Pathname(ex.url)) == NoMatch
    requires MatchRoute(Compile(p), Pathname(ex.url)) == Matched(map[])
    ensures Run(rt, 0, None, Start(ex)) == Run(rt, 3, None, Start(ex).(allow := ["GET", "HEAD"] + ["PUT"]))
  {
    AllRoutesFirstTwo(rt, q, p, ex);
    SawRouteRefuses("PUT");
    SawRouteDeclares("PUT");
    RunCollects(rt, 2, Start(ex), map[], ["GET", "HEAD"], ["PUT"]);
  }

  /** The GET route at `q` does not match; the GET route at `p` is passed over, its methods collected. */
  lemma AllRoutesFirstTwo(rt: Router, q: string, p: string, ex: Exchange)
    requires ex.verb == "OPTIONS" && AllRoutes(rt, q, p)
    requires MatchRoute(Compile(q), Pathname(ex.url)) == NoMatch
    requires MatchRoute(Compile(p), Pathname(ex.url)) == Matched(map[])
    ensures Run(rt, 0, None, Start(ex)) == Run(rt, 2, None, Start(ex).(allow := ["GET", "HEAD"]))
  {
    var c0 := Start(ex);
    SawRouteRefuses("GET");
    GetRouteDeclares();
    RunPastUnmatched(rt, 0, None, c0);
    assert c0.(allow := []) == c0;
    RunCollects(rt, 1, c0, map[], [], ["GET", "HEAD"]);
    assert [] + ["GET", "HEAD"] == ["GET", "HEAD"];
  }

  /** The `all` route, entered from any context, runs `sethit(1)` for OPTIONS and lets the request go on. */
  lemma AllRouteRuns(rt: Router, q: string, p: string, c: Ctx)
    requires c.ex.verb == "OPTIONS" && AllRoutes(rt, q, p)
    requires MatchRoute(Compile(p), Pathname(c.ex.url)) == Matched(map[]) && Keys(Compile(p)) == []
    ensures var c1 := Entered(rt, 3, c, map[]);
            Run(rt, 3, None, c) ==
              (Exhausted(None), c1.(ex := SetHeader(c1.ex, "x-fn-1", "hit"), log := c1.log + Published(AtEntry(3, 0), Called(Continue))))
  {
    var route := HitAllRoute("x-fn-1");
    assert route.stack[0].verb.None?;
    assert HandlesMethod(route, "OPTIONS") && ChainVerb(route, "OPTIONS") == "OPTIONS";
    var c1 := Entered(rt, 3, c, map[]);
    HitAllChain("x-fn-1", "OPTIONS", 3, c1);
    var c2 := c1.(ex := SetHeader(c1.ex, "x-fn-1", "hit"), log := c1.log + Published(AtEntry(3, 0), Called(Continue)));
    RouteExits(rt, 3, c, map[], None, c2);
    RunEnds(rt, 4, None, c2);
  }

  lemma AllRoutesAnswer(rt: Router, q: string, p: string, ex: Exchange)
    requires q == "/" && p == "/users" && ex == NewExchange("OPTIONS", p)
    requires AllRoutes(rt, q, p)
    ensures var f := Handle(rt, ex);
            f.end == AnsweredOptions && f.ex.status == 200 &&
            "x-fn-1" in f.ex.headers && f.ex.headers["x-fn-1"] == "hit" &&
            "Allow" in f.ex.headers && f.ex.headers["Allow"] == "GET, HEAD, PUT" && f.ex.body == "GET, HEAD, PUT"
  {
    RootAndUsers(q, p);
    UsersPath(p);
    AllRoutesHead(rt, q, p, ex);
    var c := Start(ex).(allow := ["GET", "HEAD"] + ["PUT"]);
    AllRouteRuns(rt, q, p, c);
    var c1 := Entered(rt, 3, c, map[]);
    var c2 := c1.(ex := SetHeader(c1.ex, "x-fn-1", "hit"), log := c1.log + Published(AtEntry(3, 0), Called(Continue)));
    HandleOptions(rt, ex, c2);
    AllowLists();
    AllowTexts();
  }

  /**
   * OPTIONS `/users` with an `all` route on `/users`: the `all` route runs
   * (`x-fn-1` is set) but adds no method; the answer is `GET, HEAD, PUT`.
   */
  lemma AllRoutesNotListed(root: string, users: string)
    requires root == "/" && users == "/users"
    ensures var rt := Router([RouteLayer(root, SawRoute("GET")), RouteLayer(users, SawRoute("GET")),
                              RouteLayer(users, SawRoute("PUT")), RouteLayer(users, HitAllRoute("x-fn-1"))], map[]);
            var f := Handle(rt, NewExchange("OPTIONS", users));
            f.end == AnsweredOptions && f.ex.status == 200 &&
            "x-fn-1" in f.ex.headers && f.ex.headers["x-fn-1"] == "hit" &&
            "Allow" in f.ex.headers && f.ex.headers["Allow"] == "GET, HEAD, PUT" && f.ex.body == "GET, HEAD, PUT"
  {
    var rt := Router([RouteLayer(root, SawRoute("GET")), RouteLayer(users, SawRoute("GET")),
                      RouteLayer(users, SawRoute("PUT")), RouteLayer(users, HitAllRoute("x-fn-1"))], map[]);
    AllRoutesAnswer(rt, root, users, NewExchange("OPTIONS", users));
  }

  /**
   * OPTIONS `/` with only GET `/users`: nothing matches, no method is
   * collected, and `done` is called with no error (the final handler's 404).
   */
  lemma NoMatchingPath(root: string, users: string)
    requires root == "/" && users == "/users"
    ensures var rt := Router([RouteLayer(users, SawRoute("GET"))], map[]);
            Handle(rt, NewExchange("OPTIONS", root)) == Final(NewExchange("OPTIONS", root), [], Done(None))
  {
    var rt := Router([RouteLayer(users, SawRoute("GET"))], map[]);
    RootAndUsers(root, users);
    RootPath(root);
    assert NothingMatchesFrom(rt.layers, 0, Pathname(root));
    NotFound(rt, NewExchange("OPTIONS", root));
  }

  /** The routes of the fifth test: GET at `p`, then an OPTIONS route at `p`. */
  ghost predicate ExplicitRoutes(rt: Router, p: string) {
    |rt.layers| == 2 && rt.layers[0] == RouteLayer(p, SawRoute("GET")) && rt.layers[1] == RouteLayer(p, SawRoute("OPTIONS"))
  }

  lemma ExplicitRoutesRun(rt: Router, p: string, ex: Exchange)
    requires ex.verb == "OPTIONS" && ExplicitRoutes(rt, p)
    requires MatchRoute(Compile(p), Pathname(ex.url)) == Matched(map[]) && Keys(Compile(p)) == []
    ensures var c := Entered(rt, 1, Start(ex).(allow := ["GET", "HEAD"]), map[]);
            Run(rt, 0, None, Start(ex)) ==
              (Halted, c.(ex := Saw(c.ex).ex, log := c.log + Published(AtEntry(1, 0), Returned)))
  {
    ExplicitRoutesFirst(rt, p, ex);
    ExplicitRoutesSecond(rt, p, Start(ex).(allow := ["GET", "HEAD"]));
  }

  /** The GET route is passed over, its methods collected. */
  lemma ExplicitRoutesFirst(rt: Router, p: string, ex: Exchange)
    requires ex.verb == "OPTIONS" && ExplicitRoutes(rt, p)
    requires MatchRoute(Compile(p), Pathname(ex.url)) == Matched(map[])
    ensures Run(rt, 0, None, Start(ex)) == Run(rt, 1, None, Start(ex).(allow := ["GET", "HEAD"]))
  {
    var c0 := Start(ex);
    SawRouteRefuses("GET");
    GetRouteDeclares();
    assert c0.(allow := []) == c0;
    RunCollects(rt, 0, c0, map[], [], ["GET", "HEAD"]);
    assert [] + ["GET", "HEAD"] == ["GET", "HEAD"];
  }

  /** The OPTIONS route answers. */
  lemma ExplicitRoutesSecond(rt: Router, p: string, c1: Ctx)
    requires c1.ex.verb == "OPTIONS" && ExplicitRoutes(rt, p)
    requires MatchRoute(Compile(p), Pathname(c1.ex.url)) == Matched(map[]) && Keys(Compile(p)) == []
    ensures var c := Entered(rt, 1, c1, map[]);
            Run(rt, 1, None, c1) == (Halted, c.(ex := Saw(c.ex).ex, log := c.log + Published(AtEntry(1, 0), Returned)))
  {
    var route := SawRoute("OPTIONS");
    assert route.stack[0].verb == Some("OPTIONS");
    assert HandlesMethod(route, "OPTIONS") && ChainVerb(route, "OPTIONS") == "OPTIONS";
    var c := Entered(rt, 1, c1, map[]);
    SawChain("OPTIONS", 1, c);
    RouteClaims(rt, 1, c1, map[], c.(ex := Saw(c.ex).ex, log := c.log + Published(AtEntry(1, 0), Returned)));
  }

  lemma ExplicitRoutesAnswer(rt: Router, p: string, ex: Exchange)
    requires p == "/users" && ex == NewExchange("OPTIONS", p) && ExplicitRoutes(rt, p)
    ensures var f := Handle(rt, ex);
            f.end == Held && f.ex.status == 200 && f.ex.body == "saw OPTIONS " + p
  {
    UsersPath(p);
    ExplicitRoutesRun(rt, p, ex);
    var c := Entered(rt, 1, Start(ex).(allow := ["GET", "HEAD"]), map[]);
    HandleHeld(rt, ex, c.(ex := Saw(c.ex).ex, log := c.log + Published(AtEntry(1, 0), Returned)));
    SawAlone("OPTIONS", p);
    SawWords();
  }

  /**
   * OPTIONS `/users` with an explicit OPTIONS route: the route answers
   * (`saw OPTIONS /users`) and the automatic answer stays out of the way.
   */
  lemma ExplicitOptionsRoute(users: string)
    requires users == "/users"
    ensures var rt := Router([RouteLayer(users, SawRoute("GET")), RouteLayer(users, SawRoute("OPTIONS"))], map[]);
            var f := Handle(rt, NewExchange("OPTIONS", users));
            f.end == Held && f.ex.status == 200 && f.ex.body == "saw OPTIONS " + users
  {
    var rt := Router([RouteLayer(users, SawRoute("GET")), RouteLayer(users, SawRoute("OPTIONS"))], map[]);
    ExplicitRoutesAnswer(rt, users, NewExchange("OPTIONS", users));
  }

  lemma SentRun(rt: Router, p: string, ex: Exchange)
    requires ex.verb == "OPTIONS" && |rt.layers| == 1 && rt.layers[0] == RouteLayer(p, SawRoute("GET"))
    requires MatchRoute(Compile(p), Pathname(ex.url)) == Matched(map[])
    ensures Run(rt, 0, None, Start(ex)) == (Exhausted(None), Start(ex).(allow := ["GET", "HEAD"]))
  {
    var c0 := Start(ex);
    SawRouteRefuses("GET");
    GetRouteDeclares();
    assert c0.(allow := []) == c0;
    RunCollects(rt, 0, c0, map[], [], ["GET", "HEAD"]);
    assert [] + ["GET", "HEAD"] == ["GET", "HEAD"];
    RunEnds(rt, 1, None, c0.(allow := ["GET", "HEAD"]));
  }

  /**
   * OPTIONS `/users` after the server already wrote the status line: the
   * automatic answer cannot set `Allow`, and `done` receives that error.
   */
  lemma HeadersAlreadySent(users: string)
    requires users == "/users"
    ensures var ex := NewExchange("OPTIONS", users).(status := 200, headersSent := true);
            Handle(Router([RouteLayer(users, SawRoute("GET"))], map[]), ex) == Final(ex, [], Done(Some(HeadersSent)))
  {
    var ex := NewExchange("OPTIONS", users).(status := 200, headersSent := true);
    var rt := Router([RouteLayer(users, SawRoute("GET"))], map[]);
    UsersPath(users);
    SentRun(rt, users, ex);
    AnswerCollected(rt, ex, ["GET", "HEAD"]);
  }
}
