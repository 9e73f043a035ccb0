/**
 * The handlers the router's tests register, and facts about the concrete
 * request targets they send, shared by the scenario proofs.
 */
module Fixtures {
  import opened Wrappers
  import opened Http
  import opened Paths
  import opened Urls
  import opened Methods
  import opened Diagnostics
  import opened Dispatch
  import opened Steps
  import opened Seqs

  /** `saw`: status 200, `Content-Type: text/plain`, body `saw <method> <url>`, and no call to `next`. */
  function Saw(ex: Exchange): (r: Reply)
    ensures r.settled == Returned && r.ex.status == 200 && r.ex.headersSent
    ensures r.ex.headers == ex.headers["Content-Type" := "text/plain"]
    ensures r.ex.body == "saw " + ex.verb + " " + ex.url
    ensures r.ex.url == ex.url && r.ex.params == ex.params && r.ex.locals == ex.locals && r.ex.verb == ex.verb
  {
    Reply(Http.End(SetHeader(ex.(status := 200), "Content-Type", "text/plain"), "saw " + ex.verb + " " + ex.url), Returned)
  }

  /** `sethit(n)`: sets the header `name` to `hit` and calls `next()`. */
  function SetHit(name: string): Exchange -> Reply {
    (ex: Exchange) => Reply(SetHeader(ex, name, "hit"), Called(Continue))
  }

  /** `setsaw(n)`: sets the header `name` to `<method> <url>` and calls `next()`. */
  function SetSaw(name: string): Exchange -> Reply {
    (ex: Exchange) => Reply(SetHeader(ex, name, ex.verb + " " + ex.url), Called(Continue))
  }

  /** An origin-form target without a query is all path. */
  lemma OriginForm(url: string)
    requires url != [] && url[0] == '/' && '?' !in url
    ensures Protohost(url) == [] && Pathname(url) == url && Search(url) == []
  {
    assert Target(url) == url;
  }

  /** An origin-form target with a query: the path runs to the `?`. */
  lemma OriginFormQuery(p: string, q: string)
    requires p != [] && p[0] == '/' && '?' !in p && q != [] && q[0] == '?'
    ensures Protohost(p + q) == [] && Pathname(p + q) == p && Search(p + q) == q
  {
    var url := p + q;
    assert Target(url) == url;
    PathEndAfter(p, q);
    assert PathEnd(q) == 0;
    assert url[..|p|] == p;
  }

  /** A one-segment pattern. */
  lemma CompileOne(a: string)
    requires '/' !in a
    ensures Compile("/" + a) == [CompileSegment(a)]
  {
    assert Relative("/" + a) == a;
    SplitSingle(a);
  }

  /** A two-segment pattern. */
  lemma CompileTwo(a: string, b: string)
    requires '/' !in a && '/' !in b
    ensures Compile("/" + a + "/" + b) == [CompileSegment(a), CompileSegment(b)]
  {
    assert Relative("/" + a + "/" + b) == a + "/" + b;
    Regroup("/" + a, "/", b);
    Regroup("/", a, "/" + b);
    DropFirst("/", a + ("/" + b));
    Regroup(a, "/", b);
    SplitCons(a, b);
    SplitSingle(b);
  }

  /** The segments of a one- and a two-segment path. */
  lemma SegmentsOne(a: string)
    requires '/' !in a
    ensures ("/" + a)[1..] == a && Split(a) == [a]
  {
    SplitSingle(a);
  }

  lemma SegmentsTwo(a: string, b: string)
    requires '/' !in a && '/' !in b
    ensures ("/" + a + "/" + b)[1..] == a + "/" + b && Split(a + "/" + b) == [a, b]
  {
    Regroup("/" + a, "/", b);
    Regroup("/", a, "/" + b);
    DropFirst("/", a + ("/" + b));
    Regroup(a, "/", b);
    SplitCons(a, b);
    SplitSingle(b);
  }

  /** The opening words `saw` writes for the methods the tests send (string arithmetic only, spelled out to keep the scenario proofs cheap). */
  lemma SawWords()
    ensures "saw " + "GET" + " " == "saw GET "
    ensures "saw " + "HEAD" + " " == "saw HEAD "
    ensures "saw " + "OPTIONS" + " " == "saw OPTIONS "
    ensures "saw " + "PUT" + " " == "saw PUT "
  {
  }

  /** `router.<verb>(path, h)`: a route with one handler for one method. */
  function SoleRoute(verb: string, h: Exchange -> Reply): Route {
    Route([RouteEntry(Some(verb), Normal(h))])
  }

  /** `router.<verb>(path, saw)`. */
  function SawRoute(verb: string): Route {
    SoleRoute(verb, Saw)
  }

  /** `router.<verb>(path, sethit(n), saw)`. */
  function HitSawRoute(verb: string, name: string): Route {
    Route([RouteEntry(Some(verb), Normal(SetHit(name))), RouteEntry(Some(verb), Normal(Saw))])
  }

  /** `router.all(path, sethit(n))`. */
  function HitAllRoute(name: string): Route {
    Route([RouteEntry(None, Normal(SetHit(name)))])
  }

  /** The chain of `SawRoute(verb)` for its own method: `saw` answers and holds the request. */
  lemma SawChain(verb: string, li: nat, c: Ctx)
    ensures RouteRun(SawRoute(verb), verb, li, 0, None, c) ==
              (Claimed, c.(ex := Saw(c.ex).ex, log := c.log + Published(AtEntry(li, 0), Returned)))
  {
    var route := SawRoute(verb);
    RunsEntry(route, verb, li, 0, None, c);
    InvokesNormal(route.stack[0].handler, AtEntry(li, 0), c);
  }

  /** The chain of `HitSawRoute(verb, name)` for its own method: the header is set, then `saw` answers. */
  lemma HitSawChain(verb: string, name: string, li: nat, c: Ctx)
    ensures var c1 := c.(ex := SetHeader(c.ex, name, "hit"), log := c.log + Published(AtEntry(li, 0), Called(Continue)));
            RouteRun(HitSawRoute(verb, name), verb, li, 0, None, c) ==
              (Claimed, c1.(ex := Saw(c1.ex).ex, log := c1.log + Published(AtEntry(li, 1), Returned)))
  {
    var route := HitSawRoute(verb, name);
    RunsEntry(route, verb, li, 0, None, c);
    InvokesNormal(route.stack[0].handler, AtEntry(li, 0), c);
    var c1 := c.(ex := SetHeader(c.ex, name, "hit"), log := c.log + Published(AtEntry(li, 0), Called(Continue)));
    RunsEntry(route, verb, li, 1, None, c1);
    InvokesNormal(route.stack[1].handler, AtEntry(li, 1), c1);
  }

  /** The chain of `HitAllRoute(name)` for any method: the header is set and the route is left with no error. */
  lemma HitAllChain(name: string, chain: string, li: nat, c: Ctx)
    ensures RouteRun(HitAllRoute(name), chain, li, 0, None, c) ==
              (Exit(None), c.(ex := SetHeader(c.ex, name, "hit"), log := c.log + Published(AtEntry(li, 0), Called(Continue))))
  {
    var route := HitAllRoute(name);
    RunsEntry(route, chain, li, 0, None, c);
    InvokesNormal(route.stack[0].handler, AtEntry(li, 0), c);
    var c1 := c.(ex := SetHeader(c.ex, name, "hit"), log := c.log + Published(AtEntry(li, 0), Called(Continue)));
    RouteEnds(route, chain, li, 1, None, c1);
  }

  /** What `sethit(n)` then `saw` leave on a fresh request. */
  lemma HitThenSaw(verb: string, url: string, name: string)
    ensures var ex := Saw(SetHeader(NewExchange(verb, url).(params := map[]), name, "hit")).ex;
            ex.status == 200 && ex.headers == map[name := "hit", "Content-Type" := "text/plain"] &&
            ex.body == "saw " + verb + " " + url
  {
  }

  /** What `saw` leaves on a fresh request. */
  lemma SawAlone(verb: string, url: string)
    ensures var ex := Saw(NewExchange(verb, url).(params := map[])).ex;
            ex.status == 200 && ex.headers == map["Content-Type" := "text/plain"] &&
            ex.body == "saw " + verb + " " + url
  {
  }

  /** The names one- and two-segment patterns capture. */
  lemma KeysOne(s1: Segment)
    ensures Keys([s1]) == if s1.Capture? then [s1.name] else []
  {
    assert [s1][1..] == [];
  }

  lemma KeysTwo(s1: Segment, s2: Segment)
    ensures Keys([s1, s2]) == (if s1.Capture? then [s1.name] else []) + (if s2.Capture? then [s2.name] else [])
  {
    assert [s1, s2][1..] == [s2];
    KeysOne(s2);
  }

  /** Matching `/<lit>` against a one-segment path `/<a>`. */
  lemma MatchLiteral(lit: string, url: string, a: string)
    requires url != [] && url[0] == '/' && Split(url[1..]) == [a]
    ensures MatchRoute([Literal(lit)], url) == if a == lit then Matched(map[]) else NoMatch
  {
    var pattern := [Literal(lit)];
    if a == lit {
      assert Fits(pattern, [a]);
      assert DecodeCaptures(pattern, [a], 0, map[]) == DecodeCaptures(pattern, [a], 1, map[]);
    } else {
      assert [a][0] != pattern[0].text;
    }
  }

  /** The request path `/users` matches the pattern `/users`, which captures nothing. */
  lemma UsersPath(users: string)
    requires users == "/users"
    ensures Pathname(users) == users
    ensures MatchRoute(Compile(users), users) == Matched(map[])
    ensures Keys(Compile(users)) == []
  {
    OriginForm(users);
    assert users == "/" + "users";
    CompileOne("users");
    SegmentsOne("users");
    assert Compile(users) == [Literal("users")];
    MatchLiteral("users", users, "users");
    KeysOne(Literal("users"));
  }

  /** The error the tests' failing functions throw or reject with: `new Error('boom')`. */
  const Boom: Error := Error("Error", "boom", None)

  /** The chain of a one-handler route whose handler answers: it claims the request. */
  lemma SoleChainAnswers(verb: string, h: Exchange -> Reply, li: nat, c: Ctx)
    requires h(c.ex).settled == Returned
    ensures RouteRun(SoleRoute(verb, h), verb, li, 0, None, c) ==
              (Claimed, c.(ex := h(c.ex).ex, log := c.log + Published(AtEntry(li, 0), Returned)))
  {
    RunsEntry(SoleRoute(verb, h), verb, li, 0, None, c);
    InvokesNormal(Normal(h), AtEntry(li, 0), c);
  }

  /** The chain of a one-handler route whose handler calls `next()`: the route is left with no error. */
  lemma SoleChainContinues(verb: string, h: Exchange -> Reply, li: nat, c: Ctx)
    requires h(c.ex).settled == Called(Continue)
    ensures RouteRun(SoleRoute(verb, h), verb, li, 0, None, c) ==
              (Exit(None), c.(ex := h(c.ex).ex, log := c.log + Published(AtEntry(li, 0), Called(Continue))))
  {
    var route := SoleRoute(verb, h);
    RunsEntry(route, verb, li, 0, None, c);
    InvokesNormal(Normal(h), AtEntry(li, 0), c);
    RouteEnds(route, verb, li, 1, None, c.(ex := h(c.ex).ex, log := c.log + Published(AtEntry(li, 0), Called(Continue))));
  }

  /** A two-segment pattern `/<a>/<b>`. */
  lemma PatternTwo(p: string, a: string, b: string)
    requires p == "/" + a + "/" + b && '/' !in a && '/' !in b
    ensures Compile(p) == [CompileSegment(a), CompileSegment(b)]
  {
    CompileTwo(a, b);
  }

  /** The patterns the parameter tests register: `/user/:id` and `/user/:user`. */
  lemma UserCapturePattern(p: string)
    requires p == "/user/:id" || p == "/user/:user"
    ensures p == "/user/:id" ==> Compile(p) == [Literal("user"), Capture("id")] && Keys(Compile(p)) == ["id"]
    ensures p == "/user/:user" ==> Compile(p) == [Literal("user"), Capture("user")] && Keys(Compile(p)) == ["user"]
  {
    if p == "/user/:id" {
      PatternTwo(p, "user", ":id");
      assert CompileSegment(":id") == Capture("id");
      KeysTwo(Literal("user"), Capture("id"));
    } else {
      PatternTwo(p, "user", ":user");
      assert CompileSegment(":user") == Capture("user");
      KeysTwo(Literal("user"), Capture("user"));
    }
  }

  lemma UserBobPattern(p: string)
    requires p == "/:user/bob"
    ensures Compile(p) == [Capture("user"), Literal("bob")] && Keys(Compile(p)) == ["user"]
  {
    PatternTwo(p, ":user", "bob");
    assert CompileSegment(":user") == Capture("user");
    KeysTwo(Capture("user"), Literal("bob"));
  }

  lemma UserNewPattern(p: string)
    requires p == "/user/new"
    ensures Compile(p) == [Literal("user"), Literal("new")] && Keys(Compile(p)) == []
  {
    PatternTwo(p, "user", "new");
    KeysTwo(Literal("user"), Literal("new"));
  }

  /** A two-segment origin-form request target without a query. */
  lemma RequestTwo(url: string, a: string, b: string)
    requires url == "/" + a + "/" + b && '/' !in a && '/' !in b && '?' !in url
    ensures Pathname(url) == url && Split(url[1..]) == [a, b]
  {
    OriginForm(url);
    SegmentsTwo(a, b);
  }

  /** Matching `/<lit>/:<name>` against `/<a>/<b>`. */
  lemma MatchLiteralCapture(lit: string, name: string, url: string, a: string, b: string)
    requires url != [] && url[0] == '/' && Split(url[1..]) == [a, b]
    ensures MatchRoute([Literal(lit), Capture(name)], url) ==
              if a != lit || b == [] then NoMatch
              else match DecodeParam(b)
                   case Ok(v) => Matched(map[name := v])
                   case Err(e) => DecodeFailed(e)
  {
    var pattern := [Literal(lit), Capture(name)];
    if a == lit && b != [] {
      assert Fits(pattern, [a, b]);
      var tail := DecodeCaptures(pattern, [a, b], 1, map[]);
      assert DecodeCaptures(pattern, [a, b], 0, map[]) == tail;
      match DecodeParam(b)
      case Ok(v) =>
        assert tail == DecodeCaptures(pattern, [a, b], 2, map[name := v]);
      case Err(e) =>
    } else {
      assert !Fits(pattern, [a, b]) by {
        if a != lit { assert [a, b][0] != pattern[0].text; } else { assert [a, b][1] == []; }
      }
    }
  }

  /** Matching `/:<name>/<lit>` against `/<a>/<b>`. */
  lemma MatchCaptureLiteral(name: string, lit: string, url: string, a: string, b: string)
    requires url != [] && url[0] == '/' && Split(url[1..]) == [a, b]
    ensures MatchRoute([Capture(name), Literal(lit)], url) ==
              if b != lit || a == [] then NoMatch
              else match DecodeParam(a)
                   case Ok(v) => Matched(map[name := v])
                   case Err(e) => DecodeFailed(e)
  {
    var pattern := [Capture(name), Literal(lit)];
    if b == lit && a != [] {
      assert Fits(pattern, [a, b]);
      match DecodeParam(a)
      case Ok(v) =>
        assert DecodeCaptures(pattern, [a, b], 0, map[]) == DecodeCaptures(pattern, [a, b], 1, map[name := v]);
        assert DecodeCaptures(pattern, [a, b], 1, map[name := v]) == DecodeCaptures(pattern, [a, b], 2, map[name := v]);
      case Err(e) =>
    } else {
      assert !Fits(pattern, [a, b]) by {
        if b != lit { assert [a, b][1] != pattern[1].text; } else { assert [a, b][0] == []; }
      }
    }
  }

  /** Matching `/<l1>/<l2>` against `/<a>/<b>`. */
  lemma MatchLiterals(l1: string, l2: string, url: string, a: string, b: string)
    requires url != [] && url[0] == '/' && Split(url[1..]) == [a, b]
    ensures MatchRoute([Literal(l1), Literal(l2)], url) == if a == l1 && b == l2 then Matched(map[]) else NoMatch
  {
    var pattern := [Literal(l1), Literal(l2)];
    if a == l1 && b == l2 {
      assert Fits(pattern, [a, b]);
      assert DecodeCaptures(pattern, [a, b], 0, map[]) == DecodeCaptures(pattern, [a, b], 2, map[]);
    } else {
      assert !Fits(pattern, [a, b]) by {
        if a != l1 { assert [a, b][0] != pattern[0].text; } else { assert [a, b][1] != pattern[1].text; }
      }
    }
  }

  /** A value without `%` is captured as it is. */
  lemma PlainValue(v: string)
    requires '%' !in v
    ensures DecodeParam(v) == Ok(v)
  {
    Percent.DecodeVerbatim(v);
  }

  /** A lone escape decodes to its character. */
  lemma EscapeOnly(e: string)
    requires Percent.EscapeAt(e, 0) && |e| == 3
    ensures Percent.Decode(e) == Some([Percent.Escaped(e, 0)])
  {
    assert e[3..] == [] && Percent.Decode(e[3..]) == Some([]);
    assert [Percent.Escaped(e, 0)] + [] == [Percent.Escaped(e, 0)];
  }

  /** One step of decoding a value piece by piece. */
  lemma DecodePiece(a: string, b: string, da: string, db: string, d: string)
    requires Percent.WellEscaped(a) && Percent.Decode(a) == Some(da) && Percent.Decode(b) == Some(db) && da + db == d
    ensures Percent.Decode(a + b) == Some(d)
  {
    Percent.DecodeConcat(a, b);
  }

  lemma PlainPiece(a: string)
    requires '%' !in a
    ensures Percent.WellEscaped(a) && Percent.Decode(a) == Some(a)
  {
    Percent.DecodeVerbatim(a);
    Percent.DecodeSucceedsIff(a);
  }

  /** The two escapes of the quoted value: `%22` is `"` and `%2F` is `/`. */
  lemma QuoteAndSlashPieces(q: string, sl: string)
    requires q == "%22" && sl == "%2F"
    ensures Percent.WellEscaped(q) && Percent.Decode(q) == Some("\"")
    ensures Percent.WellEscaped(sl) && Percent.Decode(sl) == Some("/")
  {
    assert Percent.EscapeAt(q, 0) && Percent.Escaped(q, 0) == '"';
    EscapeOnly(q);
    Percent.DecodeSucceedsIff(q);
    assert Percent.EscapeAt(sl, 0) && Percent.Escaped(sl, 0) == '/';
    EscapeOnly(sl);
    Percent.DecodeSucceedsIff(sl);
  }

  lemma QuotedTail(sl: string, r: string, q: string)
    requires sl == "%2F" && r == "robert" && q == "%22"
    ensures Percent.Decode(sl + (r + q)) == Some("/robert\"")
  {
    QuoteAndSlashPieces(q, sl);
    PlainPiece(r);
    DecodePiece(r, q, r, "\"", "robert\"");
    DecodePiece(sl, r + q, "/", "robert\"", "/robert\"");
  }

  /** `%22bob%2Frobert%22` decodes to `"bob/robert"`; the `%2F` becomes a `/` inside the one value. */
  lemma QuotedMiddle(b: string, w: string)
    requires b == "bob" && Percent.Decode(w) == Some("/robert\"")
    ensures Percent.Decode(b + w) == Some("bob/robert\"")
  {
    PlainPiece(b);
    DecodePiece(b, w, b, "/robert\"", "bob/robert\"");
  }

  /** How the quoted test value is put together (string arithmetic only, spelled out to keep the decoding proof cheap). */
  lemma QuotedPieces(v: string)
    requires v == "%22bob%2Frobert%22"
    ensures v == "%22" + ("bob" + ("%2F" + ("robert" + "%22")))
  {
  }

  lemma QuotedValue(v: string)
    requires v == "%22bob%2Frobert%22"
    ensures DecodeParam(v) == Ok("\"bob/robert\"")
  {
    QuotedPieces(v);
    var q, b, sl, r := "%22", "bob", "%2F", "robert";
    QuotedTail(sl, r, q);
    QuotedMiddle(b, sl + (r + q));
    QuoteAndSlashPieces(q, sl);
    DecodePiece(q, b + (sl + (r + q)), "\"", "bob/robert\"", "\"bob/robert\"");
  }

  /** `%bob` is a malformed escape: `o` is no hexadecimal digit. */
  lemma MalformedValue(v: string)
    requires v == "%bob"
    ensures DecodeParam(v) == Err(DecodeError(v))
  {
    assert !Percent.EscapeAt(v, 0);
    assert !Percent.WellEscaped(v);
  }

  /** A one-handler route for a method other than HEAD handles that method, and no method but it (and HEAD when it is GET). */
  lemma SoleRouteMethods(verb: string, h: Exchange -> Reply, other: string)
    requires verb != "HEAD"
    ensures HandlesMethod(SoleRoute(verb, h), verb) && ChainVerb(SoleRoute(verb, h), verb) == verb
    ensures other != verb && other != "HEAD" ==> !HandlesMethod(SoleRoute(verb, h), other)
  {
    var route := SoleRoute(verb, h);
    assert route.stack[0].verb == Some(verb);
    if other != verb && other != "HEAD" {
      assert !HasVerb(route, other) && !HasAll(route);
    }
  }

  /** A request for `/user/<v>`, with `v` a single segment and no query. */
  lemma UserRequest(url: string, v: string)
    requires url == "/user/" + v && '/' !in v && '?' !in v
    ensures url != [] && url[0] == '/' && Pathname(url) == url && Split(url[1..]) == ["user", v]
  {
    assert url == "/" + "user" + "/" + v;
    RequestTwo(url, "user", v);
  }

  /** Shape facts about the malformed test value (string arithmetic only, spelled out to keep the scenario proofs cheap). */
  lemma MalformedPieces(v: string)
    requires v == "%bob"
    ensures v != [] && '/' !in v && '?' !in v
  {
  }

  /** Layer `i` of the router is `l`. */
  ghost predicate LayerIs(rt: Router, i: nat, l: Layer) {
    i < |rt.layers| && rt.layers[i] == l
  }
}
