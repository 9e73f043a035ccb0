/**
 * A route's method table: which of its layers run for a request method (HEAD
 * falling back to GET, section 9.3.2 of RFC 9110), which methods it declares,
 * and the `Allow` list and response of the automatic OPTIONS responder
 * (sections 9.3.7 and 10.2.1 of RFC 9110).
 */
module Methods {
  import opened Wrappers
  import opened Http
  import opened Seqs

  /** One layer of a route: the method it was registered for (None for `all`) and its handler. */
  datatype RouteEntry = RouteEntry(verb: Option<string>, handler: Handler)

  /** A route: the layers registered on one path, in registration order. */
  datatype Route = Route(stack: seq<RouteEntry>)

  /** A layer for `verb` was registered on the route by name. */
  predicate HasVerb(route: Route, verb: string) {
    exists e :: 0 <= e < |route.stack| && route.stack[e].verb == Some(verb)
  }

  /** An `all` layer was registered on the route. */
  predicate HasAll(route: Route) {
    exists e :: 0 <= e < |route.stack| && route.stack[e].verb.None?
  }

  /** The method whose layers a request for `verb` runs: HEAD runs GET's when the route has no HEAD layer. */
  function ChainVerb(route: Route, verb: string): (v: string)
    ensures verb != "HEAD" ==> v == verb
    ensures verb == "HEAD" ==> (v == "HEAD" <==> HasVerb(route, "HEAD"))
    ensures verb == "HEAD" && !HasVerb(route, "HEAD") ==> v == "GET"
  {
    if verb == "HEAD" && !HasVerb(route, "HEAD") then "GET" else verb
  }

  /** A layer takes part in a request whose chain method is `chain`: `all` layers always do. */
  predicate Selects(entry: RouteEntry, chain: string) {
    entry.verb.None? || entry.verb == Some(chain)
  }

  /** The route answers requests for `verb` (`_handlesMethod`). */
  predicate HandlesMethod(route: Route, verb: string) {
    HasAll(route) || HasVerb(route, ChainVerb(route, verb))
  }

  /** The positions of the layers a request for `verb` runs through, in order. */
  function ChainFrom(route: Route, chain: string, e: nat): (c: seq<nat>)
    requires e <= |route.stack|
    ensures forall k :: 0 <= k < |c| ==> e <= c[k] < |route.stack| && Selects(route.stack[c[k]], chain)
    ensures forall i :: e <= i < |route.stack| && Selects(route.stack[i], chain) ==> i in c
    ensures forall k, l :: 0 <= k < l < |c| ==> c[k] < c[l]
    decreases |route.stack| - e
  {
    if e == |route.stack| then []
    else (if Selects(route.stack[e], chain) then [e] else []) + ChainFrom(route, chain, e + 1)
  }

  function Chain(route: Route, verb: string): seq<nat> {
    ChainFrom(route, ChainVerb(route, verb), 0)
  }

  /**
   * Without a HEAD layer, a HEAD request is handled by the route exactly when a
   * GET request is, and runs the same layers, in the same order.
   */
  lemma HeadFallsBackToGet(route: Route)
    requires !HasVerb(route, "HEAD")
    ensures HandlesMethod(route, "HEAD") <==> HandlesMethod(route, "GET")
    ensures Chain(route, "HEAD") == Chain(route, "GET")
  {
  }

  /** With a HEAD layer, a HEAD request runs only the HEAD and `all` layers. */
  lemma ExplicitHeadChain(route: Route)
    requires HasVerb(route, "HEAD")
    ensures HandlesMethod(route, "HEAD")
    ensures forall k :: 0 <= k < |Chain(route, "HEAD")| ==>
              route.stack[Chain(route, "HEAD")[k]].verb in {None, Some("HEAD")}
  {
  }

  /** The methods registered by name, in registration order, repeats included; `all` layers are left out. */
  function Verbs(stack: seq<RouteEntry>): (vs: seq<string>)
    ensures forall v :: v in vs <==> exists e :: 0 <= e < |stack| && stack[e].verb == Some(v)
  {
    if stack == [] then []
    else
      var last := stack[|stack| - 1];
      var rest := Verbs(stack[..|stack| - 1]);
      assert forall e :: 0 <= e < |stack| - 1 ==> stack[..|stack| - 1][e] == stack[e];
      if last.verb.Some? then rest + [last.verb.value] else rest
  }

  /** The positions of the layers registered by name, in order. */
  function NamedPositions(stack: seq<RouteEntry>): (ps: seq<nat>)
    ensures forall k :: 0 <= k < |ps| ==> ps[k] < |stack| && stack[ps[k]].verb.Some?
    ensures forall e :: 0 <= e < |stack| && stack[e].verb.Some? ==> e in ps
    ensures forall k, l :: 0 <= k < l < |ps| ==> ps[k] < ps[l]
  {
    if stack == [] then []
    else
      var rest := NamedPositions(stack[..|stack| - 1]);
      if stack[|stack| - 1].verb.Some? then rest + [|stack| - 1] else rest
  }

  /**
   * The declared methods follow the stack: the k-th of them is the method of the
   * k-th layer registered by name, so their order is registration order.
   */
  lemma {:induction false} VerbsInOrder(stack: seq<RouteEntry>)
    ensures |Verbs(stack)| == |NamedPositions(stack)|
    ensures forall k :: 0 <= k < |Verbs(stack)| ==>
              stack[NamedPositions(stack)[k]].verb == Some(Verbs(stack)[k])
  {
    if stack != [] {
      var init := stack[..|stack| - 1];
      VerbsInOrder(init);
      assert forall e :: 0 <= e < |init| ==> init[e] == stack[e];
    }
  }

  /** The sequence holds no element twice. */
  predicate Distinct(xs: seq<string>) {
    forall i, j :: 0 <= i < j < |xs| ==> xs[i] != xs[j]
  }

  /** The first occurrence of every element, in order. */
  function Dedup(xs: seq<string>): (d: seq<string>)
    ensures forall x :: x in d <==> x in xs
    ensures Distinct(d)
    ensures |d| <= |xs|
  {
    if xs == [] then []
    else
      var d := Dedup(xs[..|xs| - 1]);
      assert forall x :: x in xs <==> x in xs[..|xs| - 1] || x == xs[|xs| - 1];
      if xs[|xs| - 1] in d then d else d + [xs[|xs| - 1]]
  }

  /** The first position of `x` in `xs`. */
  function FirstIndex(xs: seq<string>, x: string): (i: nat)
    requires x in xs
    ensures i < |xs| && xs[i] == x && x !in xs[..i]
  {
    if xs[0] == x then 0
    else
      var i := FirstIndex(xs[1..], x);
      assert xs[..i + 1] == [xs[0]] + xs[1..][..i];
      i + 1
  }

  /** Deduplicating a prefix gives a prefix of the deduplicated whole. */
  lemma {:induction false} DedupPrefix(xs: seq<string>, n: nat)
    requires n <= |xs|
    ensures Dedup(xs[..n]) <= Dedup(xs)
    decreases |xs| - n
  {
    if n < |xs| {
      DedupPrefix(xs, n + 1);
      assert xs[..n + 1][..n] == xs[..n];
    } else {
      assert xs[..n] == xs;
    }
  }

  /** Where the first occurrence of `x` lands after deduplication. */
  lemma DedupAtFirst(xs: seq<string>, x: string)
    requires x in xs
    ensures Dedup(xs[..FirstIndex(xs, x) + 1]) == Dedup(xs[..FirstIndex(xs, x)]) + [x]
    ensures |Dedup(xs[..FirstIndex(xs, x)])| < |Dedup(xs)|
    ensures Dedup(xs)[|Dedup(xs[..FirstIndex(xs, x)])|] == x
  {
    var g := FirstIndex(xs, x);
    assert xs[..g + 1][..g] == xs[..g];
    DedupPrefix(xs, g + 1);
  }

  /** In a list without repeats, the position holding `x` is its first position. */
  lemma FirstIndexAt(d: seq<string>, k: nat, x: string)
    requires Distinct(d) && k < |d| && d[k] == x
    ensures x in d && FirstIndex(d, x) == k
  {
  }

  /** Deduplication keeps the order of first occurrences. */
  lemma DedupKeepsOrder(xs: seq<string>, x: string, y: string)
    requires x in xs && y in xs
    requires FirstIndex(xs, x) < FirstIndex(xs, y)
    ensures FirstIndex(Dedup(xs), x) < FirstIndex(Dedup(xs), y)
  {
    var gx, gy := FirstIndex(xs, x), FirstIndex(xs, y);
    DedupAtFirst(xs, x);
    DedupAtFirst(xs, y);
    DedupPrefixShorter(xs, gx + 1, gy);
    FirstIndexAt(Dedup(xs), |Dedup(xs[..gx])|, x);
    FirstIndexAt(Dedup(xs), |Dedup(xs[..gy])|, y);
  }

  /** A shorter prefix deduplicates to no more elements. */
  lemma DedupPrefixShorter(xs: seq<string>, m: nat, n: nat)
    requires m <= n <= |xs|
    ensures |Dedup(xs[..m])| <= |Dedup(xs[..n])|
  {
    DedupPrefix(xs[..n], m);
    assert xs[..n][..m] == xs[..m];
  }

  /** When `y` first appears right after `x` first does, deduplication keeps them adjacent. */
  lemma DedupAdjacent(xs: seq<string>, x: string, y: string)
    requires x in xs && y in xs
    requires FirstIndex(xs, y) == FirstIndex(xs, x) + 1
    ensures y in Dedup(xs)
    ensures FirstIndex(Dedup(xs), y) == FirstIndex(Dedup(xs), x) + 1
  {
    DedupAtFirst(xs, x);
    DedupAtFirst(xs, y);
    var px := |Dedup(xs[..FirstIndex(xs, x)])|;
    FirstIndexAt(Dedup(xs), px, x);
    FirstIndexAt(Dedup(xs), px + 1, y);
  }

  /** HEAD right after GET, when GET is declared and HEAD is not. */
  function WithHead(vs: seq<string>): (r: seq<string>)
  {
    if "GET" in vs && "HEAD" !in vs then
      var g := FirstIndex(vs, "GET");
      vs[..g + 1] + ["HEAD"] + vs[g + 1..]
    else vs
  }

  /**
   * The methods a route declares (`_methods`): those registered by name, once
   * each, in first-registration order, with HEAD right after GET when GET is
   * registered and HEAD is not.
   */
  function Allowed(route: Route): seq<string> {
    WithHead(Dedup(Verbs(route.stack)))
  }

  /** Every GET is followed by HEAD, and every HEAD follows a GET. */
  predicate HeadFollowsGet(xs: seq<string>) {
    && (forall i :: 0 <= i < |xs| && xs[i] == "GET" ==> i + 1 < |xs| && xs[i + 1] == "HEAD")
    && (forall i :: 0 <= i < |xs| && xs[i] == "HEAD" ==> i > 0 && xs[i - 1] == "GET")
  }

  /** Where the elements of `d` land once `x` is put in right after position `g`. */
  lemma InsertedAt(d: seq<string>, g: nat, x: string, r: seq<string>)
    requires g < |d| && r == d[..g + 1] + [x] + d[g + 1..]
    ensures |r| == |d| + 1 && r[g + 1] == x
    ensures forall i :: 0 <= i <= g ==> r[i] == d[i]
    ensures forall i :: g + 1 < i < |r| ==> r[i] == d[i - 1]
  {
  }

  /** Putting HEAD right after the only GET of a list without HEAD and without repeats. */
  lemma InsertHead(d: seq<string>, g: nat)
    requires Distinct(d) && g < |d| && d[g] == "GET" && "HEAD" !in d
    ensures Distinct(d[..g + 1] + ["HEAD"] + d[g + 1..])
    ensures forall v :: v in d[..g + 1] + ["HEAD"] + d[g + 1..] <==> v in d || v == "HEAD"
    ensures HeadFollowsGet(d[..g + 1] + ["HEAD"] + d[g + 1..])
  {
    var r := d[..g + 1] + ["HEAD"] + d[g + 1..];
    InsertedAt(d, g, "HEAD", r);
    forall i, j | 0 <= i < j < |r| ensures r[i] != r[j] {
      if i <= g && j > g + 1 { assert r[j] == d[j - 1]; }
    }
    forall v ensures v in r <==> v in d || v == "HEAD" {
      if v in d {
        var k :| 0 <= k < |d| && d[k] == v;
        if k <= g { assert r[k] == v; } else { assert r[k + 1] == v; }
      }
    }
  }

  /**
   * A route's declared methods: no repeats; exactly its named methods plus
   * HEAD when it has GET; and, when HEAD is not named, HEAD right after GET.
   */
  lemma AllowedShape(route: Route)
    ensures Distinct(Allowed(route))
    ensures forall v :: v in Allowed(route) <==> HasVerb(route, v) || (v == "HEAD" && HasVerb(route, "GET"))
    ensures !HasVerb(route, "HEAD") ==> HeadFollowsGet(Allowed(route))
  {
    var d := Dedup(Verbs(route.stack));
    if "GET" in d && "HEAD" !in d {
      InsertHead(d, FirstIndex(d, "GET"));
    }
  }

  lemma HeadFollowsGetConcat(xs: seq<string>, ys: seq<string>)
    requires HeadFollowsGet(xs) && HeadFollowsGet(ys)
    ensures HeadFollowsGet(xs + ys)
  {
    var zs := xs + ys;
    forall i | 0 <= i < |zs| && zs[i] == "GET" ensures i + 1 < |zs| && zs[i + 1] == "HEAD" {
      if i < |xs| { assert xs[i] == "GET"; } else { assert ys[i - |xs|] == "GET"; }
    }
    forall i | 0 <= i < |zs| && zs[i] == "HEAD" ensures i > 0 && zs[i - 1] == "GET" {
      if i < |xs| { assert xs[i] == "HEAD"; } else { assert ys[i - |xs|] == "HEAD"; }
    }
  }

  /**
   * When every GET is directly followed by HEAD and every HEAD by a GET,
   * the deduplicated list still has HEAD directly after GET.
   */
  lemma DedupHeadAfterGet(xs: seq<string>)
    requires HeadFollowsGet(xs) && "GET" in xs
    ensures "HEAD" in Dedup(xs)
    ensures FirstIndex(Dedup(xs), "HEAD") == FirstIndex(Dedup(xs), "GET") + 1
  {
    HeadAfterFirstGet(xs);
    DedupAdjacent(xs, "GET", "HEAD");
  }

  /** When every GET is followed by HEAD and every HEAD follows a GET, the first HEAD follows the first GET. */
  lemma HeadAfterFirstGet(xs: seq<string>)
    requires HeadFollowsGet(xs) && "GET" in xs
    ensures "HEAD" in xs && FirstIndex(xs, "HEAD") == FirstIndex(xs, "GET") + 1
  {
    var g := FirstIndex(xs, "GET");
    assert xs[g + 1] == "HEAD";
  }

  /** The methods collected from every route the OPTIONS request passed over, in layer order. */
  function Collected(routes: seq<Route>): (vs: seq<string>)
  {
    if routes == [] then [] else Collected(routes[..|routes| - 1]) + Allowed(routes[|routes| - 1])
  }

  /** Collecting one more route appends its methods. */
  lemma CollectedSnoc(rs: seq<Route>, r: Route)
    ensures Collected(rs + [r]) == Collected(rs) + Allowed(r)
  {
    assert (rs + [r])[..|rs|] == rs;
  }

  /** Collecting route by route: the first route's methods come first. */
  lemma {:induction false} CollectedCons(r: Route, rs: seq<Route>)
    ensures Collected([r] + rs) == Allowed(r) + Collected(rs)
    decreases |rs|
  {
    if rs == [] {
      CollectedSnoc([], r);
      assert [r] + rs == [] + [r];
    } else {
      var init, last := rs[..|rs| - 1], rs[|rs| - 1];
      assert rs == init + [last];
      assert [r] + rs == ([r] + init) + [last];
      calc {
        Collected([r] + rs);
        == { CollectedSnoc([r] + init, last); }
        Collected([r] + init) + Allowed(last);
        == { CollectedCons(r, init); }
        (Allowed(r) + Collected(init)) + Allowed(last);
        == { Regroup(Allowed(r), Collected(init), Allowed(last)); }
        Allowed(r) + (Collected(init) + Allowed(last));
        == { CollectedSnoc(init, last); }
        Allowed(r) + Collected(rs);
      }
    }
  }

  /**
   * The `Allow` list: each collected method once, in the order first declared.
   * When no route names HEAD and one names GET, HEAD comes right after GET.
   */
  function AllowList(collected: seq<string>): (allow: seq<string>)
    ensures Distinct(allow)
    ensures forall v :: v in allow <==> v in collected
  {
    Dedup(collected)
  }

  lemma {:induction false} CollectedHeadFollowsGet(routes: seq<Route>)
    requires forall k :: 0 <= k < |routes| ==> !HasVerb(routes[k], "HEAD")
    ensures HeadFollowsGet(Collected(routes))
    decreases |routes|
  {
    if routes != [] {
      CollectedHeadFollowsGet(routes[..|routes| - 1]);
      AllowedShape(routes[|routes| - 1]);
      HeadFollowsGetConcat(Collected(routes[..|routes| - 1]), Allowed(routes[|routes| - 1]));
    }
  }

  /** Across routes without a HEAD layer, HEAD lands immediately after GET in `Allow`. */
  lemma AllowHeadAfterGet(routes: seq<Route>)
    requires forall k :: 0 <= k < |routes| ==> !HasVerb(routes[k], "HEAD")
    requires "GET" in Collected(routes)
    ensures "HEAD" in AllowList(Collected(routes))
    ensures FirstIndex(AllowList(Collected(routes)), "HEAD") == FirstIndex(AllowList(Collected(routes)), "GET") + 1
  {
    CollectedHeadFollowsGet(routes);
    DedupHeadAfterGet(Collected(routes));
  }

  /** `list.join(', ')`. */
  function JoinComma(xs: seq<string>): string {
    if xs == [] then "" else if |xs| == 1 then xs[0] else xs[0] + ", " + JoinComma(xs[1..])
  }

  /** The error `res.setHeader` raises once the headers have gone out. */
  const HeadersSent: Error := Error("Error", "Cannot set headers after they are sent to the client", None)

  /**
   * The automatic OPTIONS response: status 200, `Allow` set to the list, and
   * the list as the body; writing fails when the headers have already been sent.
   */
  function SendOptions(ex: Exchange, allow: string): (r: Result<Exchange, Error>)
    ensures r.Err? <==> ex.headersSent
    ensures r.Err? ==> r.error == HeadersSent
    ensures r.Ok? ==> r.value.status == 200 && "Allow" in r.value.headers &&
                      r.value.headers["Allow"] == allow && r.value.body == allow && r.value.headersSent
    ensures r.Ok? ==> r.value.params == ex.params && r.value.locals == ex.locals && r.value.url == ex.url &&
                      forall h :: h in ex.headers && h != "Allow" ==> h in r.value.headers && r.value.headers[h] == ex.headers[h]
  {
    if ex.headersSent then Err(HeadersSent)
    else Ok(End(SetHeader(ex.(status := 200), "Allow", allow), allow))
  }
}
