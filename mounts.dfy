/**
 * The fully-qualified-URL tests of the router: a handler mounted at a prefix
 * sees `req.url` with the prefix cut from its path part alone, the scheme,
 * authority and query kept, and every later layer sees the original target
 * again.
 */
module MountScenarios {
  import opened Wrappers
  import opened Http
  import opened Paths
  import opened Urls
  import opened Diagnostics
  import opened Dispatch
  import opened Steps
  import opened Fixtures
  import opened Seqs

  /** `router.use(fn)`: the root mount. */
  const Root: string := "/"

  /**
   * `router.use(saw)` alone: whatever the target, absolute-form included,
   * the handler sees it unchanged (`http://example.com/foo` gives
   * `saw GET http://example.com/foo`).
   */
  lemma RootMountKeepsTarget(url: string)
    ensures var f := Handle(Router([Mount(Root, Normal(Saw))], map[]), NewExchange("GET", url));
            f.end == Held && f.ex.status == 200 && f.ex.body == "saw GET " + url &&
            f.ex.headers == map["Content-Type" := "text/plain"]
  {
    var rt := Router([Mount(Root, Normal(Saw))], map[]);
    var ex := NewExchange("GET", url);
    RunRootMount(rt, 0, Start(ex));
    var reply := Saw(ex.(params := map[]));
    HandleHeld(rt, ex, Start(ex).(ex := reply.ex, log := Published(AtLayer(0, Root), Returned)));
    SawWords();
  }

  /** The mounted `setsaw(1)`: it records the stripped target in `x-saw-1` and calls `next()`; the target is then restored. */
  lemma SetSawMount(rt: Router, prefix: string, url: string) returns (c1: Ctx)
    requires |rt.layers| >= 1 && LayerIs(rt, 0, Mount(prefix, Normal(SetSaw("x-saw-1"))))
    requires prefix != [] && prefix != Root && MountMatches(prefix, Pathname(url))
    ensures Run(rt, 0, None, Start(NewExchange("GET", url))) == Run(rt, 1, None, c1)
    ensures c1.ex == NewExchange("GET", url).(headers := map["x-saw-1" := "GET " + Strip(url, prefix).url])
  {
    var ex := NewExchange("GET", url);
    var c := Start(ex);
    var s := Strip(url, prefix);
    RunPrefixMount(rt, 0, c);
    var reply := SetSaw("x-saw-1")(ex.(url := s.url, params := map[]));
    SetSawSees(url, prefix);
    c1 := c.(ex := reply.ex.(url := Restore(reply.ex.url, Protohost(url), prefix, s.slashAdded)),
             log := Published(AtLayer(0, prefix), Called(Continue)));
  }

  /** What the mounted `setsaw(1)` sees and leaves: the stripped target recorded, and the original target once restored. */
  lemma SetSawSees(url: string, prefix: string)
    requires prefix != [] && prefix != Root && MountMatches(prefix, Pathname(url))
    ensures var ex := NewExchange("GET", url);
            var s := Strip(url, prefix);
            var reply := SetSaw("x-saw-1")(ex.(url := s.url, params := map[]));
            reply.settled == Called(Continue) &&
            reply.ex.(url := Restore(reply.ex.url, Protohost(url), prefix, s.slashAdded)) ==
              ex.(headers := map["x-saw-1" := "GET " + s.url])
  {
    var ex := NewExchange("GET", url);
    var s := Strip(url, prefix);
    var seen := ex.(url := s.url, params := map[]);
    var reply := SetSaw("x-saw-1")(seen);
    assert "GET" + " " + s.url == "GET " + s.url;
    assert reply == Reply(SetHeader(seen, "x-saw-1", "GET " + s.url), Called(Continue));
    StripRestore(url, prefix);
  }

  /**
   * `router.use(prefix, setsaw(1))` then `router.use(saw)`, for a target whose
   * path the prefix matches: the mounted handler records the stripped target
   * in `x-saw-1`, and `saw`, running after it, sees the original target.
   */
  lemma MountStripsThenRestores(prefix: string, url: string)
    requires prefix != [] && prefix != Root && MountMatches(prefix, Pathname(url))
    ensures var f := Handle(Router([Mount(prefix, Normal(SetSaw("x-saw-1"))), Mount(Root, Normal(Saw))], map[]), NewExchange("GET", url));
            f.end == Held && f.ex.status == 200 && f.ex.body == "saw GET " + url &&
            f.ex.headers == map["x-saw-1" := "GET " + Strip(url, prefix).url, "Content-Type" := "text/plain"]
  {
    var rt := Router([Mount(prefix, Normal(SetSaw("x-saw-1"))), Mount(Root, Normal(Saw))], map[]);
    var ex := NewExchange("GET", url);
    var c1 := SetSawMount(rt, prefix, url);
    RunRootMount(rt, 1, c1);
    var reply := Saw(c1.ex.(params := map[]));
    HandleHeld(rt, ex, c1.(ex := reply.ex, log := c1.log + Published(AtLayer(1, Root), Returned)));
    SawWords();
  }

  /** The first `/` after `://` closes the authority of `scheme://host/...`. */
  lemma AbsoluteForm(scheme: string, host: string, path: string)
    requires scheme != [] && ':' !in scheme && '/' !in scheme && '?' !in scheme
    requires '/' !in host && '?' !in host && path != [] && path[0] == '/' && '?' !in path
    ensures Protohost(scheme + "://" + host + path) == scheme + "://" + host
    ensures Pathname(scheme + "://" + host + path) == path
    ensures Search(scheme + "://" + host + path) == []
  {
    var url := scheme + "://" + host + path;
    var n := |scheme|;
    var j := n + 3 + |host|;
    assert '?' !in url by {
      forall k | 0 <= k < |url| ensures url[k] != '?' {
        if k < n { assert url[k] == scheme[k]; }
        else if k < n + 3 { }
        else if k < j { assert url[k] == host[k - n - 3]; }
        else { assert url[k] == path[k - j]; }
      }
    }
    assert PathEnd(url) == |url|;
    assert url[..PathEnd(url)] == url;
    assert SchemeAt(url, n);
    forall g | 0 <= g < n ensures !SchemeAt(url, g) {
      assert url[g] == scheme[g];
    }
    assert IndexOfScheme(url, 0) == Some(n) by {
      var r := IndexOfScheme(url, 0);
      assert r.Some? by { assert SchemeAt(url, n); }
    }
    assert IndexOf(url, '/', n + 3) == Some(j) by {
      assert url[j] == path[0];
      forall k | n + 3 <= k < j ensures url[k] != '/' {
        assert url[k] == host[k - n - 3];
      }
    }
    assert url[..j] == scheme + "://" + host;
    assert Target(url) == url[j..] == path;
  }

  /** A prefix followed by a path that starts with `/` matches as a mount. */
  lemma PrefixMatches(prefix: string, rest: string)
    requires rest != [] && rest[0] == '/'
    ensures MountMatches(prefix, prefix + rest) && (prefix + rest)[|prefix|..] == rest && prefix + rest != prefix
  {
    assert (prefix + rest)[|prefix|] == rest[0];
  }

  /** `http://example.com/blog/post/1` in its pieces. */
  lemma BlogTarget(url: string, scheme: string, host: string, prefix: string, rest: string)
    requires url == "http://example.com/blog/post/1" && scheme == "http" && host == "example.com"
    requires prefix == "/blog" && rest == "/post/1"
    ensures url == scheme + "://" + host + (prefix + rest)
  {
  }

  /** Shape facts about the pieces of the blog test's target (string arithmetic only, spelled out to keep the scenario proofs cheap). */
  lemma BlogPieces(scheme: string, host: string, prefix: string, rest: string)
    requires scheme == "http" && host == "example.com" && prefix == "/blog" && rest == "/post/1"
    ensures scheme != [] && ':' !in scheme && '/' !in scheme && '?' !in scheme && '/' !in host && '?' !in host
    ensures prefix != [] && prefix[0] == '/' && '?' !in prefix && prefix != Root && rest != [] && rest[0] == '/' && '?' !in rest
  {
  }

  lemma BlogStripped(scheme: string, host: string, rest: string)
    requires scheme == "http" && host == "example.com" && rest == "/post/1"
    ensures scheme + "://" + host + rest == "http://example.com/post/1"
  {
  }

  /** The stripped target is the protohost, the rest of the path and the query. */
  lemma StrippedTarget(url: string, prefix: string)
    requires prefix != [] && MountMatches(prefix, Pathname(url))
    ensures Strip(url, prefix).url ==
              Protohost(url) + (if Pathname(url) == prefix then "/" else Pathname(url)[|prefix|..]) + Search(url)
  {
    StripRewritesPathOnly(url, prefix);
    Decompose(Strip(url, prefix).url);
  }

  /**
   * GET `http://example.com/blog/post/1` through `use('/blog', setsaw(1))` and
   * `use(saw)`: the mounted handler sees `http://example.com/post/1`, scheme and
   * authority kept, and `saw` sees the original target.
   */
  lemma StripsAbsoluteTarget(url: string, prefix: string)
    requires url == "http://example.com/blog/post/1" && prefix == "/blog"
    ensures var f := Handle(Router([Mount(prefix, Normal(SetSaw("x-saw-1"))), Mount(Root, Normal(Saw))], map[]), NewExchange("GET", url));
            f.end == Held && f.ex.body == "saw GET " + url &&
            f.ex.headers == map["x-saw-1" := "GET " + "http://example.com/post/1", "Content-Type" := "text/plain"]
  {
    var scheme, host, rest := "http", "example.com", "/post/1";
    BlogTarget(url, scheme, host, prefix, rest);
    BlogPieces(scheme, host, prefix, rest);
    BlogStripped(scheme, host, rest);
    assert '?' !in prefix + rest;
    AbsoluteForm(scheme, host, prefix + rest);
    PrefixMatches(prefix, rest);
    StrippedTarget(url, prefix);
    MountStripsThenRestores(prefix, url);
  }

  /** Stripping `p` from `p` followed by a query leaves `/` and the query. */
  lemma QueryStripped(p: string, q: string)
    requires p != [] && p[0] == '/' && '?' !in p && q != [] && q[0] == '?'
    ensures MountMatches(p, Pathname(p + q)) && Strip(p + q, p).url == "/" + q
  {
    OriginFormQuery(p, q);
    StrippedTarget(p + q, p);
    assert [] + "/" + q == "/" + q;
  }

  /**
   * Mounted at an origin-form path `p`, a target `p` followed by a query `q`:
   * the handler sees `/` and the same query, whatever the query holds, and
   * later layers see the original target.
   */
  lemma QueryNeverRewritten(p: string, q: string)
    requires p != [] && p[0] == '/' && '?' !in p && p != Root && q != [] && q[0] == '?'
    ensures var f := Handle(Router([Mount(p, Normal(SetSaw("x-saw-1"))), Mount(Root, Normal(Saw))], map[]), NewExchange("GET", p + q));
            f.end == Held && f.ex.body == "saw GET " + p + q &&
            f.ex.headers == map["x-saw-1" := "GET " + "/" + q, "Content-Type" := "text/plain"]
  {
    QueryStripped(p, q);
    MountStripsThenRestores(p, p + q);
    Regroup("saw GET ", p, q);
    Regroup("GET ", "/", q);
  }

  /**
   * Mounted at an origin-form path `p`, a target `p` followed by more path
   * `rest`, a `://` in it or not: the handler sees `rest`, and later layers
   * see the original target.
   */
  lemma PathOnlyRewritten(p: string, rest: string)
    requires p != [] && p[0] == '/' && '?' !in p && p != Root && rest != [] && rest[0] == '/' && '?' !in rest
    ensures var f := Handle(Router([Mount(p, Normal(SetSaw("x-saw-1"))), Mount(Root, Normal(Saw))], map[]), NewExchange("GET", p + rest));
            f.end == Held && f.ex.body == "saw GET " + p + rest &&
            f.ex.headers == map["x-saw-1" := "GET " + rest, "Content-Type" := "text/plain"]
  {
    assert '?' !in p + rest;
    OriginForm(p + rest);
    PrefixMatches(p, rest);
    StrippedTarget(p + rest, p);
    MountStripsThenRestores(p, p + rest);
    Regroup("saw GET ", p, rest);
    assert [] + rest + [] == rest;
  }

  /**
   * GET `/proxy?url=http://example.com/blog/post/1` through
   * `use('/proxy', setsaw(1))` and `use(saw)`: the absolute URL in the query is
   * left alone, the mounted handler sees `/?url=...`, and `saw` sees the
   * original target.
   */
  lemma KeepsQueryTarget(p: string, q: string)
    requires p == "/proxy" && q == "?url=http://example.com/blog/post/1"
    ensures var f := Handle(Router([Mount(p, Normal(SetSaw("x-saw-1"))), Mount(Root, Normal(Saw))], map[]), NewExchange("GET", p + q));
            f.end == Held && f.ex.body == "saw GET " + p + q &&
            f.ex.headers == map["x-saw-1" := "GET " + "/" + q, "Content-Type" := "text/plain"]
  {
    QueryPieces(p, q);
    QueryNeverRewritten(p, q);
  }

  /**
   * GET `/proxy/http://example.com/blog/post/1` through the same layers: the
   * absolute URL inside the path is ordinary path, so the mounted handler sees
   * `/http://example.com/blog/post/1`, and `saw` sees the original target.
   */
  lemma KeepsAbsoluteUrlInPath(p: string, rest: string)
    requires p == "/proxy" && rest == "/http://example.com/blog/post/1"
    ensures var f := Handle(Router([Mount(p, Normal(SetSaw("x-saw-1"))), Mount(Root, Normal(Saw))], map[]), NewExchange("GET", p + rest));
            f.end == Held && f.ex.body == "saw GET " + p + rest &&
            f.ex.headers == map["x-saw-1" := "GET " + rest, "Content-Type" := "text/plain"]
  {
    PathPieces(p, rest);
    PathOnlyRewritten(p, rest);
  }

  /** Shape facts about the pieces of the query test's target (string arithmetic only, spelled out to keep the scenario proofs cheap). */
  lemma QueryPieces(p: string, q: string)
    requires p == "/proxy" && q == "?url=http://example.com/blog/post/1"
    ensures p != [] && p[0] == '/' && '?' !in p && p != Root && q != [] && q[0] == '?'
  {
  }

  /** Shape facts about the pieces of the absolute-URL-in-path test's target (string arithmetic only, spelled out to keep the scenario proofs cheap). */
  lemma PathPieces(p: string, rest: string)
    requires p == "/proxy" && rest == "/http://example.com/blog/post/1"
    ensures p != [] && p[0] == '/' && '?' !in p && p != Root && rest != [] && rest[0] == '/' && '?' !in rest
  {
  }
}
