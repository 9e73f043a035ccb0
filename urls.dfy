/**
 * `req.url` as the router reads and rewrites it: an origin-form target
 * (`/blog/post/1?x=1`) or an absolute-form target (`http://example.com/blog/post/1`,
 * section 3.2.2 of RFC 9112). The scheme and authority ("protohost") are split
 * off first, the path runs to the first `?`, and the query is the rest. Mounting
 * a handler at a prefix strips the prefix from the path alone; the original
 * target is restored before the next layer runs.
 */
module Urls {
  import opened Wrappers
  import opened Seqs
  import Paths

  /** The first index at or after `from` holding `c`. */
  function IndexOf(s: string, c: char, from: nat): (r: Option<nat>)
    ensures r.Some? ==> from <= r.value < |s| && s[r.value] == c
    ensures r.Some? ==> forall k :: from <= k < r.value ==> s[k] != c
    ensures r.None? ==> forall k :: from <= k < |s| ==> s[k] != c
    decreases |s| - from
  {
    if from >= |s| then None else if s[from] == c then Some(from) else IndexOf(s, c, from + 1)
  }

  /** `://` starts at position `g`. */
  predicate SchemeAt(s: string, g: nat) {
    g + 3 <= |s| && s[g] == ':' && s[g + 1] == '/' && s[g + 2] == '/'
  }

  /** The first position at or after `from` where `://` starts. */
  function IndexOfScheme(s: string, from: nat): (r: Option<nat>)
    ensures r.Some? ==> from <= r.value && SchemeAt(s, r.value)
    ensures r.Some? ==> forall g :: from <= g < r.value ==> !SchemeAt(s, g)
    ensures r.None? ==> forall g :: from <= g < |s| ==> !SchemeAt(s, g)
    decreases |s| - from
  {
    if from + 3 > |s| then None
    else if SchemeAt(s, from) then Some(from)
    else IndexOfScheme(s, from + 1)
  }

  /** Where the path ends: the first `?`, or the end. */
  function PathEnd(s: string): (q: nat)
    ensures q <= |s|
    ensures forall k :: 0 <= k < q ==> s[k] != '?'
    ensures q < |s| ==> s[q] == '?'
  {
    match IndexOf(s, '?', 0)
    case Some(q) => q
    case None => |s|
  }

  /**
   * The scheme and authority of an absolute-form target, up to the first `/`
   * after `://`; empty for an origin-form target, for a target whose `://`
   * lies in the query, and for one with no `/` after the authority.
   */
  function Protohost(url: string): (ph: string)
    ensures ph <= url
    ensures ph != [] ==> url[0] != '/' && |ph| < |url| && url[|ph|] == '/'
  {
    if url == [] || url[0] == '/' then []
    else
      match IndexOfScheme(url[..PathEnd(url)], 0)
      case None => []
      case Some(f) =>
        match IndexOf(url, '/', f + 3)
        case Some(j) => url[..j]
        case None => []
  }

  /** The target after the protohost: path and query. */
  function Target(url: string): string {
    url[|Protohost(url)|..]
  }

  /** The path the router matches layers against. */
  function Pathname(url: string): string {
    Target(url)[..PathEnd(Target(url))]
  }

  /** The query, with its `?`, or empty. */
  function Search(url: string): string {
    Target(url)[PathEnd(Target(url))..]
  }

  /** A string is its first `n` characters, then the next `q`, then the rest. */
  lemma Reassemble(u: string, n: nat, q: nat)
    requires n + q <= |u|
    ensures u == u[..n] + u[n..][..q] + u[n..][q..]
  {
    assert u[n..] == u[n..][..q] + u[n..][q..];
    assert u == u[..n] + u[n..];
  }

  /** Every target is its protohost, its path and its query, in that order. */
  lemma Decompose(url: string)
    ensures url == Protohost(url) + Pathname(url) + Search(url)
    ensures '?' !in Pathname(url)
    ensures Search(url) == [] || Search(url)[0] == '?'
  {
    var ph := Protohost(url);
    var t := Target(url);
    var q := PathEnd(t);
    assert ph == url[..|ph|];
    Reassemble(url, |ph|, q);
    assert forall k :: 0 <= k < q ==> t[..q][k] != '?';
  }

  /** The rewritten target and whether a `/` had to be put in front of the rest. */
  datatype Stripped = Stripped(url: string, slashAdded: bool)

  /**
   * `req.url` as a handler mounted at `removed` sees it: the prefix is cut from
   * the path, the protohost and the query are kept, and the rest of the path
   * always starts with `/`.
   */
  function Strip(url: string, removed: string): (r: Stripped)
    requires removed != [] && Paths.MountMatches(removed, Pathname(url))
  {
    StripParts(url, removed);
    var ph := Protohost(url);
    var tail := url[|ph| + |removed|..];
    if tail != [] && tail[0] == '/' then Stripped(ph + tail, false)
    else Stripped(ph + "/" + tail, true)
  }

  /** A prefix `r` of what follows position `n` splits the string around it. */
  lemma CutAfter(u: string, n: nat, r: string)
    requires n <= |u| && r <= u[n..]
    ensures n + |r| <= |u|
    ensures u[n..] == r + u[n + |r|..]
    ensures u == u[..n] + r + u[n + |r|..]
  {
    assert u[n..] == u[n..][..|r|] + u[n..][|r|..];
    assert u[n..][|r|..] == u[n + |r|..];
    assert u == u[..n] + u[n..];
  }

  /** The target splits into protohost, removed prefix and the rest; the prefix holds no `?`. */
  lemma StripParts(url: string, removed: string)
    requires removed != [] && Paths.MountMatches(removed, Pathname(url))
    ensures |Protohost(url)| + |removed| <= |url|
    ensures url == Protohost(url) + removed + url[|Protohost(url)| + |removed|..]
    ensures Target(url) == removed + url[|Protohost(url)| + |removed|..]
    ensures '?' !in removed
  {
    Decompose(url);
    var ph := Protohost(url);
    var t := Target(url);
    var pn := Pathname(url);
    assert removed <= pn && pn <= t;
    assert removed == t[..|removed|];
    assert removed <= t;
    assert ph == url[..|ph|];
    CutAfter(url, |ph|, removed);
    assert forall k :: 0 <= k < |removed| ==> removed[k] == pn[k];
  }

  /** `s.slice(n)`. */
  function Drop(s: string, n: nat): string {
    if n <= |s| then s[n..] else []
  }

  /**
   * What the dispatch loop does before the next layer: take out the `/` it
   * added, and put the protohost and the removed prefix back in front of
   * whatever follows the protohost in the handler's `req.url`.
   */
  function Restore(url: string, ph: string, removed: string, slashAdded: bool): string {
    var u := if slashAdded && |ph| < |url| then url[..|ph|] + url[|ph| + 1..] else url;
    ph + removed + Drop(u, |ph|)
  }

  lemma PathEndAfter(x: string, y: string)
    requires '?' !in x
    ensures PathEnd(x + y) == |x| + PathEnd(y)
  {
    var q := PathEnd(x + y);
    var p := PathEnd(y);
    assert forall k :: 0 <= k < |x| ==> (x + y)[k] == x[k];
    assert forall k :: 0 <= k < |y| ==> (x + y)[|x| + k] == y[k];
  }

  /** Behind a prefix without `?`, the path part and the query part are found after the prefix. */
  lemma PartsAfter(x: string, y: string)
    requires '?' !in x
    ensures (x + y)[..PathEnd(x + y)] == x + y[..PathEnd(y)]
    ensures (x + y)[PathEnd(x + y)..] == y[PathEnd(y)..]
  {
    PathEndAfter(x, y);
    var e := PathEnd(y);
    assert (x + y)[..|x| + e] == x + y[..e];
    assert (x + y)[|x| + e..] == y[e..];
  }

  /** A protohost followed by a `/` is found again as the protohost. */
  lemma ProtohostOfRewrite(url: string, w: string)
    requires Protohost(url) != []
    requires w != [] && w[0] == '/'
    ensures Protohost(Protohost(url) + w) == Protohost(url)
  {
    var ph := Protohost(url);
    var n := ph + w;
    var j := |ph|;
    var p := PathEnd(url);
    var f := IndexOfScheme(url[..p], 0).value;
    assert IndexOf(url, '/', f + 3) == Some(j);
    assert n[j] == '/';
    assert forall k :: 0 <= k < j ==> n[k] == url[k];
    var p' := PathEnd(n);
    if p < j {
      assert n[p] == url[p];
      assert p' == p;
      assert n[..p'] == url[..p];
    } else {
      assert forall k :: 0 <= k < j ==> n[k] != '?';
      assert p' >= j;
    }
    var s := n[..p'];
    assert SchemeAt(s, f);
    forall g | 0 <= g < f ensures !SchemeAt(s, g) {
      assert !SchemeAt(url[..p], g);
    }
    assert IndexOfScheme(s, 0) == Some(f);
    assert IndexOf(n, '/', f + 3) == Some(j);
  }

  /** The protohost of a rewritten target is the original one. */
  lemma StripKeepsProtohost(url: string, removed: string)
    requires removed != [] && Paths.MountMatches(removed, Pathname(url))
    ensures Protohost(Strip(url, removed).url) == Protohost(url)
  {
    var ph := Protohost(url);
    var n := Strip(url, removed).url;
    var w := n[|ph|..];
    assert n == ph + w;
    assert w != [] && w[0] == '/';
    if ph != [] { ProtohostOfRewrite(url, w); }
  }

  /**
   * A mounted handler sees the path with the prefix cut off (`/` when nothing
   * is left), the same protohost and the same query.
   */
  lemma StripRewritesPathOnly(url: string, removed: string)
    requires removed != [] && Paths.MountMatches(removed, Pathname(url))
    ensures Protohost(Strip(url, removed).url) == Protohost(url)
    ensures Pathname(Strip(url, removed).url) ==
              if Pathname(url) == removed then "/" else Pathname(url)[|removed|..]
    ensures Pathname(Strip(url, removed).url)[0] == '/'
    ensures Search(Strip(url, removed).url) == Search(url)
  {
    StripParts(url, removed);
    StripKeepsProtohost(url, removed);
    var tail := url[|Protohost(url)| + |removed|..];
    if tail != [] && tail[0] == '/' {
      StripKeepingSlash(url, removed);
    } else {
      StripAddingSlash(url, removed);
    }
  }

  /** The rest behind the mount path starts with `/`: the handler's path is that rest. */
  lemma StripKeepingSlash(url: string, removed: string)
    requires removed != [] && Paths.MountMatches(removed, Pathname(url))
    requires var tail := url[|Protohost(url)| + |removed|..]; tail != [] && tail[0] == '/'
    ensures Pathname(url) != removed
    ensures Pathname(Strip(url, removed).url) == Pathname(url)[|removed|..]
    ensures Pathname(Strip(url, removed).url)[0] == '/'
    ensures Search(Strip(url, removed).url) == Search(url)
  {
    StripParts(url, removed);
    StripKeepsProtohost(url, removed);
    var ph := Protohost(url);
    var tail := url[|ph| + |removed|..];
    var n := Strip(url, removed).url;
    PartsBehind(url, ph, removed + tail);
    PartsAfter(removed, tail);
    assert n == ph + tail;
    PartsBehind(n, ph, tail);
    KeptSlash(removed, tail);
  }

  /** The mount path is the whole path: the handler's path is `/`. */
  lemma StripAddingSlash(url: string, removed: string)
    requires removed != [] && Paths.MountMatches(removed, Pathname(url))
    requires var tail := url[|Protohost(url)| + |removed|..]; tail == [] || tail[0] != '/'
    ensures Pathname(url) == removed
    ensures Pathname(Strip(url, removed).url) == "/"
    ensures Search(Strip(url, removed).url) == Search(url)
  {
    StripParts(url, removed);
    StripKeepsProtohost(url, removed);
    var ph := Protohost(url);
    var tail := url[|ph| + |removed|..];
    var n := Strip(url, removed).url;
    PartsBehind(url, ph, removed + tail);
    PartsAfter(removed, tail);
    assert n == ph + "/" + tail;
    Regroup(ph, "/", tail);
    PartsBehind(n, ph, "/" + tail);
    PartsAfter("/", tail);
    AddedSlash(removed, tail);
  }

  /** Path and query of a target are those of what follows its protohost. */
  lemma PartsBehind(url: string, ph: string, w: string)
    requires Protohost(url) == ph && url == ph + w
    ensures Target(url) == w
    ensures Pathname(url) == w[..PathEnd(w)] && Search(url) == w[PathEnd(w)..]
  {
    assert url[|ph|..] == w;
  }

  /** The rest after the mount path starts with `/`: it is the new path, as it was after the prefix. */
  lemma KeptSlash(removed: string, tail: string)
    requires removed != [] && tail != [] && tail[0] == '/'
    ensures var pn := removed + tail[..PathEnd(tail)];
            pn != removed && pn[|removed|..] == tail[..PathEnd(tail)] && tail[..PathEnd(tail)][0] == '/'
  {
    assert PathEnd(tail) > 0;
    assert (removed + tail[..PathEnd(tail)])[|removed|..] == tail[..PathEnd(tail)];
  }

  /** The rest after the mount path does not start with `/`: the path was the mount path alone. */
  lemma AddedSlash(removed: string, tail: string)
    requires Paths.MountMatches(removed, removed + tail[..PathEnd(tail)])
    requires removed != [] && (tail == [] || tail[0] != '/')
    ensures removed + tail[..PathEnd(tail)] == removed
    ensures ("/" + tail[..PathEnd(tail)]) == "/"
  {
    var x := tail[..PathEnd(tail)];
    assert x == [];
  }

  /** Dropping a protohost-long prefix. */
  lemma DropFront(ph: string, tail: string)
    ensures Drop(ph + tail, |ph|) == tail
  {
    assert (ph + tail)[|ph|..] == tail;
  }

  /** Taking out the `/` put behind the protohost. */
  lemma TakeOutSlash(ph: string, tail: string)
    ensures (ph + "/" + tail)[..|ph|] + (ph + "/" + tail)[|ph| + 1..] == ph + tail
  {
    var w := ph + "/" + tail;
    assert w[..|ph|] == ph;
    assert w[|ph| + 1..] == tail;
  }

  /** Restoring after the mounted handler gives back the original target exactly. */
  lemma StripRestore(url: string, removed: string)
    requires removed != [] && Paths.MountMatches(removed, Pathname(url))
    ensures Restore(Strip(url, removed).url, Protohost(url), removed, Strip(url, removed).slashAdded) == url
  {
    StripParts(url, removed);
    var ph := Protohost(url);
    var tail := url[|ph| + |removed|..];
    var s := Strip(url, removed);
    if tail != [] && tail[0] == '/' {
      assert s == Stripped(ph + tail, false);
      DropFront(ph, tail);
    } else {
      assert s == Stripped(ph + "/" + tail, true);
      TakeOutSlash(ph, tail);
      DropFront(ph, tail);
    }
  }
}
