/**
 * Path matching: a route pattern made of literal segments and `:name`
 * segments matched exactly against a request path, the captured values
 * percent-decoded, and the segment-boundary prefix test of a mount path.
 */
module Paths {
  import opened Wrappers
  import opened Http
  import Percent

  /** The text before the first `/`. */
  function TakeSegment(s: string): (h: string)
    ensures |h| <= |s| && h == s[..|h|] && '/' !in h
    ensures |h| < |s| ==> s[|h|] == '/'
  {
    if s == [] || s[0] == '/' then [] else [s[0]] + TakeSegment(s[1..])
  }

  /** `s.split('/')`. */
  function Split(s: string): (parts: seq<string>)
    ensures |parts| >= 1
    ensures forall k :: 0 <= k < |parts| ==> '/' !in parts[k]
    decreases |s|
  {
    var h := TakeSegment(s);
    if |h| == |s| then [h] else [h] + Split(s[|h| + 1..])
  }

  /** `parts.join('/')`. */
  function JoinSlash(parts: seq<string>): (s: string)
    requires |parts| >= 1
  {
    if |parts| == 1 then parts[0] else parts[0] + "/" + JoinSlash(parts[1..])
  }

  lemma TakeSegmentOf(t: string, u: string)
    requires '/' !in t
    requires u == [] || u[0] == '/'
    ensures TakeSegment(t + u) == t
  {
    var h := TakeSegment(t + u);
    assert (t + u)[..|t|] == t;
  }

  /** Splitting a text whose first segment is `t`. */
  lemma SplitCons(t: string, u: string)
    requires '/' !in t
    ensures Split(t + "/" + u) == [t] + Split(u)
  {
    TakeSegmentOf(t, "/" + u);
    assert t + "/" + u == t + ("/" + u);
    assert (t + "/" + u)[|t| + 1..] == u;
  }

  /** A text without `/` is one segment. */
  lemma SplitSingle(t: string)
    requires '/' !in t
    ensures Split(t) == [t]
  {
    TakeSegmentOf(t, []);
    assert t + [] == t;
  }

  /** Splitting undoes joining. */
  lemma {:induction false} SplitJoin(parts: seq<string>)
    requires |parts| >= 1
    requires forall k :: 0 <= k < |parts| ==> '/' !in parts[k]
    ensures Split(JoinSlash(parts)) == parts
    decreases |parts|
  {
    if |parts| == 1 {
      SplitSingle(parts[0]);
    } else {
      SplitJoin(parts[1..]);
      SplitCons(parts[0], JoinSlash(parts[1..]));
      assert [parts[0]] + parts[1..] == parts;
    }
  }

  /** Joining undoes splitting. */
  lemma {:induction false} JoinSplit(s: string)
    ensures JoinSlash(Split(s)) == s
    decreases |s|
  {
    var h := TakeSegment(s);
    if |h| < |s| {
      var u := s[|h| + 1..];
      JoinSplit(u);
      assert Split(s) == [h] + Split(u);
      assert ([h] + Split(u))[1..] == Split(u);
      assert s == h + "/" + u;
    }
  }

  datatype Segment = Literal(text: string) | Capture(name: string)

  function CompileSegment(seg: string): (p: Segment)
    ensures p.Capture? <==> (|seg| > 0 && seg[0] == ':')
    ensures p.Capture? ==> p.name == seg[1..]
    ensures p.Literal? ==> p.text == seg
  {
    if |seg| > 0 && seg[0] == ':' then Capture(seg[1..]) else Literal(seg)
  }

  /** The path with its leading `/` removed. */
  function Relative(path: string): string {
    if path != [] && path[0] == '/' then path[1..] else path
  }

  /** A route path such as `/user/:id` as a sequence of segments. */
  function Compile(path: string): (pattern: seq<Segment>)
    ensures |pattern| == |Split(Relative(path))|
    ensures forall k :: 0 <= k < |pattern| ==> pattern[k] == CompileSegment(Split(Relative(path))[k])
  {
    var parts := Split(Relative(path));
    seq(|parts|, k requires 0 <= k < |parts| => CompileSegment(parts[k]))
  }

  /** A path segment written `:name`. */
  predicate IsCaptureSegment(seg: string) {
    |seg| > 0 && seg[0] == ':'
  }

  /** The names written in a path's `:name` segments, without the `:`, in order. */
  function CaptureNames(parts: seq<string>): (names: seq<string>)
    decreases |parts|
  {
    if parts == [] then []
    else (if IsCaptureSegment(parts[0]) then [parts[0][1..]] else []) + CaptureNames(parts[1..])
  }

  /** The keys of a compiled path are the names of its `:name` segments, in order. */
  lemma CompileKeys(path: string)
    ensures Keys(Compile(path)) == CaptureNames(Split(Relative(path)))
  {
    CompiledKeys(Split(Relative(path)), Compile(path));
  }

  lemma {:induction false} CompiledKeys(parts: seq<string>, pattern: seq<Segment>)
    requires |pattern| == |parts|
    requires forall k :: 0 <= k < |pattern| ==> pattern[k] == CompileSegment(parts[k])
    ensures Keys(pattern) == CaptureNames(parts)
    decreases |parts|
  {
    if parts != [] {
      CompiledKeys(parts[1..], pattern[1..]);
    }
  }

  /** Decoding the captures of a pattern with no capture from `k` on binds nothing more. */
  lemma {:induction false} DecodeLiterals(pattern: seq<Segment>, segs: seq<string>, k: nat, acc: map<string, string>)
    requires |pattern| == |segs| && k <= |pattern|
    requires forall j :: k <= j < |pattern| ==> pattern[j].Literal?
    ensures DecodeCaptures(pattern, segs, k, acc) == Matched(acc)
    decreases |pattern| - k
  {
    if k < |pattern| {
      DecodeLiterals(pattern, segs, k + 1, acc);
    }
  }

  /**
   * A route path with no `:name` segment matches exactly its own path, read
   * with a leading `/`, and captures nothing; every other request path misses.
   */
  lemma LiteralPathMatchesOnlyItself(path: string, q: string)
    requires forall k :: 0 <= k < |Split(Relative(path))| ==> !IsCaptureSegment(Split(Relative(path))[k])
    ensures MatchRoute(Compile(path), q) == if q == "/" + Relative(path) then Matched(map[]) else NoMatch
  {
    var parts, pattern := Split(Relative(path)), Compile(path);
    assert forall k :: 0 <= k < |pattern| ==> pattern[k] == Literal(parts[k]);
    if q != [] && q[0] == '/' {
      var segs := Split(q[1..]);
      if Fits(pattern, segs) {
        assert segs == parts;
        JoinSplit(q[1..]);
        JoinSplit(Relative(path));
        assert q == [q[0]] + q[1..];
        DecodeLiterals(pattern, segs, 0, map[]);
      }
    }
  }

  /** The names a pattern captures, in declaration order. */
  function Keys(pattern: seq<Segment>): (keys: seq<string>)
    ensures forall n :: n in keys <==> Capture(n) in pattern
    decreases |pattern|
  {
    if pattern == [] then []
    else (if pattern[0].Capture? then [pattern[0].name] else []) + Keys(pattern[1..])
  }

  /** The error a malformed escape in a captured value turns into: a URIError with status 400. */
  function DecodeError(raw: string): (e: Error)
    ensures e.name == "URIError" && e.status == Some(400)
    ensures e.message == "Failed to decode param '" + raw + "'"
  {
    Error("URIError", "Failed to decode param '" + raw + "'", Some(400))
  }

  /** Decoding one captured value; the empty value is passed through as it is. */
  function DecodeParam(raw: string): (r: Result<string, Error>)
    ensures r.Err? <==> !Percent.WellEscaped(raw)
    ensures r.Err? ==> r.error == DecodeError(raw)
    ensures r.Ok? ==> Percent.Decode(raw) == Some(r.value)
  {
    Percent.DecodeSucceedsIff(raw);
    if raw == [] then Ok(raw)
    else match Percent.Decode(raw)
      case Some(text) => Ok(text)
      case None => Err(DecodeError(raw))
  }

  /** The segments of a path fit a pattern: same number, literals equal, captures non-empty. */
  predicate Fits(pattern: seq<Segment>, segs: seq<string>) {
    && |pattern| == |segs|
    && forall k :: 0 <= k < |pattern| ==>
         if pattern[k].Literal? then segs[k] == pattern[k].text else segs[k] != []
  }

  datatype RouteMatch = NoMatch | Matched(params: map<string, string>) | DecodeFailed(error: Error)

  /** Decoding the captured values from position `k` on, in order; the first failure wins. */
  function DecodeCaptures(pattern: seq<Segment>, segs: seq<string>, k: nat, acc: map<string, string>): (r: RouteMatch)
    requires |pattern| == |segs| && k <= |pattern|
    decreases |pattern| - k
  {
    if k == |pattern| then Matched(acc)
    else match pattern[k]
      case Literal(_) => DecodeCaptures(pattern, segs, k + 1, acc)
      case Capture(name) =>
        match DecodeParam(segs[k])
        case Ok(v) => DecodeCaptures(pattern, segs, k + 1, acc[name := v])
        case Err(e) => DecodeFailed(e)
  }

  /** Some capture at or after `k` holds a malformed escape. */
  predicate BadCaptureFrom(pattern: seq<Segment>, segs: seq<string>, k: nat)
    requires |pattern| == |segs|
  {
    exists j :: k <= j < |pattern| && pattern[j].Capture? && !Percent.WellEscaped(segs[j])
  }

  /** Position `j` holds the last capture of its name: a later capture of the same name would overwrite it. */
  predicate LastCapture(pattern: seq<Segment>, j: nat)
    requires j < |pattern|
  {
    pattern[j].Capture? &&
    forall j' :: j < j' < |pattern| && pattern[j'].Capture? ==> pattern[j'].name != pattern[j].name
  }

  /** From `k` on, every name is bound to the percent-decoding of the segment of its last capture. */
  predicate BindsDecoded(pattern: seq<Segment>, segs: seq<string>, k: nat, params: map<string, string>)
    requires |pattern| == |segs|
  {
    forall j :: k <= j < |pattern| && LastCapture(pattern, j) ==>
      pattern[j].name in params && DecodeParam(segs[j]) == Ok(params[pattern[j].name])
  }

  /** No capture at or after `k` is named `n`. */
  predicate NotCapturedFrom(pattern: seq<Segment>, k: nat, n: string) {
    forall j :: k <= j < |pattern| && pattern[j].Capture? ==> pattern[j].name != n
  }

  /**
   * Decoding never reports a mismatch; it fails exactly when a capture holds a
   * malformed escape, and then with a URIError of status 400; when it succeeds
   * every captured name is bound to the percent-decoding of its (last) captured
   * segment, and what was bound before and is not captured again is kept.
   */
  lemma {:induction false} DecodeCapturesOutcome(pattern: seq<Segment>, segs: seq<string>, k: nat, acc: map<string, string>)
    requires |pattern| == |segs| && k <= |pattern|
    ensures !DecodeCaptures(pattern, segs, k, acc).NoMatch?
    ensures DecodeCaptures(pattern, segs, k, acc).DecodeFailed? <==> BadCaptureFrom(pattern, segs, k)
    ensures DecodeCaptures(pattern, segs, k, acc).DecodeFailed? ==>
              DecodeCaptures(pattern, segs, k, acc).error.name == "URIError" &&
              DecodeCaptures(pattern, segs, k, acc).error.status == Some(400)
    ensures DecodeCaptures(pattern, segs, k, acc).Matched? ==>
              DecodeCaptures(pattern, segs, k, acc).params.Keys ==
                acc.Keys + set j | k <= j < |pattern| && pattern[j].Capture? :: pattern[j].name
    ensures DecodeCaptures(pattern, segs, k, acc).Matched? ==>
              BindsDecoded(pattern, segs, k, DecodeCaptures(pattern, segs, k, acc).params)
    ensures DecodeCaptures(pattern, segs, k, acc).Matched? ==>
              forall n :: n in acc && NotCapturedFrom(pattern, k, n) ==>
                n in DecodeCaptures(pattern, segs, k, acc).params &&
                DecodeCaptures(pattern, segs, k, acc).params[n] == acc[n]
    decreases |pattern| - k
  {
    DecodeCapturesValues(pattern, segs, k, acc);
    if k < |pattern| {
      var names := set j | k <= j < |pattern| && pattern[j].Capture? :: pattern[j].name;
      var later := set j | k + 1 <= j < |pattern| && pattern[j].Capture? :: pattern[j].name;
      match pattern[k]
      case Literal(_) =>
        DecodeCapturesOutcome(pattern, segs, k + 1, acc);
        assert names == later;
        assert BadCaptureFrom(pattern, segs, k) ==> BadCaptureFrom(pattern, segs, k + 1);
      case Capture(name) =>
        match DecodeParam(segs[k])
        case Ok(v) =>
          DecodeCapturesOutcome(pattern, segs, k + 1, acc[name := v]);
          assert names == {name} + later;
          assert BadCaptureFrom(pattern, segs, k) ==> BadCaptureFrom(pattern, segs, k + 1);
        case Err(e) =>
          assert BadCaptureFrom(pattern, segs, k);
    }
  }

  /**
   * On success, each name is bound to the percent-decoding of its last captured
   * segment, and a name bound before and not captured again keeps its value.
   */
  lemma {:induction false} DecodeCapturesValues(pattern: seq<Segment>, segs: seq<string>, k: nat, acc: map<string, string>)
    requires |pattern| == |segs| && k <= |pattern|
    ensures DecodeCaptures(pattern, segs, k, acc).Matched? ==>
              BindsDecoded(pattern, segs, k, DecodeCaptures(pattern, segs, k, acc).params)
    ensures DecodeCaptures(pattern, segs, k, acc).Matched? ==>
              forall n :: n in acc && NotCapturedFrom(pattern, k, n) ==>
                n in DecodeCaptures(pattern, segs, k, acc).params &&
                DecodeCaptures(pattern, segs, k, acc).params[n] == acc[n]
    decreases |pattern| - k
  {
    if k < |pattern| {
      match pattern[k]
      case Literal(_) =>
        DecodeCapturesValues(pattern, segs, k + 1, acc);
      case Capture(name) =>
        match DecodeParam(segs[k])
        case Ok(v) =>
          var acc' := acc[name := v];
          DecodeCapturesValues(pattern, segs, k + 1, acc');
          var r := DecodeCaptures(pattern, segs, k + 1, acc');
          if r.Matched? {
            if LastCapture(pattern, k) {
              assert NotCapturedFrom(pattern, k + 1, name);
            }
            forall n | n in acc && NotCapturedFrom(pattern, k, n)
              ensures n in r.params && r.params[n] == acc[n]
            {
              assert NotCapturedFrom(pattern, k + 1, n);
            }
          }
        case Err(e) =>
    }
  }

  /** Matching a route pattern against a request path, exactly (no trailing part). */
  function MatchRoute(pattern: seq<Segment>, path: string): RouteMatch {
    if path == [] || path[0] != '/' then NoMatch
    else
      var segs := Split(path[1..]);
      if !Fits(pattern, segs) then NoMatch else DecodeCaptures(pattern, segs, 0, map[])
  }

  /**
   * A route matches when the path's segments fit the pattern; a matching path
   * either binds every captured name or fails with the 400 decode error of its
   * first malformed capture.
   */
  lemma MatchRouteOutcome(pattern: seq<Segment>, path: string)
    ensures MatchRoute(pattern, path).NoMatch? <==>
              (path == [] || path[0] != '/' || !Fits(pattern, Split(path[1..])))
    ensures MatchRoute(pattern, path).DecodeFailed? <==>
              path != [] && path[0] == '/' && Fits(pattern, Split(path[1..])) &&
              BadCaptureFrom(pattern, Split(path[1..]), 0)
    ensures MatchRoute(pattern, path).DecodeFailed? ==>
              MatchRoute(pattern, path).error.name == "URIError" &&
              MatchRoute(pattern, path).error.status == Some(400)
    ensures MatchRoute(pattern, path).Matched? ==>
              MatchRoute(pattern, path).params.Keys == set n | n in Keys(pattern)
    ensures MatchRoute(pattern, path).Matched? ==>
              BindsDecoded(pattern, Split(path[1..]), 0, MatchRoute(pattern, path).params)
  {
    if path != [] && path[0] == '/' && Fits(pattern, Split(path[1..])) {
      var segs := Split(path[1..]);
      DecodeCapturesOutcome(pattern, segs, 0, map[]);
      var names := set j | 0 <= j < |pattern| && pattern[j].Capture? :: pattern[j].name;
      assert names == set n | n in Keys(pattern) by {
        forall n | n in Keys(pattern) ensures n in names {
          var j :| 0 <= j < |pattern| && pattern[j] == Capture(n);
        }
      }
    }
  }

  /**
   * `use(prefix, ...)`: the prefix matches the path up to a segment boundary.
   * The empty prefix (from `use(fn)` or `use('/', fn)`) matches every path.
   */
  predicate MountMatches(prefix: string, path: string) {
    prefix == [] || (prefix <= path && (|path| == |prefix| || path[|prefix|] == '/'))
  }

  /** The mount path a `use` call registers: `/` mounts at the root. */
  function MountPath(path: string): (prefix: string)
    ensures path == "/" ==> prefix == []
    ensures path != "/" ==> prefix == path
  {
    if path == "/" then [] else path
  }
}
