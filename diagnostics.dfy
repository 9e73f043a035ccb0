/**
 * The observer log: the events the dispatch loop publishes on the
 * `router.layer.handle.request` and `router.layer.handle.error` channels, in
 * the order it publishes them. Publishing is output only; nothing in the
 * dispatch reads the log.
 */
module Diagnostics {
  import opened Http

  /** Where an event happened: a layer of the router (with its path) or one entry of a route's stack. */
  datatype Site = AtLayer(layer: nat, path: string) | AtEntry(layer: nat, entry: nat)

  /** "About to handle" (no error) and "handling failed" (with the captured error). */
  datatype Event = RequestEvent(at: Site) | ErrorEvent(at: Site, error: Error)

  /** The errors published on the error channel, in order. */
  function Errors(log: seq<Event>): (errs: seq<Error>)
    ensures |errs| <= |log|
    decreases |log|
  {
    if log == [] then []
    else
      var rest := Errors(log[1..]);
      if log[0].ErrorEvent? then [log[0].error] + rest else rest
  }

  /** The sites published on the request channel, in order. */
  function Requests(log: seq<Event>): (sites: seq<Site>)
    ensures |sites| <= |log|
    decreases |log|
  {
    if log == [] then []
    else
      var rest := Requests(log[1..]);
      if log[0].RequestEvent? then [log[0].at] + rest else rest
  }

  /** An error is on the error channel exactly when some error event of the log carries it. */
  lemma {:induction false} ErrorsMembers(log: seq<Event>, e: Error)
    ensures e in Errors(log) <==> exists k :: 0 <= k < |log| && log[k] == ErrorEvent(log[k].at, e)
    decreases |log|
  {
    if log != [] {
      ErrorsMembers(log[1..], e);
      assert forall k :: 1 <= k < |log| ==> log[k] == log[1..][k - 1];
      if (exists k :: 1 <= k < |log| && log[k] == ErrorEvent(log[k].at, e)) {
        var k :| 1 <= k < |log| && log[k] == ErrorEvent(log[k].at, e);
        assert log[1..][k - 1] == ErrorEvent(log[1..][k - 1].at, e);
      }
    }
  }

  /** A site is on the request channel exactly when the log holds a request event for it. */
  lemma {:induction false} RequestsMembers(log: seq<Event>, s: Site)
    ensures s in Requests(log) <==> RequestEvent(s) in log
    decreases |log|
  {
    if log != [] {
      RequestsMembers(log[1..], s);
      assert log == [log[0]] + log[1..];
    }
  }

  lemma {:induction false} ErrorsAppend(a: seq<Event>, b: seq<Event>)
    ensures Errors(a + b) == Errors(a) + Errors(b)
    decreases |a|
  {
    if a != [] {
      assert (a + b)[1..] == a[1..] + b;
      assert (a + b)[0] == a[0];
      ErrorsAppend(a[1..], b);
    } else {
      assert a + b == b;
    }
  }

  lemma {:induction false} RequestsAppend(a: seq<Event>, b: seq<Event>)
    ensures Requests(a + b) == Requests(a) + Requests(b)
    decreases |a|
  {
    if a != [] {
      assert (a + b)[1..] == a[1..] + b;
      assert (a + b)[0] == a[0];
      RequestsAppend(a[1..], b);
    } else {
      assert a + b == b;
    }
  }
}
