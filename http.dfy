/**
 * The request/response pair as handlers see it, the error objects that travel
 * through the router, and the ways a handler can settle.
 *
 * Handlers are written in JavaScript against mutable `req`/`res` objects and may
 * call `next` synchronously, later, or return a promise. Here a handler is a
 * total function from the current exchange to the exchange it leaves behind
 * together with how it settled: it called `next` with a signal, it returned
 * without calling `next` (typically because it ended the response), it threw,
 * or its promise rejected (with or without a reason).
 */
module Http {
  import opened Wrappers

  /** An error object: its constructor name (`Error`, `TypeError`, `URIError`),
      its message, and the HTTP status it carries, if any. */
  datatype Error = Error(name: string, message: string, status: Option<nat>)

  /** The error put in flight when a handler's promise rejects without a reason. */
  const RejectedPromise: Error := Error("Error", "Rejected promise", None)

  /** A value an application stores on the request (`req.user`, `req.count`, `req.vals`). */
  datatype Value = Str(s: string) | Num(n: int) | List(items: seq<string>)

  /**
   * `verb` is `req.method`. The parts of `req` and `res` the router reads or writes, and the parts the
   * handlers in the test suite read or write: the method, `req.url`,
   * `req.params`, application fields on the request, and the response's status,
   * headers, body and whether its headers have gone out.
   */
  datatype Exchange = Exchange(
    verb: string,
    url: string,
    params: map<string, string>,
    locals: map<string, Value>,
    status: nat,
    headers: map<string, string>,
    body: string,
    headersSent: bool)

  /** A fresh exchange for a request line, before any handler has run. */
  function NewExchange(verb: string, url: string): (ex: Exchange)
    ensures ex.verb == verb && ex.url == url
    ensures ex.params == map[] && ex.locals == map[] && ex.headers == map[]
    ensures ex.status == 200 && ex.body == "" && !ex.headersSent
  {
    Exchange(verb, url, map[], map[], 200, map[], "", false)
  }

  /** `res.setHeader(name, value)`. */
  function SetHeader(ex: Exchange, name: string, value: string): (r: Exchange)
    ensures r.headers == ex.headers[name := value]
    ensures r == ex.(headers := r.headers)
  {
    ex.(headers := ex.headers[name := value])
  }

  /** `res.end(body)`: the body is written and the headers are sent. */
  function End(ex: Exchange, body: string): (r: Exchange)
    ensures r.body == body && r.headersSent
    ensures r == ex.(body := body, headersSent := true)
  {
    ex.(body := body, headersSent := true)
  }

  /** What a handler passes to `next`: nothing, an error, or `'route'`. */
  datatype Signal = Continue | Fail(error: Error) | SkipRoute

  /** How a handler's invocation settled. */
  datatype Settled =
    | Called(signal: Signal)          // called next(...)
    | Returned                        // returned without calling next
    | Threw(error: Error)              // threw synchronously
    | Rejected(reason: Option<Error>) // returned a promise that rejected

  datatype Reply = Reply(ex: Exchange, settled: Settled)

  /** A handler is tagged at registration: a normal handler `(req, res, next)`
      or an error handler `(err, req, res, next)`. */
  datatype Handler =
    | Normal(run: Exchange -> Reply)
    | OnError(recover: (Error, Exchange) -> Reply)

  /** What the dispatch loop does after a handler settled: go on with a signal, or stop. */
  datatype Step = Go(signal: Signal) | Halt

  /**
   * A throw and a rejection become an in-flight error; a rejection without a
   * reason becomes `RejectedPromise`; a handler that returned without calling
   * `next` stops the dispatch.
   */
  function Settle(s: Settled): (step: Step)
    ensures step.Halt? <==> s.Returned?
    ensures s.Called? ==> step == Go(s.signal)
    ensures s.Threw? ==> step == Go(Fail(s.error))
    ensures s.Rejected? && s.reason.Some? ==> step == Go(Fail(s.reason.value))
    ensures s.Rejected? && s.reason.None? ==> step == Go(Fail(RejectedPromise))
  {
    match s
    case Called(signal) => Go(signal)
    case Returned => Halt
    case Threw(e) => Go(Fail(e))
    case Rejected(reason) => Go(Fail(if reason.Some? then reason.value else RejectedPromise))
  }

  /** The error a failed settlement puts in flight, if it is one. */
  function CapturedError(s: Settled): (e: Option<Error>)
    ensures e.Some? <==> (s.Threw? || s.Rejected?)
    ensures e.Some? ==> Settle(s) == Go(Fail(e.value))
  {
    match s
    case Threw(e) => Some(e)
    case Rejected(reason) => Some(if reason.Some? then reason.value else RejectedPromise)
    case _ => None
  }
}
