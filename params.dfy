/**
 * The parameter registry: `router.param(name, fn)` with its argument checks,
 * and the processing of the names a matched layer captured. Each name's
 * functions run in registration order with the captured value; a per-request
 * memo records, for each name, the value they last ran for, the value they
 * left in `req.params` and how they ended, so that they run at most once per
 * (name, value) in one request.
 */
module Params {
  import opened Wrappers
  import opened Http

  /** A parameter function `(req, res, next, value)`; it may change the exchange and settles like a handler. */
  type ParamFn = (Exchange, string) -> Reply

  /** For each name, its functions in registration order. */
  type Registry = map<string, seq<ParamFn>>

  /** An argument as a JavaScript caller may pass it. */
  datatype Arg = Undefined | Null | Bool(b: bool) | Number(n: int) | Text(s: string) | Function(fn: ParamFn)

  /** The argument is falsy (`!arg` holds). */
  predicate Falsy(a: Arg) {
    a.Undefined? || a.Null? || (a.Bool? && !a.b) || (a.Number? && a.n == 0) || (a.Text? && a.s == "")
  }

  function ArgumentError(message: string): (e: Error)
    ensures e.name == "TypeError" && e.message == message && e.status.None?
  {
    Error("TypeError", message, None)
  }

  /**
   * `router.param(name, fn)`: refuses a missing name, a name that is not a
   * string, a missing fn and an fn that is not a function, each with its own
   * message and in that order of precedence; otherwise appends fn to the
   * name's functions and leaves every other name alone.
   */
  function Register(reg: Registry, name: Arg, fn: Arg): (r: Result<Registry, Error>)
    ensures r.Ok? <==> name.Text? && name.s != "" && fn.Function?
    ensures Falsy(name) ==> r.Err? && r.error == ArgumentError("argument name is required")
    ensures !Falsy(name) && !name.Text? ==> r.Err? && r.error == ArgumentError("argument name must be a string")
    ensures !Falsy(name) && name.Text? && Falsy(fn) ==> r.Err? && r.error == ArgumentError("argument fn is required")
    ensures !Falsy(name) && name.Text? && !Falsy(fn) && !fn.Function? ==>
              r.Err? && r.error == ArgumentError("argument fn must be a function")
    ensures r.Ok? ==> r.value.Keys == reg.Keys + {name.s}
    ensures r.Ok? ==> r.value[name.s] == (if name.s in reg then reg[name.s] else []) + [fn.fn]
    ensures r.Ok? ==> forall n :: n in reg && n != name.s ==> r.value[n] == reg[n]
  {
    if Falsy(name) then Err(ArgumentError("argument name is required"))
    else if !name.Text? then Err(ArgumentError("argument name must be a string"))
    else if Falsy(fn) then Err(ArgumentError("argument fn is required"))
    else if !fn.Function? then Err(ArgumentError("argument fn must be a function"))
    else
      var fns := if name.s in reg then reg[name.s] else [];
      Ok(reg[name.s := fns + [fn.fn]])
  }

  /**
   * What the memo holds for one name: how its functions ended (`Continue`
   * when they all called `next()`), the captured value they ran for, and the
   * value they left in `req.params` (None when they removed it).
   */
  datatype ParamMemo = ParamMemo(outcome: Signal, matched: string, value: Option<string>)

  /** The part of the dispatch context parameter processing reads and writes. */
  datatype ParamState = ParamState(ex: Exchange, memo: map<string, ParamMemo>)

  /** How processing the captured names ended. */
  datatype ParamsEnd = ParamsDone | ParamsFailed(signal: Signal) | ParamsHalted

  function Lookup(params: map<string, string>, key: string): (v: Option<string>)
    ensures v.Some? <==> key in params
    ensures v.Some? ==> v.value == params[key]
  {
    if key in params then Some(params[key]) else None
  }

  /** Putting a remembered value back into `req.params`. */
  function Put(params: map<string, string>, key: string, v: Option<string>): (r: map<string, string>)
    ensures Lookup(r, key) == v
    ensures forall k :: k != key ==> Lookup(r, k) == Lookup(params, k)
  {
    if v.Some? then params[key := v.value] else params - {key}
  }

  /**
   * Running the functions of `key` from the `c`-th on, with the captured
   * value `val`. After each one calls `next`, the memo takes the value it left
   * in `req.params`; an error or `'route'` is recorded and ends the chain.
   */
  function RunFns(fns: seq<ParamFn>, c: nat, key: string, val: string, st: ParamState): (r: (ParamsEnd, ParamState))
    requires key in st.memo
    ensures key in r.1.memo && r.1.memo.Keys == st.memo.Keys
    ensures r.1.memo[key].matched == st.memo[key].matched
    ensures r.0.ParamsFailed? ==> !r.0.signal.Continue? && r.1.memo[key].outcome == r.0.signal
    ensures r.0.ParamsDone? ==> r.1.memo[key].outcome == st.memo[key].outcome
    ensures forall n :: n in st.memo && n != key ==> r.1.memo[n] == st.memo[n]
    decreases |fns| - c
  {
    if c >= |fns| then (ParamsDone, st)
    else
      var reply := fns[c](st.ex, val);
      match Settle(reply.settled)
      case Halt => (ParamsHalted, ParamState(reply.ex, st.memo))
      case Go(signal) =>
        var memo := st.memo[key := st.memo[key].(value := Lookup(reply.ex.params, key))];
        if signal.Continue? then RunFns(fns, c + 1, key, val, ParamState(reply.ex, memo))
        else (ParamsFailed(signal), ParamState(reply.ex, memo[key := memo[key].(outcome := signal)]))
  }

  /** The memo lets `key` skip its functions for `val`: same value as last time, or a recorded error. */
  predicate Remembered(memo: map<string, ParamMemo>, key: string, val: string) {
    key in memo && (memo[key].matched == val || memo[key].outcome.Fail?)
  }

  /**
   * Processing the captured names `keys[k..]` in order. A name with no
   * functions, or absent from `req.params`, is passed over; a remembered one
   * gets its stored value back and repeats its recorded outcome; any other
   * one runs its functions.
   */
  function Process(reg: Registry, keys: seq<string>, k: nat, st: ParamState): (r: (ParamsEnd, ParamState))
    ensures st.memo.Keys <= r.1.memo.Keys
    ensures r.0.ParamsFailed? ==> !r.0.signal.Continue?
    decreases |keys| - k
  {
    if k >= |keys| then (ParamsDone, st)
    else
      var key := keys[k];
      if key !in st.ex.params || key !in reg then Process(reg, keys, k + 1, st)
      else
        var val := st.ex.params[key];
        if Remembered(st.memo, key, val) then
          var m := st.memo[key];
          var st' := ParamState(st.ex.(params := Put(st.ex.params, key, m.value)), st.memo);
          if m.outcome.Continue? then Process(reg, keys, k + 1, st') else (ParamsFailed(m.outcome), st')
        else
          var st1 := st.(memo := st.memo[key := ParamMemo(Continue, val, Some(val))]);
          var r1 := RunFns(reg[key], 0, key, val, st1);
          if r1.0.ParamsDone? then Process(reg, keys, k + 1, r1.1) else r1
  }

  /**
   * At most once per (name, value): when the memo says the functions of `key`
   * already ran for this value and ended with `next()`, none of them runs
   * again; `req.params[key]` gets back the value they left and nothing else
   * in the exchange or the memo changes.
   */
  lemma RememberedValueSkipsFunctions(reg: Registry, key: string, st: ParamState)
    requires key in reg && key in st.ex.params
    requires key in st.memo && st.memo[key].matched == st.ex.params[key] && st.memo[key].outcome.Continue?
    ensures Process(reg, [key], 0, st) ==
              (ParamsDone, ParamState(st.ex.(params := Put(st.ex.params, key, st.memo[key].value)), st.memo))
  {
  }

  /**
   * A recorded error is sticky: once the functions of `key` failed in this
   * request, any later capture of `key`, whatever its value, fails with the
   * same error and runs nothing.
   */
  lemma RecordedErrorRepeats(reg: Registry, key: string, st: ParamState)
    requires key in reg && key in st.ex.params
    requires key in st.memo && st.memo[key].outcome.Fail?
    ensures Process(reg, [key], 0, st).0 == ParamsFailed(st.memo[key].outcome)
    ensures Process(reg, [key], 0, st).1.memo == st.memo
  {
  }

  /**
   * A value the functions of `key` have not run for (and no recorded error)
   * makes them run again, from the first, and the memo then remembers that value.
   */
  lemma NewValueRunsFunctions(reg: Registry, key: string, st: ParamState)
    requires key in reg && key in st.ex.params
    requires !Remembered(st.memo, key, st.ex.params[key])
    ensures var val := st.ex.params[key];
            var st1 := st.(memo := st.memo[key := ParamMemo(Continue, val, Some(val))]);
            var r1 := RunFns(reg[key], 0, key, val, st1);
            Process(reg, [key], 0, st) == (if r1.0.ParamsDone? then (ParamsDone, r1.1) else r1)
    ensures Process(reg, [key], 0, st).0 != ParamsHalted ==>
              key in Process(reg, [key], 0, st).1.memo &&
              Process(reg, [key], 0, st).1.memo[key].matched == st.ex.params[key]
  {
  }

  /** A name nobody registered functions for runs nothing and changes nothing. */
  lemma UnregisteredNameIsPassedOver(reg: Registry, keys: seq<string>, k: nat, st: ParamState)
    requires k < |keys| && keys[k] !in reg
    ensures Process(reg, keys, k, st) == Process(reg, keys, k + 1, st)
  {
  }

  /** Only the names the layer captured count: with no captured names with functions, nothing runs. */
  lemma {:induction false} NoRegisteredKeysNoEffect(reg: Registry, keys: seq<string>, k: nat, st: ParamState)
    requires k <= |keys|
    requires forall j :: k <= j < |keys| ==> keys[j] !in reg
    ensures Process(reg, keys, k, st) == (ParamsDone, st)
    decreases |keys| - k
  {
    if k < |keys| { NoRegisteredKeysNoEffect(reg, keys, k + 1, st); }
  }
}
