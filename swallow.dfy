/**
 * The `Swallow` class: run a callable, discard its value, and hand any
 * Exception it throws to a handler instead of propagating it.
 *
 * The Runner forms take the runner's outcome as an `Outcome<()>` and apply
 * the callable form to it.
 */
module Swallow {
  import opened Throwables
  import opened Strategies

  /** `ExceptionLogger`: `void log(Exception e)`. */
  type ExceptionLogger = Callback

  /** Swallow's handler interface: `void handle(Exception e)`. */
  type Handler = Callback

  /** `usingLogger(exceptionLogger)`: the handler that passes each exception to the logger. */
  function UsingLogger(l: ExceptionLogger): (h: Handler)
    ensures forall e :: h(e) == l(e)
  {
    e => l(e)
  }

  /** The empty logger, which does nothing and returns normally on every exception. */
  function NoOp(e: Exc): (t: UncheckedOutcome<()>)
    ensures t.Ok?
  {
    Ok(())
  }

  /**
   * `swallow(callable, handler)`: runs the callable once and discards its value; an
   * Exception it throws goes to the handler, and the call then ends as the handler
   * ends; anything that is not an Exception escapes.
   */
  function Swallow<V>(op: Outcome<V>, h: Handler): (r: Run<()>)
    ensures Dispatches(op, h, r)
  {
    CallOnly();
    match op
    case Ok(_) => Run([Called], Ok(()))
    case Throws(e) =>
      if e.kind != NonException then
        CallThenHandle(e);
        Run([Called, Handled(e)], h(e))
      else
        Run([Called], Throws(e))
  }

  /** `swallow(handler, callable)`. */
  function SwallowHandlerFirst<V>(h: Handler, op: Outcome<V>): (r: Run<()>)
    ensures Dispatches(op, h, r)
  {
    Swallow(op, h)
  }

  /**
   * `swallow(callable)`: `swallow` with the empty logger as handler. No
   * Exception leaves it; only a throwable that is not an Exception does.
   */
  function SwallowSilently<V>(op: Outcome<V>): (r: Run<()>)
    ensures Dispatches(op, NoOp, r)
    ensures CallCount(r.trace) == 1
    ensures HandlerArgs(r.trace) == (if Caught(op) then [op.e] else [])
    ensures r.out.Throws? <==> Escapes(op)
    ensures r.out.Throws? ==> r.out.e == op.e
  {
    Swallow(op, UsingLogger(NoOp))
  }

  /** `swallow(runner, handler)`. */
  function SwallowRunner(runner: Outcome<()>, h: Handler): (r: Run<()>)
    ensures Dispatches(runner, h, r)
  {
    Swallow(runner, h)
  }

  /** `swallow(handler, runner)`. */
  function SwallowRunnerHandlerFirst(h: Handler, runner: Outcome<()>): (r: Run<()>)
    ensures Dispatches(runner, h, r)
  {
    SwallowRunner(runner, h)
  }

  /** `swallow(runner)`. */
  function SwallowRunnerSilently(runner: Outcome<()>): (r: Run<()>)
    ensures Dispatches(runner, NoOp, r)
  {
    SwallowSilently(runner)
  }

  /** The handler-first overload behaves as the callable-first one. */
  lemma ArgumentOrderIrrelevant<V>(op: Outcome<V>, h: Handler)
    ensures SwallowHandlerFirst(h, op) == Swallow(op, h)
  {
  }

  /**
   * The Runner overloads, in either argument order, are the callable forms
   * applied to the runner's outcome.
   */
  lemma RunnerFormsDelegate(runner: Outcome<()>, h: Handler)
    ensures SwallowRunner(runner, h) == Swallow(runner, h)
    ensures SwallowRunnerHandlerFirst(h, runner) == Swallow(runner, h)
    ensures SwallowRunnerSilently(runner) == SwallowSilently(runner)
  {
  }

  /**
   * Only the handler decides whether an Exception escapes: with a handler that
   * returns normally, what leaves `swallow` is never an Exception, and the
   * value of the callable never comes out.
   */
  lemma SwallowContainsExceptions<V>(op: Outcome<V>, h: Handler)
    requires forall e :: h(e).Ok?
    ensures Swallow(op, h).out == (if Escapes(op) then Throws(op.e) else Ok(()))
  {
    if Caught(op) {
      match h(op.e)
      case Ok(u) => assert u == ();
    }
  }

  /** What the handler throws comes out of `swallow` as it is. */
  lemma HandlerExceptionPropagates<V>(op: Outcome<V>, h: Handler)
    requires Caught(op) && h(op.e).Throws?
    ensures Swallow(op, h).out == Throws(h(op.e).e)
  {
  }
}
