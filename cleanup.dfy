/**
 * The `Cleanup` class: run a callable and hand any Exception it throws to a
 * handler meant for cleaning up, instead of propagating it.
 *
 * The Runner forms take the runner's outcome as an `Outcome<()>` and apply
 * the callable form to it.
 */
module Cleanup {
  import opened Throwables
  import opened Strategies

  /** Cleanup's handler interface: `void handle(Exception e)`. */
  type Handler = Callback

  /** `with(exceptionConsumer)`: the handler that passes each exception to the consumer. */
  function With(consumer: Exc -> UncheckedOutcome<()>): (h: Handler)
    ensures forall e :: h(e) == consumer(e)
  {
    e => consumer(e)
  }

  /**
   * `cleanup(callable, handler)`: runs the callable once and discards its value; an
   * Exception it throws goes to the handler, and the call then ends as the handler
   * ends; anything that is not an Exception escapes.
   */
  function Cleanup<V>(op: Outcome<V>, h: Handler): (r: Run<()>)
    ensures Dispatches(op, h, r)
  {
    CallOnly();
    match op
    case Ok(_) => Run([Called], Ok(()))
    case Throws(e) =>
      if e.kind != NonException then
        CallThenHandle(e);
        Run([Called, Handled(e)], h(e))
      else
        Run([Called], Throws(e))
  }

  /** `cleanup(handler, callable)`. */
  function CleanupHandlerFirst<V>(h: Handler, op: Outcome<V>): (r: Run<()>)
    ensures Dispatches(op, h, r)
  {
    Cleanup(op, h)
  }

  /** `cleanup(runner, handler)`. */
  function CleanupRunner(runner: Outcome<()>, h: Handler): (r: Run<()>)
    ensures Dispatches(runner, h, r)
  {
    Cleanup(runner, h)
  }

  /** `cleanup(handler, runner)`. */
  function CleanupRunnerHandlerFirst(h: Handler, runner: Outcome<()>): (r: Run<()>)
    ensures Dispatches(runner, h, r)
  {
    CleanupRunner(runner, h)
  }

  /** The handler-first overload behaves as the callable-first one. */
  lemma ArgumentOrderIrrelevant<V>(op: Outcome<V>, h: Handler)
    ensures CleanupHandlerFirst(h, op) == Cleanup(op, h)
  {
  }

  /**
   * The Runner overloads, in either argument order, are the callable form
   * applied to the runner's outcome.
   */
  lemma RunnerFormsDelegate(runner: Outcome<()>, h: Handler)
    ensures CleanupRunner(runner, h) == Cleanup(runner, h)
    ensures CleanupRunnerHandlerFirst(h, runner) == Cleanup(runner, h)
  {
  }

  /** What the handler throws comes out of `cleanup` as it is. */
  lemma HandlerExceptionPropagates<V>(op: Outcome<V>, h: Handler)
    requires Caught(op) && h(op.e).Throws?
    ensures Cleanup(op, h).out == Throws(h(op.e).e)
  {
  }
}
