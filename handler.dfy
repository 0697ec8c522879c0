/**
 * The `Handler` class: run a callable and hand any Exception it throws to an
 * exception `Consumer` instead of propagating it.
 *
 * The Runner form takes the runner's outcome as an `Outcome<()>` and applies
 * the callable form to it.
 */
module Handler {
  import opened Throwables
  import opened Strategies

  /**
   * `handle(callable, exceptionConsumer)`: runs the callable once and discards its value; an
   * Exception it throws goes to the consumer, and the call then ends as the consumer
   * ends; anything that is not an Exception escapes.
   */
  function Handle<V>(op: Outcome<V>, consumer: Callback): (r: Run<()>)
    ensures Dispatches(op, consumer, r)
  {
    CallOnly();
    match op
    case Ok(_) => Run([Called], Ok(()))
    case Throws(e) =>
      if e.kind != NonException then
        CallThenHandle(e);
        Run([Called, Handled(e)], consumer(e))
      else
        Run([Called], Throws(e))
  }

  /** `handle(runner, exceptionConsumer)`. */
  function HandleRunner(runner: Outcome<()>, consumer: Callback): (r: Run<()>)
    ensures Dispatches(runner, consumer, r)
  {
    Handle(runner, consumer)
  }

  /** The Runner overload is the callable form with the same consumer. */
  lemma RunnerFormDelegates(runner: Outcome<()>, consumer: Callback)
    ensures HandleRunner(runner, consumer) == Handle(runner, consumer)
  {
  }

  /** What the consumer throws comes out of `handle` as it is. */
  lemma ConsumerExceptionPropagates<V>(op: Outcome<V>, consumer: Callback)
    requires Caught(op) && consumer(op.e).Throws?
    ensures Handle(op, consumer).out == Throws(consumer(op.e).e)
  {
  }
}
