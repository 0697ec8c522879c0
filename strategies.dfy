/**
 * The four error-handling strategies, each stated once as a relation between
 * the outcome of the callable's single invocation, the caller's callback and
 * the combinator's run. The classes that implement the same strategy (Wrap and
 * Wrapper; Swallow, Cleanup and Handler; Fallback and Fallbacker) are each
 * proved against these.
 */
module Strategies {
  import opened Throwables

  /** A translator from an exception to the RuntimeException to throw instead. */
  type Translator = Exc -> UncheckedOutcome<RuntimeExc>

  /** A callback that receives an exception and returns nothing. */
  type Callback = Exc -> UncheckedOutcome<()>

  /**
   * The translator `RuntimeException::new`: it always returns, and what it
   * returns is a `java.lang.RuntimeException` whose cause is `e`.
   */
  function RuntimeExceptionNew(e: Exc): (t: UncheckedOutcome<RuntimeExc>)
    ensures t.Ok? && t.v.cls == RuntimeExceptionClass && Cause(t.v) == Some(e)
  {
    Ok(NewRuntimeException(e))
  }

  /**
   * The throwable `throw translate(e)` raises: the RuntimeException the
   * translator returned, or whatever the translator itself threw.
   */
  function Raised(t: UncheckedOutcome<RuntimeExc>): (x: Exc)
    ensures x.kind != Checked
  {
    match t
    case Ok(x) => x
    case Throws(y) => y
  }

  // In every strategy the callable is invoked first and exactly once; only
  // then is a callback or a supplier asked.

  /**
   * Translate checked exceptions only: the value passes, a RuntimeException
   * (and anything that is not an Exception) passes untouched, and a checked
   * exception goes to the translator once, whose result is thrown.
   */
  ghost predicate TranslatesChecked<V>(op: Outcome<V>, translate: Translator, r: Run<V>)
  {
    && |r.trace| >= 1 && r.trace[0] == Called
    && CallCount(r.trace) == 1
    && SupplierCalls(r.trace) == 0
    && (op.Ok? ==> r.out == Ok(op.v) && HandlerArgs(r.trace) == [])
    && (op.Throws? && op.e.kind != Checked ==> r.out == Throws(op.e) && HandlerArgs(r.trace) == [])
    && (op.Throws? && op.e.kind == Checked ==>
          HandlerArgs(r.trace) == [op.e] && r.out == Throws(Raised(translate(op.e))))
  }

  /**
   * Translate every Exception: the value passes, anything that is not an
   * Exception passes untouched, and every Exception, a RuntimeException
   * included, goes to the translator once, whose result is thrown.
   */
  ghost predicate TranslatesAll<V>(op: Outcome<V>, translate: Translator, r: Run<V>)
  {
    && |r.trace| >= 1 && r.trace[0] == Called
    && CallCount(r.trace) == 1
    && SupplierCalls(r.trace) == 0
    && (op.Ok? ==> r.out == Ok(op.v) && HandlerArgs(r.trace) == [])
    && (Escapes(op) ==> r.out == Throws(op.e) && HandlerArgs(r.trace) == [])
    && (Caught(op) ==> HandlerArgs(r.trace) == [op.e] && r.out == Throws(Raised(translate(op.e))))
  }

  /**
   * Hand a caught exception to a callback and return normally: the value is
   * discarded, a caught Exception goes to the callback once and the call ends
   * as the callback ends; anything that is not an Exception passes untouched.
   */
  ghost predicate Dispatches<V>(op: Outcome<V>, callback: Callback, r: Run<()>)
  {
    && |r.trace| >= 1 && r.trace[0] == Called
    && CallCount(r.trace) == 1
    && SupplierCalls(r.trace) == 0
    && (op.Ok? ==> r.out == Ok(()) && HandlerArgs(r.trace) == [])
    && (Caught(op) ==> HandlerArgs(r.trace) == [op.e] && r.out == callback(op.e))
    && (Escapes(op) ==> r.out == Throws(op.e) && HandlerArgs(r.trace) == [])
  }

  /**
   * Substitute a supplied value: the value passes and the supplier is not
   * asked; on a caught Exception the supplier is asked once and its outcome is
   * the call's; anything that is not an Exception passes untouched.
   */
  ghost predicate SuppliesOnFailure<V>(op: Outcome<V>, supplier: () -> UncheckedOutcome<V>, r: Run<V>)
  {
    && |r.trace| >= 1 && r.trace[0] == Called
    && CallCount(r.trace) == 1
    && HandlerArgs(r.trace) == []
    && (op.Ok? ==> r.out == Ok(op.v) && SupplierCalls(r.trace) == 0)
    && (Caught(op) ==> SupplierCalls(r.trace) == 1 && r.out == supplier())
    && (Escapes(op) ==> r.out == Throws(op.e) && SupplierCalls(r.trace) == 0)
  }

  /**
   * Substitute a value computed from the exception: the value passes and the
   * function is not applied; a caught Exception is passed to the function
   * once and its outcome is the call's; anything that is not an Exception
   * passes untouched.
   */
  ghost predicate ComputesOnFailure<V>(op: Outcome<V>, f: Exc -> UncheckedOutcome<V>, r: Run<V>)
  {
    && |r.trace| >= 1 && r.trace[0] == Called
    && CallCount(r.trace) == 1
    && SupplierCalls(r.trace) == 0
    && (op.Ok? ==> r.out == Ok(op.v) && HandlerArgs(r.trace) == [])
    && (Caught(op) ==> HandlerArgs(r.trace) == [op.e] && r.out == f(op.e))
    && (Escapes(op) ==> r.out == Throws(op.e) && HandlerArgs(r.trace) == [])
  }
}
