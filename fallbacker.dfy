/**
 * The `Fallbacker` class: run a callable and, if it throws an Exception,
 * return a substitute: a fixed value, a supplier's value, or a value computed
 * from the exception.
 */
module Fallbacker {
  import opened Throwables
  import opened Strategies

  /**
   * `fallback(callable, value)`: runs the callable once and returns its value; if
   * it throws an Exception, `value` is returned instead; anything that is not an
   * Exception escapes.
   */
  function FallbackValue<V>(op: Outcome<V>, value: V): (r: Run<V>)
    ensures CallCount(r.trace) == 1
    ensures HandlerArgs(r.trace) == [] && SupplierCalls(r.trace) == 0
    ensures op.Ok? ==> r.out == Ok(op.v)
    ensures Caught(op) ==> r.out == Ok(value)
    ensures Escapes(op) ==> r.out == Throws(op.e)
  {
    CallOnly();
    match op
    case Ok(v) => Run([Called], Ok(v))
    case Throws(e) =>
      if e.kind != NonException then Run([Called], Ok(value)) else Run([Called], Throws(e))
  }

  /**
   * `fallback(callable, valueSupplier)`: runs the callable once and returns its value; if
   * it throws an Exception, the supplier is asked for the value to return instead; anything that is not an
   * Exception escapes.
   */
  function FallbackSupplier<V>(op: Outcome<V>, valueSupplier: () -> UncheckedOutcome<V>): (r: Run<V>)
    ensures SuppliesOnFailure(op, valueSupplier, r)
  {
    CallOnly();
    match op
    case Ok(v) => Run([Called], Ok(v))
    case Throws(e) =>
      if e.kind != NonException then
        CallThenSupply();
        Run([Called, Supplied], valueSupplier())
      else
        Run([Called], Throws(e))
  }

  /**
   * `fallback(callable, valueFunction)`: runs the callable once and returns its value; if
   * it throws an Exception, the function computes from it the value to return instead; anything that is not an
   * Exception escapes.
   */
  function FallbackFunction<V>(op: Outcome<V>, valueFunction: Exc -> UncheckedOutcome<V>): (r: Run<V>)
    ensures ComputesOnFailure(op, valueFunction, r)
  {
    CallOnly();
    match op
    case Ok(v) => Run([Called], Ok(v))
    case Throws(e) =>
      if e.kind != NonException then
        CallThenHandle(e);
        Run([Called, Handled(e)], valueFunction(e))
      else
        Run([Called], Throws(e))
  }

  /**
   * The constant form ends as the supplier form with a supplier of that
   * constant; the only difference is that no supplier is asked.
   */
  lemma ValueIsConstantSupplier<V>(op: Outcome<V>, value: V)
    ensures FallbackValue(op, value).out == FallbackSupplier(op, () => Ok(value)).out
    ensures HandlerArgs(FallbackValue(op, value).trace) == HandlerArgs(FallbackSupplier(op, () => Ok(value)).trace)
    ensures SupplierCalls(FallbackSupplier(op, () => Ok(value)).trace) == (if Caught(op) then 1 else 0)
  {
  }

  /** No second fallback: what the supplier or function throws comes out as it is. */
  lemma SubstituteExceptionPropagates<V>(op: Outcome<V>, s: () -> UncheckedOutcome<V>, f: Exc -> UncheckedOutcome<V>)
    requires Caught(op)
    ensures s().Throws? ==> FallbackSupplier(op, s).out == Throws(s().e)
    ensures f(op.e).Throws? ==> FallbackFunction(op, f).out == Throws(f(op.e).e)
  {
  }
}
