/**
 * The `Fallback` class: run a callable and, if it throws an Exception,
 * return a substitute value instead: a supplier's value or a value computed
 * from the exception. The `to` builders make the substitute.
 */
module Fallback {
  import opened Throwables
  import opened Strategies

  /** A `Supplier<V>`: `V get()`. */
  type Supplier<V> = () -> UncheckedOutcome<V>

  /** A `Function<Exception, V>`: `V apply(Exception e)`. */
  type ExceptionFunction<V> = Exc -> UncheckedOutcome<V>

  /** `to(value)`: the supplier that always returns `value`. */
  function ToValue<V>(value: V): (s: Supplier<V>)
    ensures s() == Ok(value)
  {
    () => Ok(value)
  }

  /** `to(valueSupplier)`. */
  function ToSupplier<V>(valueSupplier: Supplier<V>): (s: Supplier<V>)
    ensures s() == valueSupplier()
  {
    valueSupplier
  }

  /** `to(fallbackFunc)`. */
  function ToFunction<V>(fallbackFunc: ExceptionFunction<V>): (f: ExceptionFunction<V>)
    ensures forall e :: f(e) == fallbackFunc(e)
  {
    fallbackFunc
  }

  /**
   * `fallback(callable, valueSupplier)`: runs the callable once and returns its value; if
   * it throws an Exception, the supplier is asked for the value to return instead; anything that is not an
   * Exception escapes.
   */
  function FallbackSupplier<V>(op: Outcome<V>, valueSupplier: Supplier<V>): (r: Run<V>)
    ensures SuppliesOnFailure(op, valueSupplier, r)
  {
    CallOnly();
    match op
    case Ok(v) => Run([Called], Ok(v))
    case Throws(e) =>
      if e.kind != NonException then
        CallThenSupply();
        Run([Called, Supplied], valueSupplier())
      else
        Run([Called], Throws(e))
  }

  /**
   * `fallback(callable, fallbackFunc)`: runs the callable once and returns its value; if
   * it throws an Exception, the function computes from it the value to return instead; anything that is not an
   * Exception escapes.
   */
  function FallbackFunction<V>(op: Outcome<V>, fallbackFunc: ExceptionFunction<V>): (r: Run<V>)
    ensures ComputesOnFailure(op, fallbackFunc, r)
  {
    CallOnly();
    match op
    case Ok(v) => Run([Called], Ok(v))
    case Throws(e) =>
      if e.kind != NonException then
        CallThenHandle(e);
        Run([Called, Handled(e)], fallbackFunc(e))
      else
        Run([Called], Throws(e))
  }

  /** `to(supplier)` and `to(function)` hand back their argument. */
  lemma ToReturnsArgument<V>(s: Supplier<V>, f: ExceptionFunction<V>)
    ensures ToSupplier(s) == s
    ensures ToFunction(f) == f
  {
  }

  /**
   * `fallback(callable, to(c))` ends with the callable's own value, with `c`
   * when the callable throws an Exception, and with the callable's throwable
   * when that is not an Exception.
   */
  lemma FallbackToConstant<V>(op: Outcome<V>, c: V)
    ensures FallbackSupplier(op, ToValue(c)).out == (if Caught(op) then Ok(c) else op)
  {
  }

  /**
   * The function form generalises the supplier form: a function that ignores
   * the exception and asks the supplier gives the same outcome.
   */
  lemma FunctionFormGeneralisesSupplier<V>(op: Outcome<V>, s: Supplier<V>)
    ensures FallbackFunction(op, e => s()).out == FallbackSupplier(op, s).out
  {
  }

  /** No second fallback: what the substitute throws comes out as it is. */
  lemma SubstituteExceptionPropagates<V>(op: Outcome<V>, s: Supplier<V>, f: ExceptionFunction<V>)
    requires Caught(op)
    ensures s().Throws? ==> FallbackSupplier(op, s).out == Throws(s().e)
    ensures f(op.e).Throws? ==> FallbackFunction(op, f).out == Throws(f(op.e).e)
  {
  }

  /**
   * The exception the callable threw never comes out of `fallback`: after a
   * caught Exception the outcome is the substitute's, which is never a checked
   * exception.
   */
  lemma OriginalExceptionNeverPropagates<V>(op: Outcome<V>, s: Supplier<V>, f: ExceptionFunction<V>)
    requires Caught(op) && op.e.kind == Checked
    ensures FallbackSupplier(op, s).out != op
    ensures FallbackFunction(op, f).out != op
  {
  }
}
