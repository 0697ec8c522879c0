/**
 * The `Wrapper` class: the same two wrapping strategies as `Wrap`, with the
 * translator given directly as a `Function<Exception, RuntimeException>`.
 *
 * The Runner forms take the runner's outcome as an `Outcome<()>` and apply
 * the callable form to it.
 */
module Wrapper {
  import opened Throwables
  import opened Strategies

  /**
   * `wrap(callable, exceptionFunction)`: runs the callable once and returns
   * its value; a RuntimeException, or anything that is not an Exception, is
   * rethrown as it is; a checked exception is given to the function, and the
   * RuntimeException it yields is thrown.
   */
  function Wrap<V>(op: Outcome<V>, f: Translator): (r: Run<V>)
    ensures TranslatesChecked(op, f, r)
    ensures r.out.Throws? ==> r.out.e.kind != Checked
  {
    CallOnly();
    match op
    case Ok(v) => Run([Called], Ok(v))
    case Throws(e) =>
      if e.kind == Checked then
        CallThenHandle(e);
        Run([Called, Handled(e)], Throws(Raised(f(e))))
      else
        Run([Called], Throws(e))
  }

  /** `wrap(callable)`: `wrap` with the default translator, which builds a RuntimeException caused by the exception. */
  function WrapDefault<V>(op: Outcome<V>): (r: Run<V>)
    ensures TranslatesChecked(op, RuntimeExceptionNew, r)
    ensures op.Throws? && op.e.kind == Checked ==>
              && HandlerArgs(r.trace) == [op.e]
              && r.out.Throws?
              && r.out.e.cls == RuntimeExceptionClass
              && r.out.e.kind == Unchecked
              && Cause(r.out.e) == Some(op.e)
    ensures !(op.Throws? && op.e.kind == Checked) ==> forall f :: r == Wrap(op, f)
  {
    Wrap(op, RuntimeExceptionNew)
  }

  /**
   * `wrapAll(callable, exceptionFunction)`: runs the callable once and returns
   * its value; every Exception is given to the function, and what it yields is
   * thrown; anything else is rethrown as it is.
   */
  function WrapAll<V>(op: Outcome<V>, f: Translator): (r: Run<V>)
    ensures TranslatesAll(op, f, r)
    ensures r.out.Throws? ==> r.out.e.kind != Checked
  {
    CallOnly();
    match op
    case Ok(v) => Run([Called], Ok(v))
    case Throws(e) =>
      if e.kind != NonException then
        CallThenHandle(e);
        Run([Called, Handled(e)], Throws(Raised(f(e))))
      else
        Run([Called], Throws(e))
  }

  /** `wrap(runner)`. */
  function WrapRunnerDefault(runner: Outcome<()>): (r: Run<()>)
    ensures TranslatesChecked(runner, RuntimeExceptionNew, r)
  {
    WrapDefault(runner)
  }

  /** `wrap(runner, exceptionFunction)`. */
  function WrapRunner(runner: Outcome<()>, f: Translator): (r: Run<()>)
    ensures TranslatesChecked(runner, f, r)
  {
    Wrap(runner, f)
  }

  /** `wrapAll(runner, exceptionFunction)`. */
  function WrapAllRunner(runner: Outcome<()>, f: Translator): (r: Run<()>)
    ensures TranslatesAll(runner, f, r)
  {
    WrapAll(runner, f)
  }

  /** The Runner overloads are the callable forms with the same function. */
  lemma RunnerFormsDelegate(runner: Outcome<()>, f: Translator)
    ensures WrapRunnerDefault(runner) == WrapDefault(runner)
    ensures WrapRunner(runner, f) == Wrap(runner, f)
    ensures WrapAllRunner(runner, f) == WrapAll(runner, f)
  {
  }
}
