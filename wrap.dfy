/**
 * The `Wrap` class: run a callable and turn the exception it throws into a
 * RuntimeException chosen by a handler. `Wrap` leaves RuntimeExceptions alone;
 * `WrapAll` translates them too.
 *
 * A Runner is a callable that yields no value, so the Runner forms take the
 * runner's outcome as an `Outcome<()>` and apply the callable form to it.
 */
module Wrap {
  import opened Throwables
  import opened Strategies

  /** Wrap's handler interface: `RuntimeException handle(Exception e)`. */
  type Handler = Translator

  /** `using(f)`: the handler that applies the function to each exception. */
  function Using(f: Exc -> UncheckedOutcome<RuntimeExc>): (h: Handler)
    ensures forall e :: h(e) == f(e)
  {
    e => f(e)
  }

  /**
   * `wrap(callable, handler)`: runs the callable once and returns its value; a
   * RuntimeException, or anything that is not an Exception, is rethrown as it
   * is; a checked exception goes to the handler, and what the handler yields
   * is thrown.
   */
  function Wrap<V>(op: Outcome<V>, h: Handler): (r: Run<V>)
    ensures TranslatesChecked(op, h, r)
    ensures r.out.Throws? ==> r.out.e.kind != Checked
  {
    CallOnly();
    match op
    case Ok(v) => Run([Called], Ok(v))
    case Throws(e) =>
      if e.kind == Checked then
        CallThenHandle(e);
        Run([Called, Handled(e)], Throws(Raised(h(e))))
      else
        Run([Called], Throws(e))
  }

  /** `wrap(handler, callable)`. */
  function WrapHandlerFirst<V>(h: Handler, op: Outcome<V>): (r: Run<V>)
    ensures TranslatesChecked(op, h, r)
  {
    Wrap(op, h)
  }

  /** `wrap(callable)`: `wrap` with the default translator, which builds a RuntimeException caused by the exception. */
  function WrapDefault<V>(op: Outcome<V>): (r: Run<V>)
    ensures TranslatesChecked(op, RuntimeExceptionNew, r)
    ensures op.Throws? && op.e.kind == Checked ==>
              && HandlerArgs(r.trace) == [op.e]
              && r.out.Throws?
              && r.out.e.cls == RuntimeExceptionClass
              && r.out.e.kind == Unchecked
              && Cause(r.out.e) == Some(op.e)
    ensures !(op.Throws? && op.e.kind == Checked) ==> forall h :: r == Wrap(op, h)
  {
    Wrap(op, Using(RuntimeExceptionNew))
  }

  /**
   * `wrapAll(callable, handler)`: runs the callable once and returns its
   * value; every Exception, a RuntimeException included, goes to the handler,
   * and what the handler yields is thrown; anything else is rethrown as it is.
   */
  function WrapAll<V>(op: Outcome<V>, h: Handler): (r: Run<V>)
    ensures TranslatesAll(op, h, r)
    ensures r.out.Throws? ==> r.out.e.kind != Checked
  {
    CallOnly();
    match op
    case Ok(v) => Run([Called], Ok(v))
    case Throws(e) =>
      if e.kind != NonException then
        CallThenHandle(e);
        Run([Called, Handled(e)], Throws(Raised(h(e))))
      else
        Run([Called], Throws(e))
  }

  /** `wrapAll(handler, callable)`. */
  function WrapAllHandlerFirst<V>(h: Handler, op: Outcome<V>): (r: Run<V>)
    ensures TranslatesAll(op, h, r)
  {
    WrapAll(op, h)
  }

  /** `wrap(runner)`. */
  function WrapRunnerDefault(runner: Outcome<()>): (r: Run<()>)
    ensures TranslatesChecked(runner, RuntimeExceptionNew, r)
  {
    WrapDefault(runner)
  }

  /** `wrap(runner, handler)`. */
  function WrapRunner(runner: Outcome<()>, h: Handler): (r: Run<()>)
    ensures TranslatesChecked(runner, h, r)
  {
    Wrap(runner, h)
  }

  /** `wrap(handler, runner)`. */
  function WrapRunnerHandlerFirst(h: Handler, runner: Outcome<()>): (r: Run<()>)
    ensures TranslatesChecked(runner, h, r)
  {
    WrapRunner(runner, h)
  }

  /** `wrapAll(runner, handler)`. */
  function WrapAllRunner(runner: Outcome<()>, h: Handler): (r: Run<()>)
    ensures TranslatesAll(runner, h, r)
  {
    WrapAll(runner, h)
  }

  /** `wrapAll(handler, runner)`. */
  function WrapAllRunnerHandlerFirst(h: Handler, runner: Outcome<()>): (r: Run<()>)
    ensures TranslatesAll(runner, h, r)
  {
    WrapAllRunner(runner, h)
  }

  /** The handler-first overloads behave as the callable-first ones. */
  lemma ArgumentOrderIrrelevant<V>(op: Outcome<V>, h: Handler)
    ensures WrapHandlerFirst(h, op) == Wrap(op, h)
    ensures WrapAllHandlerFirst(h, op) == WrapAll(op, h)
  {
  }

  /**
   * The Runner overloads, in either argument order, are the callable forms
   * applied to the runner's outcome.
   */
  lemma RunnerFormsDelegate(runner: Outcome<()>, h: Handler)
    ensures WrapRunnerDefault(runner) == WrapDefault(runner)
    ensures WrapRunner(runner, h) == Wrap(runner, h)
    ensures WrapRunnerHandlerFirst(h, runner) == Wrap(runner, h)
    ensures WrapAllRunner(runner, h) == WrapAll(runner, h)
    ensures WrapAllRunnerHandlerFirst(h, runner) == WrapAll(runner, h)
  {
  }

  /** `wrap` and `wrapAll` differ exactly on a RuntimeException: only `wrapAll` translates it. */
  lemma WrapDiffersFromWrapAllOnlyOnRuntime<V>(op: Outcome<V>, h: Handler)
    ensures Wrap(op, h) != WrapAll(op, h) <==> op.Throws? && op.e.kind == Unchecked
  {
    if op.Throws? && op.e.kind == Unchecked {
      assert HandlerArgs(Wrap(op, h).trace) != HandlerArgs(WrapAll(op, h).trace);
    }
  }

  /** `wrap(callable)` sets no cause on a RuntimeException it rethrows: the very exception comes out. */
  lemma DefaultWrapRethrowsRuntime<V>(op: Outcome<V>)
    requires op.Throws? && op.e.kind == Unchecked
    ensures WrapDefault(op).out == Throws(op.e)
    ensures HandlerArgs(WrapDefault(op).trace) == []
  {
  }

  /**
   * `wrap` applied around a callable that is itself `wrap(...)`, once for each
   * handler of `hs` (the innermost first).
   */
  function NestedWrap<V>(op: Outcome<V>, hs: seq<Handler>): Outcome<V>
    decreases |hs|
  {
    if hs == [] then op else Wrap(NestedWrap(op, hs[..|hs| - 1]), hs[|hs| - 1]).out
  }

  /**
   * No double wrapping: whatever the outer handlers are, nesting `wrap` calls
   * ends as the innermost `wrap` alone, because what it throws is already a
   * RuntimeException.
   */
  lemma {:induction false} NestedWrapIsInnermostWrap<V>(op: Outcome<V>, hs: seq<Handler>)
    requires hs != []
    ensures NestedWrap(op, hs) == Wrap(op, hs[0]).out
    decreases |hs|
  {
    var init := hs[..|hs| - 1];
    if init == [] {
      assert NestedWrap(op, init) == op;
    } else {
      NestedWrapIsInnermostWrap(op, init);
      assert init[0] == hs[0];
      var inner := Wrap(op, hs[0]).out;
      assert inner.Throws? ==> inner.e.kind != Checked;
      assert Wrap(inner, hs[|hs| - 1]).out == inner;
    }
  }

  /** An outer `wrap` never calls its handler on what an inner `wrap` throws. */
  lemma OuterWrapNeverTranslates<V>(op: Outcome<V>, inner: Handler, outer: Handler)
    ensures Wrap(Wrap(op, inner).out, outer).out == Wrap(op, inner).out
    ensures HandlerArgs(Wrap(Wrap(op, inner).out, outer).trace) == []
  {
  }

  /** `wrapAll(..., using(RuntimeException::new))` around itself `n` times. */
  function NestedWrapAllDefault<V>(op: Outcome<V>, n: nat): Outcome<V>
  {
    if n == 0 then op else WrapAll(NestedWrapAllDefault(op, n - 1), Using(RuntimeExceptionNew)).out
  }

  /**
   * `wrapAll` re-wraps what it is given: with `RuntimeException::new` each of
   * `n` nested layers adds one RuntimeException in front of the cause chain
   * of the original Exception, which stays intact at its end.
   */
  lemma {:induction false} NestedWrapAllExtendsCauseChain<V>(op: Outcome<V>, n: nat)
    requires Caught(op)
    ensures Caught(NestedWrapAllDefault(op, n))
    ensures |Causes(NestedWrapAllDefault(op, n).e)| == n + |Causes(op.e)|
    ensures Causes(NestedWrapAllDefault(op, n).e)[n..] == Causes(op.e)
    ensures forall i :: 0 <= i < n ==> Causes(NestedWrapAllDefault(op, n).e)[i].cls == RuntimeExceptionClass
  {
    if n > 0 {
      NestedWrapAllExtendsCauseChain(op, n - 1);
      var inner := NestedWrapAllDefault(op, n - 1);
      var x := NewRuntimeException(inner.e);
      assert NestedWrapAllDefault(op, n) == Throws(x);
      assert Causes(x) == [x] + Causes(inner.e);
      assert Causes(x)[n..] == Causes(inner.e)[n - 1..];
      forall i | 0 <= i < n
        ensures Causes(x)[i].cls == RuntimeExceptionClass
      {
        if i > 0 {
          assert Causes(x)[i] == Causes(inner.e)[i - 1];
        }
      }
    }
  }

  /** Anything that is not an Exception leaves every nesting of `wrapAll` untouched. */
  lemma {:induction false} NestedWrapAllPassesNonExceptions<V>(op: Outcome<V>, n: nat)
    requires !Caught(op)
    ensures NestedWrapAllDefault(op, n) == op
  {
    if n > 0 {
      NestedWrapAllPassesNonExceptions(op, n - 1);
    }
  }
}
