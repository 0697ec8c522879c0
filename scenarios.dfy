/**
 * The library's unit tests, stated as facts about the model. `Foo` and `Bar`
 * are the test helpers: `Foo` throws an IllegalArgumentException for a value
 * that is not a Number and returns it otherwise; `Bar` always throws a
 * checked Exception.
 *
 * The values the tests pass around are `JavaValue`s, so that `Foo` can ask
 * what the test's `instanceof Number` asks. `System.out::println` has only a
 * side effect, which is not modelled, so as a logger or consumer it is
 * `Swallow.NoOp`.
 */
module Scenarios {
  import opened Throwables
  import opened Strategies
  import Wrap
  import Swallow
  import Cleanup
  import Fallback
  import Fallbacker

  const ExceptionClass: string := "java.lang.Exception"
  const IllegalArgumentClass: string := "java.lang.IllegalArgumentException"
  const IllegalStateClass: string := "java.lang.IllegalStateException"

  function IllegalArgument(msg: string): Exc
  {
    NewException(IllegalArgumentClass, Unchecked, msg)
  }

  function IllegalState(msg: string): Exc
  {
    NewException(IllegalStateClass, Unchecked, msg)
  }

  function CheckedException(msg: string): Exc
  {
    NewException(ExceptionClass, Checked, msg)
  }

  /** The values the tests use: a boxed number, a string, a list of numbers, a plain `Object`. */
  datatype JavaValue = Number(n: int) | Str(s: string) | ListOf(items: seq<int>) | PlainObject

  /** `TestHelper.foo(val)`: the value if it is a Number, else an IllegalArgumentException. */
  function Foo(val: JavaValue): (r: Outcome<JavaValue>)
    ensures r.Ok? <==> val.Number?
    ensures r.Ok? ==> r.v == val
    ensures r.Throws? ==> r.e == IllegalArgument("Not a number")
  {
    if val.Number? then Ok(val) else Throws(IllegalArgument("Not a number"))
  }

  /** `TestHelper.bar()`: a `void` method that always throws a checked Exception. */
  function Bar(): (r: Outcome<()>)
    ensures r.Throws? && r.e.kind == Checked && Message(r.e) == Some("Not a number")
  {
    Throws(CheckedException("Not a number"))
  }

  /**
   * The default `wrap` of a callable that throws a checked Exception with the
   * message "bla bla": a RuntimeException comes out, and its cause carries
   * that message.
   */
  lemma DefaultWrapOfChecked()
    ensures var out := Wrap.WrapDefault<int>(Throws(CheckedException("bla bla"))).out;
            && out.Throws? && out.e.kind == Unchecked
            && Cause(out.e).Some? && Message(Cause(out.e).value) == Some("bla bla")
  {
  }

  /** The default `wrap` of a callable that throws an IllegalArgumentException: that exception comes out. */
  lemma DefaultWrapOfRuntime()
    ensures Wrap.WrapDefault<int>(Throws(IllegalArgument("bla bla"))).out == Throws(IllegalArgument("bla bla"))
  {
  }

  /** The test's handler that builds an IllegalArgumentException caused by the exception it is given. */
  function ToIllegalArgument(e: Exc): (t: UncheckedOutcome<RuntimeExc>)
    ensures t.Ok? && t.v.cls == IllegalArgumentClass && Cause(t.v) == Some(e)
  {
    Ok(Exc(IllegalArgumentClass, Unchecked, FromCause, Some(e)))
  }

  /**
   * `wrap` with that handler, of a callable that throws a checked Exception:
   * an IllegalArgumentException comes out, caused by the original.
   */
  lemma WrapWithHandler()
    ensures var out := Wrap.Wrap<int>(Throws(CheckedException("bla bla")), ToIllegalArgument).out;
            && out.Throws? && out.e.cls == IllegalArgumentClass
            && Cause(out.e).Some? && Message(Cause(out.e).value) == Some("bla bla")
  {
  }

  /**
   * `wrapAll` of a callable that throws an IllegalArgumentException, with a
   * handler that builds a RuntimeException from it, used directly and through
   * `using`: the RuntimeException is translated too.
   */
  lemma WrapAllOfRuntime()
    ensures var out := Wrap.WrapAll<int>(Throws(IllegalArgument("bla bla")), RuntimeExceptionNew).out;
            && out.Throws? && Cause(out.e) == Some(IllegalArgument("bla bla"))
            && Message(Cause(out.e).value) == Some("bla bla")
    ensures Wrap.WrapAll<int>(Throws(IllegalArgument("bla bla")), Wrap.Using(RuntimeExceptionNew))
         == Wrap.WrapAll<int>(Throws(IllegalArgument("bla bla")), RuntimeExceptionNew)
  {
  }

  /** The `fallback(..., to(...))` calls of the Fallback test. */
  lemma FallbackToValues()
    ensures Fallback.FallbackSupplier(Ok(Number(3)), Fallback.ToValue(Number(2))).out == Ok(Number(3))
    ensures Fallback.FallbackSupplier(Foo(Number(3)), Fallback.ToValue(Number(2))).out == Ok(Number(3))
    ensures Fallback.FallbackSupplier(Foo(ListOf([])), Fallback.ToValue(ListOf([1]))).out == Ok(ListOf([1]))
    ensures Fallback.FallbackFunction(Foo(Str("")), Fallback.ToFunction(e => Ok(Str("2")))).out == Ok(Str("2"))
  {
  }

  /** The supplier and function forms of the Fallbacker test, on an IllegalStateException. */
  lemma FallbackerSubstitutes()
    ensures Fallbacker.FallbackSupplier(Throws(IllegalState("")), () => Ok(2)).out == Ok(2)
    ensures Fallbacker.FallbackFunction(Throws(IllegalState("")), e => Ok(2)).out == Ok(2)
  {
  }

  /**
   * The test's consumer that asserts the class of the exception it is given:
   * it returns when `e` is of class `cls` and otherwise throws an
   * AssertionError, which is an Error and so no Exception.
   */
  function AssertClass(cls: string): (c: Callback)
    ensures forall e :: c(e).Ok? <==> e.cls == cls
    ensures forall e :: c(e).Throws? ==> c(e).e.kind == NonException
  {
    (e: Exc) => if e.cls == cls then Ok(()) else Throws(NewException("java.lang.AssertionError", NonException, ""))
  }

  /**
   * The Cleanup test: the assertion handler sees the helper's
   * IllegalArgumentException and returns, in both argument orders; the
   * printing handler is not called when the helper succeeds and sees the
   * checked Exception of `bar`; every call returns normally. `bar` is a `void`
   * method, so the calls that pass it reach the Runner overloads.
   */
  lemma CleanupScenarios()
    ensures var r := Cleanup.Cleanup(Foo(PlainObject), Cleanup.With(AssertClass(IllegalArgumentClass)));
            r.out == Ok(()) && HandlerArgs(r.trace) == [IllegalArgument("Not a number")]
    ensures var r := Cleanup.CleanupHandlerFirst(Cleanup.With(AssertClass(IllegalArgumentClass)), Foo(PlainObject));
            r.out == Ok(()) && HandlerArgs(r.trace) == [IllegalArgument("Not a number")]
    ensures var r := Cleanup.CleanupHandlerFirst(Cleanup.With(Swallow.NoOp), Foo(Number(2)));
            r.out == Ok(()) && HandlerArgs(r.trace) == []
    ensures var r := Cleanup.CleanupRunner(Bar(), Cleanup.With(Swallow.NoOp));
            r.out == Ok(()) && HandlerArgs(r.trace) == [CheckedException("Not a number")]
    ensures var r := Cleanup.CleanupRunnerHandlerFirst(Cleanup.With(Swallow.NoOp), Bar());
            r.out == Ok(()) && HandlerArgs(r.trace) == [CheckedException("Not a number")]
  {
  }

  /**
   * The Swallow test: with a printing logger, in both argument orders, the
   * helper's IllegalArgumentException and `bar`'s checked Exception are
   * logged and swallowed, and a successful helper logs nothing. The calls
   * that pass the `void` method `bar` reach the Runner overloads.
   */
  lemma SwallowScenarios()
    ensures var r := Swallow.Swallow(Foo(PlainObject), Swallow.UsingLogger(Swallow.NoOp));
            r.out == Ok(()) && HandlerArgs(r.trace) == [IllegalArgument("Not a number")]
    ensures var r := Swallow.SwallowHandlerFirst(Swallow.UsingLogger(Swallow.NoOp), Foo(PlainObject));
            r.out == Ok(()) && HandlerArgs(r.trace) == [IllegalArgument("Not a number")]
    ensures var r := Swallow.SwallowHandlerFirst(Swallow.UsingLogger(Swallow.NoOp), Foo(Number(2)));
            r.out == Ok(()) && HandlerArgs(r.trace) == []
    ensures var r := Swallow.SwallowRunner(Bar(), Swallow.UsingLogger(Swallow.NoOp));
            r.out == Ok(()) && HandlerArgs(r.trace) == [CheckedException("Not a number")]
    ensures var r := Swallow.SwallowRunnerHandlerFirst(Swallow.UsingLogger(Swallow.NoOp), Bar());
            r.out == Ok(()) && HandlerArgs(r.trace) == [CheckedException("Not a number")]
  {
  }
}
