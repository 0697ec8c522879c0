# exceptionhandler, modelled in Dafny

A model of a small Java library of exception-handling combinators. Each
combinator runs a caller-supplied `Callable` (or `Runner`) once inside one
`try`/`catch` and applies a fixed strategy to what it throws:

- **Wrap / Wrapper** turn an exception into a `RuntimeException` chosen by a
  translator. `wrap` rethrows a `RuntimeException` as it is and translates only
  checked exceptions; `wrapAll` translates every `Exception`.
- **Swallow / Cleanup / Handler** hand a caught `Exception` to a callback and
  return normally.
- **Fallback / Fallbacker** return a substitute on failure: a constant, a
  supplier's value, or a value computed from the exception.

## How the model is built

- `Throwables` (throwables.dfy) holds the shared vocabulary. A throwable is
  `Exc(cls, kind, detail, cause)`. Its `kind` is what a `catch` clause looks
  at: `Checked` (an `Exception` but not a `RuntimeException`), `Unchecked`
  (the `RuntimeException` family) or `NonException` (an `Error` or any other
  `Throwable` that `catch (Exception e)` does not stop).
- The callable is modelled by the `Outcome<V>` of its one invocation:
  `Ok(v)` or `Throws(e)`.
- Every combinator returns a `Run`: a trace of what it did and how it ended.
  The trace events are `Called` (the callable ran), `Handled(e)` (a callback
  received `e`) and `Supplied` (a supplier was asked for a value). The
  observers `CallCount`, `HandlerArgs` and `SupplierCalls` can then state
  "the callable runs once", "the handler gets exactly `e`" and "the supplier
  is never asked".
- Handlers, translators, consumers, loggers, suppliers and fallback
  functions are Dafny function values. Each returns an `UncheckedOutcome`: it
  may return or throw, but never throw a checked exception, because none of
  those Java interfaces declares `throws`. A translator returns a
  `RuntimeExc`, a throwable of kind `Unchecked`.
- `Strategies` (strategies.dfy) states each strategy once as a predicate
  relating the callable's outcome, the callback and the run:
  `TranslatesChecked`, `TranslatesAll`, `Dispatches`, `SuppliesOnFailure`,
  `ComputesOnFailure`. Each Java class is a module with its own `try`/`catch`
  as a `match`. Every form that takes a callback or a supplier is proved
  against the predicate for its strategy. `wrap(callable)` and
  `swallow(callable)` are proved against it with their default callbacks, and
  carry extra clauses of their own on top. `Fallbacker`'s
  `fallback(callable, value)` calls nothing but the callable, so it fits
  none of the predicates and carries a contract of its own.
- `Agreement` proves that classes sharing a strategy give equal runs for the
  same callback. `Scenarios` restates the unit tests.
- Runner overloads take the runner's outcome as an `Outcome<()>` and apply the
  callable form to it. This assumes that `Callables.from` runs the runner
  once, yields no value and lets its throwable through unchanged.
  `Callables.from` is not part of this model.

Three behaviours of the code are easy to misread, and the model states them
as the code has them:

- A throwable that is not an `Exception` escapes `swallow` and `cleanup`, and
  so does an exception thrown by the handler (Swallow.java:89-93,
  Cleanup.java:73-77).
- `wrap` never sets a cause itself: it throws whatever the translator
  returns. Of the library's own code, only the default translator,
  `RuntimeException::new`, links the original as the cause (Wrap.java:101, 115-118).
- `swallow(callable)` calls the no-op logger `e -> {}` (Swallow.java:112), so
  the trace shows one call to it.

## Model

| member | source | states |
|---|---|---|
| `Strategies.Raised` | src/main/java/io/github/ravichaturvedi/exceptionhandler/Wrap.java:117-118 | `throw handler.handle(e)` raises the translator's RuntimeException or the translator's own throwable, never a checked exception |
| `Strategies.RuntimeExceptionNew` | src/main/java/io/github/ravichaturvedi/exceptionhandler/Wrap.java:101 | `RuntimeException::new` always returns a `java.lang.RuntimeException` whose cause is the exception it was given |
| `Wrap.Using` | src/main/java/io/github/ravichaturvedi/exceptionhandler/Wrap.java:42-44 | `using(f)` is a handler that returns exactly `f(e)` for every `e` |
| `Wrap.Wrap` | src/main/java/io/github/ravichaturvedi/exceptionhandler/Wrap.java:112-120 | the callable runs once; its value is returned without calling the handler; a RuntimeException or non-Exception is rethrown unchanged without calling the handler; a checked exception goes to the handler exactly once and what the handler yields is thrown; no checked exception ever comes out |
| `Wrap.WrapDefault` | src/main/java/io/github/ravichaturvedi/exceptionhandler/Wrap.java:100-102 | a checked exception comes out as a `java.lang.RuntimeException` whose cause is that exception; on anything else the result is the same as with any handler |
| `Wrap.WrapAll` | src/main/java/io/github/ravichaturvedi/exceptionhandler/Wrap.java:142-148 | the callable runs once; its value is returned without calling the handler; every Exception, RuntimeExceptions included, goes to the handler exactly once and its result is thrown; a non-Exception escapes untouched |
| `Wrap.WrapHandlerFirst` | src/main/java/io/github/ravichaturvedi/exceptionhandler/Wrap.java:130-132 | `wrap(handler, callable)` meets the `wrap` strategy (`TranslatesChecked`) with the same handler; equals `Wrap.Wrap(op, h)` (`Wrap.ArgumentOrderIrrelevant`) |
| `Wrap.WrapAllHandlerFirst` | src/main/java/io/github/ravichaturvedi/exceptionhandler/Wrap.java:158-160 | `wrapAll(handler, callable)` meets the `wrapAll` strategy (`TranslatesAll`); equals `Wrap.WrapAll(op, h)` (`Wrap.ArgumentOrderIrrelevant`) |
| `Wrap.WrapRunnerDefault` | src/main/java/io/github/ravichaturvedi/exceptionhandler/Wrap.java:51-53 | `wrap(runner)` translates a checked exception of the runner with `RuntimeException::new` and passes everything else; equals `Wrap.WrapDefault` on the runner's outcome (`Wrap.RunnerFormsDelegate`) |
| `Wrap.WrapRunner` | src/main/java/io/github/ravichaturvedi/exceptionhandler/Wrap.java:61-63 | `wrap(runner, handler)` meets `TranslatesChecked` on the runner's outcome; equals `Wrap.Wrap` (`Wrap.RunnerFormsDelegate`) |
| `Wrap.WrapRunnerHandlerFirst` | src/main/java/io/github/ravichaturvedi/exceptionhandler/Wrap.java:71-73 | `wrap(handler, runner)` meets `TranslatesChecked` on the runner's outcome; equals `Wrap.Wrap` (`Wrap.RunnerFormsDelegate`) |
| `Wrap.WrapAllRunner` | src/main/java/io/github/ravichaturvedi/exceptionhandler/Wrap.java:80-82 | `wrapAll(runner, handler)` meets `TranslatesAll` on the runner's outcome; equals `Wrap.WrapAll` (`Wrap.RunnerFormsDelegate`) |
| `Wrap.WrapAllRunnerHandlerFirst` | src/main/java/io/github/ravichaturvedi/exceptionhandler/Wrap.java:89-91 | `wrapAll(handler, runner)` meets `TranslatesAll` on the runner's outcome; equals `Wrap.WrapAll` (`Wrap.RunnerFormsDelegate`) |
| `Wrap.ArgumentOrderIrrelevant` | src/main/java/io/github/ravichaturvedi/exceptionhandler/Wrap.java:130-160 | `wrap(handler, callable)` and `wrapAll(handler, callable)` equal the callable-first forms |
| `Wrap.RunnerFormsDelegate` | src/main/java/io/github/ravichaturvedi/exceptionhandler/Wrap.java:51-91 | all five Runner overloads, in both argument orders, equal the callable forms on the runner's outcome |
| `Wrap.WrapDiffersFromWrapAllOnlyOnRuntime` | src/main/java/io/github/ravichaturvedi/exceptionhandler/Wrap.java:112-148 | `wrap` and `wrapAll` give different runs if and only if the callable throws a RuntimeException |
| `Wrap.DefaultWrapRethrowsRuntime` | src/main/java/io/github/ravichaturvedi/exceptionhandler/Wrap.java:100-116 | `wrap(callable)` rethrows a RuntimeException itself, with no translation and no cause added |
| `Wrap.NestedWrapIsInnermostWrap` | src/main/java/io/github/ravichaturvedi/exceptionhandler/Wrap.java:112-120 | no double wrapping: any number of nested `wrap` calls, with any outer handlers, end as the innermost `wrap` alone |
| `Wrap.OuterWrapNeverTranslates` | src/main/java/io/github/ravichaturvedi/exceptionhandler/Wrap.java:115-116 | an outer `wrap` passes on what an inner `wrap` yields and never calls its own handler |
| `Wrap.NestedWrapAllExtendsCauseChain` | src/main/java/io/github/ravichaturvedi/exceptionhandler/Wrap.java:142-148 | `n` nested `wrapAll(..., using(RuntimeException::new))` put `n` RuntimeExceptions in front of the original exception's cause chain, which stays intact |
| `Wrap.NestedWrapAllPassesNonExceptions` | src/main/java/io/github/ravichaturvedi/exceptionhandler/Wrap.java:145 | a value or a non-Exception throwable passes through any nesting of `wrapAll` unchanged |
| `Wrapper.Wrap` | src/main/java/io/github/ravichaturvedi/exceptionhandler/Wrapper.java:78-86 | as `Wrap.Wrap`, with `exceptionFunction.apply(e)` thrown for a checked exception `e` |
| `Wrapper.WrapDefault` | src/main/java/io/github/ravichaturvedi/exceptionhandler/Wrapper.java:66-68 | a checked exception comes out as a `java.lang.RuntimeException` caused by it; anything else as with any function |
| `Wrapper.WrapAll` | src/main/java/io/github/ravichaturvedi/exceptionhandler/Wrapper.java:96-102 | as `Wrap.WrapAll`, with `exceptionFunction.apply(e)` thrown for every Exception `e` |
| `Wrapper.WrapRunnerDefault` | src/main/java/io/github/ravichaturvedi/exceptionhandler/Wrapper.java:34-36 | `wrap(runner)` translates a checked exception of the runner with `RuntimeException::new`; equals `Wrapper.WrapDefault` (`Wrapper.RunnerFormsDelegate`) |
| `Wrapper.WrapRunner` | src/main/java/io/github/ravichaturvedi/exceptionhandler/Wrapper.java:44-46 | `wrap(runner, exceptionFunction)` meets `TranslatesChecked` on the runner's outcome; equals `Wrapper.Wrap` (`Wrapper.RunnerFormsDelegate`) |
| `Wrapper.WrapAllRunner` | src/main/java/io/github/ravichaturvedi/exceptionhandler/Wrapper.java:54-56 | `wrapAll(runner, exceptionFunction)` meets `TranslatesAll` on the runner's outcome; equals `Wrapper.WrapAll` (`Wrapper.RunnerFormsDelegate`) |
| `Wrapper.RunnerFormsDelegate` | src/main/java/io/github/ravichaturvedi/exceptionhandler/Wrapper.java:34-56 | the three Runner overloads equal the callable forms with the same function |
| `Agreement.WrapperAgreesWithWrap` | src/main/java/io/github/ravichaturvedi/exceptionhandler/Wrapper.java:78-102 | `Wrapper.wrap`, `wrapAll` and the default `wrap` give the same run as `Wrap`'s with `using(f)` |
| `Swallow.UsingLogger` | src/main/java/io/github/ravichaturvedi/exceptionhandler/Swallow.java:49-51 | `usingLogger(l)` is a handler that does exactly what `l.log(e)` does, on the same `e` |
| `Swallow.NoOp` | src/main/java/io/github/ravichaturvedi/exceptionhandler/Swallow.java:112 | the logger `e -> {}` returns normally on every exception |
| `Swallow.Swallow` | src/main/java/io/github/ravichaturvedi/exceptionhandler/Swallow.java:88-94 | the callable runs once; on success the value is discarded, the handler is not called and the call returns normally; a caught Exception goes to the handler exactly once and the call ends as the handler ends; a non-Exception escapes |
| `Swallow.SwallowSilently` | src/main/java/io/github/ravichaturvedi/exceptionhandler/Swallow.java:111-113 | `swallow(callable)` lets out no Exception: it throws if and only if the callable threw a non-Exception, and then that very throwable |
| `Swallow.SwallowHandlerFirst` | src/main/java/io/github/ravichaturvedi/exceptionhandler/Swallow.java:102-104 | `swallow(handler, callable)` meets the dispatch strategy (`Dispatches`) with the same handler; equals `Swallow.Swallow` (`Swallow.ArgumentOrderIrrelevant`) |
| `Swallow.SwallowRunner` | src/main/java/io/github/ravichaturvedi/exceptionhandler/Swallow.java:59-61 | `swallow(runner, handler)` meets `Dispatches` on the runner's outcome; equals `Swallow.Swallow` (`Swallow.RunnerFormsDelegate`) |
| `Swallow.SwallowRunnerHandlerFirst` | src/main/java/io/github/ravichaturvedi/exceptionhandler/Swallow.java:69-71 | `swallow(handler, runner)` meets `Dispatches` on the runner's outcome; equals `Swallow.Swallow` (`Swallow.RunnerFormsDelegate`) |
| `Swallow.SwallowRunnerSilently` | src/main/java/io/github/ravichaturvedi/exceptionhandler/Swallow.java:78-80 | `swallow(runner)` meets `Dispatches` with the no-op logger; equals `Swallow.SwallowSilently` (`Swallow.RunnerFormsDelegate`) |
| `Swallow.ArgumentOrderIrrelevant` | src/main/java/io/github/ravichaturvedi/exceptionhandler/Swallow.java:102-104 | `swallow(handler, callable)` equals `swallow(callable, handler)` |
| `Swallow.RunnerFormsDelegate` | src/main/java/io/github/ravichaturvedi/exceptionhandler/Swallow.java:59-80 | the Runner overloads, in both orders and without a handler, equal the callable forms |
| `Swallow.SwallowContainsExceptions` | src/main/java/io/github/ravichaturvedi/exceptionhandler/Swallow.java:88-94 | with a handler that returns normally, `swallow` returns normally unless the callable threw a non-Exception |
| `Swallow.HandlerExceptionPropagates` | src/main/java/io/github/ravichaturvedi/exceptionhandler/Swallow.java:91-92 | an exception the handler throws comes out of `swallow` |
| `Cleanup.With` | src/main/java/io/github/ravichaturvedi/exceptionhandler/Cleanup.java:42-44 | `with(consumer)` is a handler that does exactly what `consumer.accept(e)` does |
| `Cleanup.Cleanup` | src/main/java/io/github/ravichaturvedi/exceptionhandler/Cleanup.java:72-78 | the callable runs once; on success the handler is not called and the call returns normally; a caught Exception goes to the handler exactly once and the call ends as the handler ends; a non-Exception escapes |
| `Cleanup.CleanupHandlerFirst` | src/main/java/io/github/ravichaturvedi/exceptionhandler/Cleanup.java:86-88 | `cleanup(handler, callable)` meets `Dispatches` with the same handler; equals `Cleanup.Cleanup` (`Cleanup.ArgumentOrderIrrelevant`) |
| `Cleanup.CleanupRunner` | src/main/java/io/github/ravichaturvedi/exceptionhandler/Cleanup.java:52-54 | `cleanup(runner, handler)` meets `Dispatches` on the runner's outcome; equals `Cleanup.Cleanup` (`Cleanup.RunnerFormsDelegate`) |
| `Cleanup.CleanupRunnerHandlerFirst` | src/main/java/io/github/ravichaturvedi/exceptionhandler/Cleanup.java:62-64 | `cleanup(handler, runner)` meets `Dispatches` on the runner's outcome; equals `Cleanup.Cleanup` (`Cleanup.RunnerFormsDelegate`) |
| `Cleanup.ArgumentOrderIrrelevant` | src/main/java/io/github/ravichaturvedi/exceptionhandler/Cleanup.java:86-88 | `cleanup(handler, callable)` equals `cleanup(callable, handler)` |
| `Cleanup.RunnerFormsDelegate` | src/main/java/io/github/ravichaturvedi/exceptionhandler/Cleanup.java:52-64 | the Runner overloads, in both orders, equal the callable form |
| `Cleanup.HandlerExceptionPropagates` | src/main/java/io/github/ravichaturvedi/exceptionhandler/Cleanup.java:75-76 | an exception the handler throws comes out of `cleanup` |
| `Handler.Handle` | src/main/java/io/github/ravichaturvedi/exceptionhandler/Handler.java:45-51 | the callable runs once; on success the consumer is not called; a caught Exception goes to the consumer exactly once and the call ends as the consumer ends; a non-Exception escapes |
| `Handler.HandleRunner` | src/main/java/io/github/ravichaturvedi/exceptionhandler/Handler.java:35-37 | `handle(runner, consumer)` meets `Dispatches` on the runner's outcome; equals `Handler.Handle` (`Handler.RunnerFormDelegates`) |
| `Handler.RunnerFormDelegates` | src/main/java/io/github/ravichaturvedi/exceptionhandler/Handler.java:35-37 | the Runner overload equals the callable form with the same consumer |
| `Handler.ConsumerExceptionPropagates` | src/main/java/io/github/ravichaturvedi/exceptionhandler/Handler.java:48-49 | an exception the consumer throws comes out of `handle` |
| `Agreement.DispatchersAgree` | src/main/java/io/github/ravichaturvedi/exceptionhandler/Cleanup.java:72-78 | `cleanup`, `swallow` and `handle` give equal runs (outcome and trace) for the same callback, also through `with` and `usingLogger` |
| `Fallback.ToValue` | src/main/java/io/github/ravichaturvedi/exceptionhandler/Fallback.java:35-37 | `to(value)` is a supplier that returns `value` |
| `Fallback.ToSupplier` | src/main/java/io/github/ravichaturvedi/exceptionhandler/Fallback.java:45-47 | `to(valueSupplier)` supplies what `valueSupplier` supplies; it is `valueSupplier` itself (`Fallback.ToReturnsArgument`) |
| `Fallback.ToFunction` | src/main/java/io/github/ravichaturvedi/exceptionhandler/Fallback.java:55-57 | `to(fallbackFunc)` maps every exception as `fallbackFunc` does; it is `fallbackFunc` itself (`Fallback.ToReturnsArgument`) |
| `Fallback.ToReturnsArgument` | src/main/java/io/github/ravichaturvedi/exceptionhandler/Fallback.java:45-57 | `to(supplier)` and `to(function)` return their argument |
| `Fallback.FallbackSupplier` | src/main/java/io/github/ravichaturvedi/exceptionhandler/Fallback.java:66-72 | the callable runs once; its value is returned and the supplier is not asked; on a caught Exception the supplier is asked once and its outcome is the result; a non-Exception escapes |
| `Fallback.FallbackFunction` | src/main/java/io/github/ravichaturvedi/exceptionhandler/Fallback.java:81-87 | the callable runs once; its value is returned and the function is not applied; a caught Exception `e` goes to the function once and its outcome is the result; a non-Exception escapes |
| `Fallback.FallbackToConstant` | src/main/java/io/github/ravichaturvedi/exceptionhandler/Fallback.java:35-72 | `fallback(callable, to(c))` returns `c` on any caught Exception and the callable's value on success |
| `Fallback.FunctionFormGeneralisesSupplier` | src/main/java/io/github/ravichaturvedi/exceptionhandler/Fallback.java:66-87 | the function form with `e -> s.get()` gives the supplier form's outcome |
| `Fallback.SubstituteExceptionPropagates` | src/main/java/io/github/ravichaturvedi/exceptionhandler/Fallback.java:69-85 | an exception the supplier or the function throws comes out, with no second fallback |
| `Fallback.OriginalExceptionNeverPropagates` | src/main/java/io/github/ravichaturvedi/exceptionhandler/Fallback.java:66-87 | a checked exception from the callable never comes out of `fallback` |
| `Fallbacker.FallbackValue` | src/main/java/io/github/ravichaturvedi/exceptionhandler/Fallbacker.java:35-41 | the callable runs once and nothing else is called; its value is returned on success, `value` on a caught Exception; a non-Exception escapes |
| `Fallbacker.FallbackSupplier` | src/main/java/io/github/ravichaturvedi/exceptionhandler/Fallbacker.java:50-56 | as `Fallback.FallbackSupplier`: on a caught Exception the result is `valueSupplier.get()` |
| `Fallbacker.FallbackFunction` | src/main/java/io/github/ravichaturvedi/exceptionhandler/Fallbacker.java:65-71 | as `Fallback.FallbackFunction`: on a caught Exception `e` the result is `valueFunction.apply(e)` |
| `Fallbacker.ValueIsConstantSupplier` | src/main/java/io/github/ravichaturvedi/exceptionhandler/Fallbacker.java:35-56 | the constant form ends as the supplier form with a constant supplier; only the supplier call differs |
| `Fallbacker.SubstituteExceptionPropagates` | src/main/java/io/github/ravichaturvedi/exceptionhandler/Fallbacker.java:50-71 | an exception the supplier or the function throws comes out |
| `Agreement.FallbackersAgree` | src/main/java/io/github/ravichaturvedi/exceptionhandler/Fallbacker.java:35-71 | `Fallbacker`'s supplier and function forms give the same runs as `Fallback`'s, and its constant form the outcome of `fallback(callable, to(value))` |
| `Scenarios.Foo` | src/test/java/io/github/ravichaturvedi/exceptionhandler/TestHelper.java:21-27 | `foo(val)` returns `val` exactly when it is a Number and otherwise throws `IllegalArgumentException("Not a number")` |
| `Scenarios.Bar` | src/test/java/io/github/ravichaturvedi/exceptionhandler/TestHelper.java:29-31 | `bar()` always throws a checked Exception with the message "Not a number" |
| `Scenarios.DefaultWrapOfChecked` | src/test/java/io/github/ravichaturvedi/exceptionhandler/TestWrap.java:29-33 | `wrap` of `new Exception("bla bla")` throws a RuntimeException whose cause has the message "bla bla" |
| `Scenarios.DefaultWrapOfRuntime` | src/test/java/io/github/ravichaturvedi/exceptionhandler/TestWrap.java:35-39 | `wrap` of `new IllegalArgumentException("bla bla")` throws that same exception |
| `Scenarios.ToIllegalArgument` | src/test/java/io/github/ravichaturvedi/exceptionhandler/TestWrap.java:42 | the test's handler returns an IllegalArgumentException whose cause is the exception it was given |
| `Scenarios.WrapWithHandler` | src/test/java/io/github/ravichaturvedi/exceptionhandler/TestWrap.java:41-45 | with `e -> new IllegalArgumentException(e)` the thrown exception is an IllegalArgumentException caused by the original |
| `Scenarios.WrapAllOfRuntime` | src/test/java/io/github/ravichaturvedi/exceptionhandler/TestWrap.java:47-57 | `wrapAll` translates an IllegalArgumentException, with or without `using`, and the cause is the original |
| `Scenarios.FallbackToValues` | src/test/java/io/github/ravichaturvedi/exceptionhandler/test/TestFallback.java:36-46 | the callable's value wins on success; `to(...)`'s value or function result is returned on failure |
| `Scenarios.FallbackerSubstitutes` | src/test/java/io/github/ravichaturvedi/exceptionhandler/TestFallbacker.java:35-39 | the supplier and function forms return 2 when an IllegalStateException is thrown |
| `Scenarios.AssertClass` | src/test/java/io/github/ravichaturvedi/exceptionhandler/test/TestCleanup.java:29-30 | the assertion consumer returns exactly when the exception has the expected class, and otherwise throws an AssertionError, which is no Exception |
| `Scenarios.CleanupScenarios` | src/test/java/io/github/ravichaturvedi/exceptionhandler/test/TestCleanup.java:29-34 | the five `cleanup` calls: the assertion handler sees the helper's IllegalArgumentException in both argument orders, the printing handler is not called on success and sees `bar`'s checked Exception, and every call returns normally |
| `Scenarios.SwallowScenarios` | src/test/java/io/github/ravichaturvedi/exceptionhandler/test/TestSwallow.java:28-33 | the five `swallow(..., usingLogger(...))` calls: both exceptions are logged and swallowed in both argument orders, and a successful helper logs nothing |

## Left out

- Object identity: exceptions are values, so "the same exception object" is
  modelled as "an equal exception". A translator that builds an equal copy
  cannot be told apart from one that returns its argument.
- The text of the message of `new RuntimeException(cause)`: it comes from the
  JDK and is modelled only as `FromCause`. Only the cause link is modelled.
- `Callables.from`, which turns a Runner into a Callable, is not part of this
  model. The Runner forms rest on the assumption stated above.
- Runner is only an interface declaration. It is modelled as a callable whose
  outcome is `Outcome<()>`.
- Checked exceptions thrown by a handler, supplier or function through
  tricks that bypass the Java compiler's check: the model rules them out by
  type.
- `NullPointerException`s from null handlers, null suppliers or a `null`
  translator result: JVM behaviour, not library logic.
- Side effects of the callable and of the handlers, logging included: only
  which throwable each callback received, and how often, is recorded.
- Overload resolution, generics and the raw `Function` accepted by
  `to(Function)`: Java typing details. Each overload is a separately named
  function.
- Test calls to API that the library does not have (`toFunc`, handler-first
  `fallback`, value-first `fallback`, `Swallow.with`) are not restated.
