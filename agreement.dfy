/**
 * The classes that implement the same strategy behave alike: given the same
 * callback they end the same way and report the same trace.
 */
module Agreement {
  import opened Throwables
  import opened Strategies
  import Wrap
  import Wrapper
  import Swallow
  import Cleanup
  import Handler
  import Fallback
  import Fallbacker

  /** `Wrapper` with a function `f` is `Wrap` with the handler `using(f)`. */
  lemma WrapperAgreesWithWrap<V>(op: Outcome<V>, f: Translator)
    ensures Wrapper.Wrap(op, f) == Wrap.Wrap(op, Wrap.Using(f))
    ensures Wrapper.WrapAll(op, f) == Wrap.WrapAll(op, Wrap.Using(f))
    ensures Wrapper.WrapDefault(op) == Wrap.WrapDefault(op)
  {
  }

  /**
   * `cleanup`, `swallow` and `handle` are the same catch-and-dispatch: same
   * outcome, same trace, for every callable and callback.
   */
  lemma DispatchersAgree<V>(op: Outcome<V>, h: Callback)
    ensures Cleanup.Cleanup(op, h) == Swallow.Swallow(op, h)
    ensures Handler.Handle(op, h) == Cleanup.Cleanup(op, h)
    ensures Cleanup.Cleanup(op, Cleanup.With(h)) == Swallow.Swallow(op, Swallow.UsingLogger(h))
  {
  }

  /** `Fallbacker` and `Fallback` substitute the same way. */
  lemma FallbackersAgree<V>(op: Outcome<V>, value: V, s: () -> UncheckedOutcome<V>, f: Exc -> UncheckedOutcome<V>)
    ensures Fallbacker.FallbackSupplier(op, s) == Fallback.FallbackSupplier(op, Fallback.ToSupplier(s))
    ensures Fallbacker.FallbackFunction(op, f) == Fallback.FallbackFunction(op, Fallback.ToFunction(f))
    ensures Fallbacker.FallbackValue(op, value).out == Fallback.FallbackSupplier(op, Fallback.ToValue(value)).out
  {
  }
}
