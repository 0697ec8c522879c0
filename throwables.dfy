/**
 * Java's throwables, the outcome of one call, and the trace of callback
 * invocations that every combinator of the library reports.
 */
module Throwables {

  datatype Option<+T> = None | Some(value: T)

  /**
   * Where a throwable sits in Java's hierarchy, which is all a `catch` clause
   * looks at:
   *   Checked      - an Exception that is not a RuntimeException;
   *   Unchecked    - a RuntimeException or one of its subclasses
   *                  (IllegalArgumentException, IllegalStateException, ...);
   *   NonException - a Throwable that is not an Exception (an Error, say),
   *                  which `catch (Exception e)` does not catch.
   */
  datatype Kind = Checked | Unchecked | NonException

  /**
   * The detail message of a throwable: a text given to its constructor, or the
   * one the JDK derives from the cause when it is built as `new X(cause)`
   * (that text is not modelled).
   */
  datatype Detail = Text(text: string) | FromCause

  /** A throwable: its class name, its kind, its message and its cause link. */
  datatype Exc = Exc(cls: string, kind: Kind, detail: Detail, cause: Option<Exc>)

  const RuntimeExceptionClass: string := "java.lang.RuntimeException"

  /** A throwable the type `RuntimeException` admits. */
  type RuntimeExc = e: Exc | e.kind == Unchecked
    witness Exc(RuntimeExceptionClass, Unchecked, Text(""), None)

  /** `new X(msg)` for an exception class X of the given kind: no cause. */
  function NewException(cls: string, kind: Kind, msg: string): Exc
  {
    Exc(cls, kind, Text(msg), None)
  }

  /** `new RuntimeException(cause)`, the JDK constructor. */
  function NewRuntimeException(cause: Exc): RuntimeExc
  {
    Exc(RuntimeExceptionClass, Unchecked, FromCause, Some(cause))
  }

  /**
   * The message text given to the throwable's constructor. `None` does not
   * stand for Java's `null`: it means the message was derived by the JDK from
   * the cause (`cause.toString()`), a text this model does not produce.
   */
  function Message(e: Exc): Option<string>
  {
    match e.detail
    case Text(s) => Some(s)
    case FromCause => None
  }

  /** The throwable `e.getCause()` returns, if any. */
  function Cause(e: Exc): Option<Exc>
  {
    e.cause
  }

  /** The cause chain starting at `e`: `e`, `e.getCause()`, its cause, and so on. */
  function Causes(e: Exc): (chain: seq<Exc>)
    ensures |chain| >= 1 && chain[0] == e
  {
    match e.cause
    case None => [e]
    case Some(c) => [e] + Causes(c)
  }

  /** The result of one call: a value, or a throwable that left the call. */
  datatype Outcome<+V> = Ok(v: V) | Throws(e: Exc)

  /**
   * The outcome of a call to a method that declares no `throws` clause
   * (`Function.apply`, `Supplier.get`, `Consumer.accept` and the library's own
   * handler interfaces): Java's compiler lets no checked exception out of it.
   */
  type UncheckedOutcome<+V> = o: Outcome<V> | o.Ok? || o.e.kind != Checked
    witness Throws(Exc("java.lang.Error", NonException, Text(""), None))

  /** `catch (Exception e)` stops the throwable this outcome carries. */
  predicate Caught<V>(op: Outcome<V>)
  {
    op.Throws? && op.e.kind != NonException
  }

  /** The outcome carries a throwable that no `catch (Exception e)` stops. */
  predicate Escapes<V>(op: Outcome<V>)
  {
    op.Throws? && op.e.kind == NonException
  }

  /**
   * What a combinator did, in order:
   *   Called     - it invoked the caller's callable (or runner);
   *   Handled(e) - it passed `e` to a caller-supplied callback (handler,
   *                translator, consumer, logger or fallback function);
   *   Supplied   - it asked a caller-supplied supplier for a value.
   */
  datatype Event = Called | Handled(e: Exc) | Supplied

  /** One combinator call: the events it performed and how it ended. */
  datatype Run<+V> = Run(trace: seq<Event>, out: Outcome<V>)

  /** How often the callable was invoked. */
  function CallCount(t: seq<Event>): nat
  {
    if t == [] then 0 else (if t[0].Called? then 1 else 0) + CallCount(t[1..])
  }

  /** The throwables passed to callbacks, in order. */
  function HandlerArgs(t: seq<Event>): seq<Exc>
  {
    if t == [] then [] else (if t[0].Handled? then [t[0].e] else []) + HandlerArgs(t[1..])
  }

  /** How often a supplier was asked for a value. */
  function SupplierCalls(t: seq<Event>): nat
  {
    if t == [] then 0 else (if t[0].Supplied? then 1 else 0) + SupplierCalls(t[1..])
  }

  /** The trace of a call that did nothing but invoke the callable. */
  lemma CallOnly()
    ensures CallCount([Called]) == 1 && HandlerArgs([Called]) == [] && SupplierCalls([Called]) == 0
  {
    assert [Called][1..] == [];
  }

  /** The trace of a call that invoked the callable and then passed `e` to a callback. */
  lemma CallThenHandle(e: Exc)
    ensures CallCount([Called, Handled(e)]) == 1
    ensures HandlerArgs([Called, Handled(e)]) == [e]
    ensures SupplierCalls([Called, Handled(e)]) == 0
  {
    assert [Handled(e)][1..] == [];
    assert CallCount([Handled(e)]) == 0 && HandlerArgs([Handled(e)]) == [e] && SupplierCalls([Handled(e)]) == 0;
    assert [Called, Handled(e)][1..] == [Handled(e)];
  }

  /** The trace of a call that invoked the callable and then a supplier. */
  lemma CallThenSupply()
    ensures CallCount([Called, Supplied]) == 1
    ensures HandlerArgs([Called, Supplied]) == []
    ensures SupplierCalls([Called, Supplied]) == 1
  {
    assert [Supplied][1..] == [];
    assert CallCount([Supplied]) == 0 && HandlerArgs([Supplied]) == [] && SupplierCalls([Supplied]) == 1;
    assert [Called, Supplied][1..] == [Supplied];
  }
}
