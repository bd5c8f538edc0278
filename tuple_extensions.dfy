/**
  Extension methods over `(Value, Err)` tuples
  (src/Rixian.Extensions.Errors/TupleExtensions.cs). A tuple is a success
  exactly when its `Err` is null.
 */
module TupleExtensions {
  import opened Wrappers
  import opened Errors
  import opened Exceptions
  import opened Results
  import ResultExtensions

  /** `EnsureSuccess`: returns iff `Err` is null, otherwise throws an ErrorException carrying `Err`. */
  function EnsureSuccess<V>(tuple: ValueErr<V>): (o: Outcome<()>)
    ensures o.Returns? <==> tuple.err.None?
    ensures tuple.err.Some? ==> o == Throws(ErrorExceptionFor(tuple.err.value))
  {
    match tuple.err
    case None => Returns(())
    case Some(e) => Throws(ErrorExceptionFor(e))
  }

  /** `AsNotNull`: `(Value, null)` after `EnsureSuccess` returns; its exception otherwise. */
  function AsNotNull<V>(tuple: ValueErr<V>): (o: Outcome<ValueErr<V>>)
    ensures o.Returns? <==> tuple.err.None?
    ensures o.Returns? ==> o.value == ValueErr(tuple.value, None)
    ensures o.Throws? ==> o.exception == EnsureSuccess(tuple).exception
  {
    match EnsureSuccess(tuple)
    case Throws(x) => Throws(x)
    case Returns(_) => Returns(ValueErr(tuple.value, None))
  }

  /** `GetValueOrThrow`: `Value` iff `Err` is null, otherwise the ErrorException carrying `Err`. */
  function GetValueOrThrow<V>(tuple: ValueErr<V>): (o: Outcome<V>)
    ensures o.Returns? <==> tuple.err.None?
    ensures o.Returns? ==> o.value == tuple.value
    ensures tuple.err.Some? ==> o == Throws(ErrorExceptionFor(tuple.err.value))
  {
    match tuple.err
    case None => Returns(tuple.value)
    case Some(e) => Throws(ErrorExceptionFor(e))
  }

  /** `Match`: onSuccess(Value) when `Err` is null, onError(Err) otherwise; a null selected delegate throws. */
  function Match<V, R>(tuple: ValueErr<V>, onSuccess: Option<V -> R>, onError: Option<Error -> R>): (o: Outcome<R>)
    ensures o.Throws? <==> (tuple.err.None? && onSuccess.None?) || (tuple.err.Some? && onError.None?)
    ensures o.Throws? ==> o.exception == InvalidOperation
    ensures tuple.err.None? && onSuccess.Some? ==> o == Returns(onSuccess.value(tuple.value))
    ensures tuple.err.Some? && onError.Some? ==> o == Returns(onError.value(tuple.err.value))
  {
    if tuple.err.None? && onSuccess.Some? then
      var f := onSuccess.value;
      Returns(f(tuple.value))
    else if tuple.err.Some? && onError.Some? then
      var g := onError.value;
      Returns(g(tuple.err.value))
    else
      Throws(InvalidOperation)
  }

  /** `Switch`: runs exactly one action, chosen as `Match` chooses; a null selected action throws. */
  function Switch<V>(tuple: ValueErr<V>, hasOnSuccess: bool, hasOnError: bool): (o: Outcome<ResultExtensions.Invocation<V>>)
    ensures o.Throws? <==> (tuple.err.None? && !hasOnSuccess) || (tuple.err.Some? && !hasOnError)
    ensures o.Throws? ==> o.exception == InvalidOperation
    ensures tuple.err.None? && hasOnSuccess ==> o == Returns(ResultExtensions.OnSuccessRanWith(tuple.value))
    ensures tuple.err.Some? && hasOnError ==> o == Returns(ResultExtensions.OnErrorRan(tuple.err.value))
  {
    if tuple.err.None? && hasOnSuccess then Returns(ResultExtensions.OnSuccessRanWith(tuple.value))
    else if tuple.err.Some? && hasOnError then Returns(ResultExtensions.OnErrorRan(tuple.err.value))
    else Throws(InvalidOperation)
  }

  /**
    `TryGetValue` as written: `(false, default)` when `Err` is null and
    `(true, Value)` when it is not, the inverse of "a flag indicating success".
   */
  function TryGetValueAsWritten<V>(tuple: ValueErr<V>, dflt: V): (got: (bool, V))
    ensures got.0 <==> tuple.err.Some?
    ensures got.0 ==> got.1 == tuple.value
    ensures !got.0 ==> got.1 == dflt
  {
    if tuple.err.None? then (false, dflt) else (true, tuple.value)
  }

  /** A successful tuple makes the written `TryGetValue` report failure and hide its value. */
  lemma TryGetValueAsWrittenIsInverted<V>(value: V, dflt: V, e: Error)
    ensures GetValueOrThrow(ValueErr(value, None)) == Returns(value)
    ensures TryGetValueAsWritten(ValueErr(value, None), dflt) == (false, dflt)
    ensures TryGetValueAsWritten(ValueErr(value, Some(e)), dflt).0
  {
  }

  /** `TryGetValue` as documented: `(true, Value)` on a success, `(false, default)` on a failure. */
  function TryGetValue<V>(tuple: ValueErr<V>, dflt: V): (got: (bool, V))
    ensures got.0 <==> tuple.err.None?
    ensures got.0 ==> got.1 == tuple.value
    ensures !got.0 ==> got.1 == dflt
  {
    if tuple.err.None? then (true, tuple.value) else (false, dflt)
  }

  /** The corrected `TryGetValue` reports success exactly when `GetValueOrThrow` returns, with the same value. */
  lemma TryGetValueAgreesWithGetValueOrThrow<V>(tuple: ValueErr<V>, dflt: V)
    ensures TryGetValue(tuple, dflt).0 <==> GetValueOrThrow(tuple).Returns?
    ensures TryGetValue(tuple, dflt).0 ==> TryGetValue(tuple, dflt).1 == GetValueOrThrow(tuple).value
  {
  }

  /**
    A typed result and the tuple it converts to behave alike: `EnsureSuccess`
    throws the same exception, `Match` calls the same delegate with the same argument.
   */
  lemma TupleAgreesWithResult<V, R>(r: Result<V>, t: TypeTag, dflt: V, f: V -> R, g: Error -> R)
    ensures EnsureSuccess(ToTuple(r, dflt)) == ResultExtensions.EnsureSuccess(TypedRecord(t, r))
    ensures Match(ToTuple(r, dflt), Some(f), Some(g)) == ResultExtensions.MatchValue(TypedRecord(t, r), t, Some(f), Some(g))
    ensures TryGetValue(ToTuple(r, dflt), dflt) == ResultExtensions.TryGetValue(r, dflt)
  {
  }
}
