/**
  Extension methods over results (src/Rixian.Extensions.Errors/ResultExtensions.cs).
  Delegate arguments are `Option`s: `None` is a null delegate. An action that
  returns nothing is summed up by which action ran and with what argument.
 */
module ResultExtensions {
  import opened Wrappers
  import opened Errors
  import opened Exceptions
  import opened Results

  /** Which of the two actions a `Switch` ran, and with what argument. */
  datatype Invocation<V> = OnSuccessRan | OnSuccessRanWith(value: V) | OnErrorRan(error: Error)

  /** `AsFail(this Result)`: the cast `(Fail)result`. The instance method `Result.AsFail()` is the same cast. */
  function AsFailCast<V>(r: AnyResult<V>): (o: Outcome<AnyResult<V>>)
    ensures o.Returns? <==> r.IsFail()
    ensures o.Returns? ==> o.value == r
    ensures o.Throws? ==> o.exception == InvalidCast
  {
    if r.IsFail() then Returns(r) else Throws(InvalidCast)
  }

  /** `AsFail(this IResult)`: the result itself when it is an `IFail`. */
  function AsFail<V>(r: AnyResult<V>): (o: Outcome<AnyResult<V>>)
    ensures o.Returns? <==> r.IsIFail()
    ensures o.Returns? ==> o.value == r
    ensures o.Throws? ==> o.exception == InvalidOperation
  {
    if r.IsIFail() then Returns(r) else Throws(InvalidOperation)
  }

  /** `AsSuccess<T>(this Result)`: the cast `(Success<T>)result`. The instance method `Result.AsSuccess<T>()` is the same cast. */
  function AsSuccessCast<V>(r: AnyResult<V>, t: TypeTag): (o: Outcome<AnyResult<V>>)
    ensures o.Returns? <==> r.IsSuccessOf(t)
    ensures o.Returns? ==> o.value == r
    ensures o.Throws? ==> o.exception == InvalidCast
  {
    if r.IsSuccessOf(t) then Returns(r) else Throws(InvalidCast)
  }

  /** `AsSuccess<T>(this IResult)`: the result itself when it is an `ISuccess<T>`. */
  function AsSuccess<V>(r: AnyResult<V>, t: TypeTag): (o: Outcome<AnyResult<V>>)
    ensures o.Returns? <==> r.IsISuccess(t)
    ensures o.Returns? ==> o.value == r
    ensures o.Throws? ==> o.exception == InvalidOperation
  {
    if r.IsISuccess(t) then Returns(r) else Throws(InvalidOperation)
  }

  /** `EnsureSuccess`: nothing on a success, an ErrorException carrying the error on a failure. */
  function EnsureSuccess<V>(r: AnyResult<V>): (o: Outcome<()>)
    ensures o.Returns? <==> r.IsSuccess()
    ensures !r.IsSuccess() ==> o == Throws(ErrorExceptionFor(FailureError(r)))
  {
    if !r.IsSuccess() then
      match AsFail(r)
      case Throws(x) => Throws(x)
      case Returns(fail) =>
        match FailError(fail)
        case Throws(x) => Throws(x)
        case Returns(e) => Throws(ErrorExceptionFor(e))
    else
      Returns(())
  }

  /**
    `GetValueOrThrow<T>` as written. A record that is `ISuccess<T>` is asked for
    its value before its success flag is looked at, so a failed `Result<T>`
    throws InvalidOperationException from `Result<T>.Value` and its error is lost.
   */
  function GetValueOrThrow<V>(r: Option<AnyResult<V>>, t: TypeTag): (o: Outcome<V>)
    ensures r.None? ==> o == Throws(ArgumentNull("result"))
    ensures r.Some? && r.value.IsISuccess(t) && r.value.IsSuccess() ==> o == Returns(SuccessPayload(r.value))
    ensures r.Some? && r.value.IsISuccess(t) && !r.value.IsSuccess() ==> o == Throws(InvalidOperation)
    ensures r.Some? && !r.value.IsISuccess(t) && !r.value.IsSuccess() ==> o == Throws(ErrorExceptionFor(FailureError(r.value)))
    ensures r.Some? && !r.value.IsISuccess(t) && r.value.TypedRecord? && r.value.IsSuccess() ==> o == Throws(InvalidOperation)
    ensures r.Some? && r.value.SuccessRecord? && r.value.typeArg != t ==> o == Throws(NotSupported(ImpossibleState))
  {
    match r
    case None => Throws(ArgumentNull("result"))
    case Some(result) =>
      if result.IsISuccess(t) then
        SuccessValue(result)
      else if result.IsIFail() then
        match FailError(result)
        case Throws(x) => Throws(x)
        case Returns(e) => Throws(ErrorExceptionFor(e))
      else
        Throws(NotSupported(ImpossibleState))
  }

  /** A failed `Result<T>` asked for its `T` value throws InvalidOperationException, not an ErrorException. */
  lemma GetValueOrThrowLosesError<V>(e: Error, t: TypeTag)
    ensures GetValueOrThrow(Some(TypedRecord(t, Result<V>.Failure(e))), t) == Throws(InvalidOperation)
    ensures EnsureSuccess(TypedRecord(t, Result<V>.Failure(e))) == Throws(ErrorExceptionFor(e))
  {
  }

  /** `GetValueOrThrow<T>` as documented: every failure throws an ErrorException carrying its error. */
  function GetValueOrThrowAsDocumented<V>(r: Option<AnyResult<V>>, t: TypeTag): (o: Outcome<V>)
    ensures r.None? ==> o == Throws(ArgumentNull("result"))
    ensures o.Returns? <==> r.Some? && r.value.IsSuccess() && r.value.IsISuccess(t)
    ensures o.Returns? ==> o.value == SuccessPayload(r.value)
    ensures r.Some? && !r.value.IsSuccess() ==> o == Throws(ErrorExceptionFor(FailureError(r.value)))
  {
    if r.Some? && !r.value.IsSuccess() then Throws(ErrorExceptionFor(FailureError(r.value)))
    else GetValueOrThrow(r, t)
  }

  /** On every failure the corrected `GetValueOrThrow` throws exactly what `EnsureSuccess` throws. */
  lemma GetValueOrThrowAsDocumentedAgreesWithEnsureSuccess<V>(r: AnyResult<V>, t: TypeTag)
    ensures !r.IsSuccess() ==> GetValueOrThrowAsDocumented(Some(r), t).Throws? && EnsureSuccess(r).Throws?
    ensures !r.IsSuccess() ==> GetValueOrThrowAsDocumented(Some(r), t).exception == EnsureSuccess(r).exception
    ensures r.IsSuccess() && r.IsISuccess(t) ==> GetValueOrThrowAsDocumented(Some(r), t) == Returns(SuccessPayload(r))
  {
  }

  /** `Match(onSuccess, onError)`: onSuccess on a success, onError with the error on a failure; a null selected delegate throws. */
  function Match<V, R>(r: AnyResult<V>, onSuccess: Option<() -> R>, onError: Option<Error -> R>): (o: Outcome<R>)
    ensures o.Throws? <==> (r.IsSuccess() && onSuccess.None?) || (!r.IsSuccess() && onError.None?)
    ensures o.Throws? ==> o.exception == InvalidOperation
    ensures r.IsSuccess() && onSuccess.Some? ==> o == Returns(onSuccess.value())
    ensures !r.IsSuccess() && onError.Some? ==> o == Returns(onError.value(FailureError(r)))
  {
    if r.IsSuccess() && onSuccess.Some? then
      var f := onSuccess.value;
      Returns(f())
    else if !r.IsSuccess() && onError.Some? then
      var g := onError.value;
      match AsFail(r)
      case Throws(x) => Throws(x)
      case Returns(fail) =>
        match FailError(fail)
        case Throws(x) => Throws(x)
        case Returns(e) => Returns(g(e))
    else
      Throws(InvalidOperation)
  }

  /**
    `Match<TValue, TResult>`: as `Match`, but onSuccess receives the value of the
    result seen as an `ISuccess<TValue>`, so a success of another type throws.
   */
  function MatchValue<V, R>(r: AnyResult<V>, t: TypeTag, onSuccess: Option<V -> R>, onError: Option<Error -> R>): (o: Outcome<R>)
    ensures o.Throws? <==> (r.IsSuccess() && (onSuccess.None? || !r.IsISuccess(t))) || (!r.IsSuccess() && onError.None?)
    ensures o.Throws? ==> o.exception == InvalidOperation
    ensures r.IsSuccess() && onSuccess.Some? && r.IsISuccess(t) ==> o == Returns(onSuccess.value(SuccessPayload(r)))
    ensures !r.IsSuccess() && onError.Some? ==> o == Returns(onError.value(FailureError(r)))
  {
    if r.IsSuccess() && onSuccess.Some? then
      var f := onSuccess.value;
      match AsSuccess(r, t)
      case Throws(x) => Throws(x)
      case Returns(success) =>
        match SuccessValue(success)
        case Throws(x) => Throws(x)
        case Returns(v) => Returns(f(v))
    else if !r.IsSuccess() && onError.Some? then
      var g := onError.value;
      match AsFail(r)
      case Throws(x) => Throws(x)
      case Returns(fail) =>
        match FailError(fail)
        case Throws(x) => Throws(x)
        case Returns(e) => Returns(g(e))
    else
      Throws(InvalidOperation)
  }

  /** `Switch(onSuccess, onError)`: runs exactly one action, chosen as `Match` chooses; a null selected action throws. */
  function Switch<V>(r: AnyResult<V>, hasOnSuccess: bool, hasOnError: bool): (o: Outcome<Invocation<V>>)
    ensures o.Throws? <==> (r.IsSuccess() && !hasOnSuccess) || (!r.IsSuccess() && !hasOnError)
    ensures o.Throws? ==> o.exception == InvalidOperation
    ensures r.IsSuccess() && hasOnSuccess ==> o == Returns(OnSuccessRan)
    ensures !r.IsSuccess() && hasOnError ==> o == Returns(OnErrorRan(FailureError(r)))
  {
    if r.IsSuccess() && hasOnSuccess then
      Returns(OnSuccessRan)
    else if !r.IsSuccess() && hasOnError then
      match AsFail(r)
      case Throws(x) => Throws(x)
      case Returns(fail) =>
        match FailError(fail)
        case Throws(x) => Throws(x)
        case Returns(e) => Returns(OnErrorRan(e))
    else
      Throws(InvalidOperation)
  }

  /** `Switch<TValue>(onSuccess, onError)`: as `Switch`, onSuccess receiving the value seen as an `ISuccess<TValue>`. */
  function SwitchValue<V>(r: AnyResult<V>, t: TypeTag, hasOnSuccess: bool, hasOnError: bool): (o: Outcome<Invocation<V>>)
    ensures o.Throws? <==> (r.IsSuccess() && (!hasOnSuccess || !r.IsISuccess(t))) || (!r.IsSuccess() && !hasOnError)
    ensures o.Throws? ==> o.exception == InvalidOperation
    ensures r.IsSuccess() && hasOnSuccess && r.IsISuccess(t) ==> o == Returns(OnSuccessRanWith(SuccessPayload(r)))
    ensures !r.IsSuccess() && hasOnError ==> o == Returns(OnErrorRan(FailureError(r)))
  {
    if r.IsSuccess() && hasOnSuccess then
      match AsSuccess(r, t)
      case Throws(x) => Throws(x)
      case Returns(success) =>
        match SuccessValue(success)
        case Throws(x) => Throws(x)
        case Returns(v) => Returns(OnSuccessRanWith(v))
    else if !r.IsSuccess() && hasOnError then
      match AsFail(r)
      case Throws(x) => Throws(x)
      case Returns(fail) =>
        match FailError(fail)
        case Throws(x) => Throws(x)
        case Returns(e) => Returns(OnErrorRan(e))
    else
      Throws(InvalidOperation)
  }

  /** `Switch` runs the action that `Match` would call, and throws exactly when `Match` throws. */
  lemma SwitchAgreesWithMatch<V, R>(r: AnyResult<V>, onSuccess: Option<() -> R>, onError: Option<Error -> R>)
    ensures Switch(r, onSuccess.Some?, onError.Some?).Throws? <==> Match(r, onSuccess, onError).Throws?
    ensures Switch(r, onSuccess.Some?, onError.Some?) == Returns(OnSuccessRan) <==>
            (r.IsSuccess() && Match(r, onSuccess, onError).Returns?)
    ensures Match(r, onSuccess, onError).Returns? && !r.IsSuccess() ==>
            Switch(r, onSuccess.Some?, onError.Some?) == Returns(OnErrorRan(FailureError(r))) &&
            Match(r, onSuccess, onError) == Returns(onError.value(FailureError(r)))
  {
  }

  /** `TryGetValue(this Result<T>)`: `(true, Value)` on a success, `(false, default)` on a failure. */
  function TryGetValue<V>(r: Result<V>, dflt: V): (got: (bool, V))
    ensures got.0 <==> r.IsSuccess()
    ensures got.0 ==> got.1 == r.value
    ensures !got.0 ==> got.1 == dflt
  {
    if r.IsSuccess() then (true, r.value) else (false, dflt)
  }

  /** `TryGetValue<T>(this Result)`: true only for a `Success<T>` record. */
  function TryGetValueAs<V>(r: AnyResult<V>, t: TypeTag, dflt: V): (got: (bool, V))
    ensures got.0 <==> r.IsSuccessOf(t)
    ensures got.0 ==> got.1 == SuccessPayload(r)
    ensures !got.0 ==> got.1 == dflt
  {
    if r.IsSuccess() && r.IsSuccessOf(t) then (true, r.value) else (false, dflt)
  }

  /** `TryGetValue<object>(Result.Default)` is false although the default result is a success. */
  lemma TryGetValueAsMissesTypedRecords<X>(dflt: Option<X>)
    ensures Default<X>().IsSuccess()
    ensures TryGetValueAs(Default<X>(), ObjectType, dflt) == (false, dflt)
  {
  }

  /** `TryGetValue` on a typed result agrees with `Match`: both see a success exactly when there is one. */
  lemma TryGetValueAgreesWithMatchValue<V, R>(r: Result<V>, t: TypeTag, dflt: V, f: V -> R, g: Error -> R)
    ensures TryGetValue(r, dflt).0 ==> MatchValue(TypedRecord(t, r), t, Some(f), Some(g)) == Returns(f(TryGetValue(r, dflt).1))
    ensures !TryGetValue(r, dflt).0 ==> MatchValue(TypedRecord(t, r), t, Some(f), Some(g)) == Returns(g(r.error))
  {
  }
}
