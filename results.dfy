/**
  The Result records of the Errors library (src/Rixian.Extensions.Errors/Result.cs
  and Result`1.cs): a closed success-or-failure value.

  .NET has three concrete records behind the abstract record `Result`:
  `Success<T>` (a success holding a value), `Fail` (a failure holding an error)
  and `Result<T>` (either, decided by its constructor). `Result<T>` implements
  both `ISuccess<T>` and `IFail`, whatever it holds. Runtime type tests such as
  `result is Success<T>` look at the record's type argument, which is kept here
  as a `TypeTag`.
 */
module Results {
  import opened Wrappers
  import opened Errors
  import opened Exceptions

  /** The name of a .NET type, standing for the type argument of a generic record. */
  type TypeTag = string

  const ObjectType: TypeTag := "System.Object"
  const ErrorType: TypeTag := "Rixian.Extensions.Errors.Error"

  /** `Result<T>`: a value or an error; `IsSuccess` is fixed by the constructor used. */
  datatype Result<T> = Success(value: T) | Failure(error: Error) {
    predicate IsSuccess() { Success? }
  }

  /** A `(T? Value, Error? Err)` tuple. */
  datatype ValueErr<T> = ValueErr(value: T, err: Option<Error>)

  /**
    A value whose static type is the abstract record `Result` (or the interface
    `IResult`), by the concrete record it is at run time.
   */
  datatype AnyResult<V> =
    | SuccessRecord(typeArg: TypeTag, value: V)
    | FailRecord(error: Error)
    | TypedRecord(typeArg: TypeTag, result: Result<V>)
  {
    /** `IsSuccess` of the record. */
    predicate IsSuccess() { SuccessRecord? || (TypedRecord? && result.Success?) }

    /** `this is Success<t>`. */
    predicate IsSuccessOf(t: TypeTag) { SuccessRecord? && typeArg == t }

    /** `this is Fail`. */
    predicate IsFail() { FailRecord? }

    /** `this is ISuccess<t>`: a `Success<t>` or any `Result<t>`, success or not. */
    predicate IsISuccess(t: TypeTag) { (SuccessRecord? || TypedRecord?) && typeArg == t }

    /** `this is IFail`: a `Fail` or any `Result<T>`, success or not. */
    predicate IsIFail() { FailRecord? || TypedRecord? }
  }

  /** The value a successful record holds. */
  function SuccessPayload<V>(r: AnyResult<V>): V
    requires r.IsSuccess()
  {
    if r.SuccessRecord? then r.value else r.result.value
  }

  /** The error a failed record holds. */
  function FailureError<V>(r: AnyResult<V>): Error
    requires !r.IsSuccess()
  {
    if r.FailRecord? then r.error else r.result.error
  }

  /** `ISuccess<T>.Value`: `Success<T>.Value`, or `Result<T>.Value`, which throws on a failure. */
  function SuccessValue<V>(r: AnyResult<V>): (o: Outcome<V>)
    requires r.SuccessRecord? || r.TypedRecord?
    ensures o.Returns? <==> r.IsSuccess()
    ensures o.Returns? ==> o.value == SuccessPayload(r)
    ensures o.Throws? ==> o.exception == InvalidOperation
  {
    if r.SuccessRecord? then Returns(r.value)
    else if r.result.Success? then Returns(r.result.value)
    else Throws(InvalidOperation)
  }

  /** `IFail.Error`: `Fail.Error`, or `Result<T>.Error`, which throws on a success. */
  function FailError<V>(r: AnyResult<V>): (o: Outcome<Error>)
    requires r.IsIFail()
    ensures o.Returns? <==> !r.IsSuccess()
    ensures o.Returns? ==> o.value == FailureError(r)
    ensures o.Throws? ==> o.exception == InvalidOperation
  {
    if r.FailRecord? then Returns(r.error)
    else if r.result.Failure? then Returns(r.result.error)
    else Throws(InvalidOperation)
  }

  /** `Result.Success<T>(value)`: a `Success<T>` holding the value. */
  function SuccessOf<V>(t: TypeTag, value: V): (r: AnyResult<V>)
    ensures r.IsSuccess() && r.IsSuccessOf(t) && !r.IsIFail()
    ensures SuccessValue(r) == Returns(value)
  {
    SuccessRecord(t, value)
  }

  /** `Result.Fail(error)`: a `Fail` holding the error. */
  function FailOf<V>(e: Error): AnyResult<V>
  {
    FailRecord(e)
  }

  /** `Fail(e)` is a failure, no `ISuccess` of any type, and its error reads back as `e`. */
  lemma FailOfIsFail<V>(e: Error)
    ensures !FailOf<V>(e).IsSuccess() && FailOf<V>(e).IsFail()
    ensures forall t :: !FailOf<V>(e).IsISuccess(t)
    ensures FailError(FailOf<V>(e)) == Returns(e)
  {
  }

  /** The implicit conversion from an Error to `Result`. */
  function FromError<V>(e: Error): AnyResult<V>
  {
    FailRecord(e)
  }

  lemma FromErrorIsFail<V>(e: Error)
    ensures FromError<V>(e) == FailOf(e)
  {
  }

  /** `Result.AsResult<T>(value)`. */
  function AsResultValue<V>(t: TypeTag, value: V): (r: AnyResult<V>)
    ensures r == SuccessOf(t, value)
  {
    SuccessRecord(t, value)
  }

  /** `Result.AsResult(error)`. */
  function AsResultError<V>(e: Error): AnyResult<V>
  {
    FailRecord(e)
  }

  lemma AsResultErrorIsFail<V>(e: Error)
    ensures AsResultError<V>(e) == FailOf(e)
  {
  }

  /** `Result.New<T>(value)`. */
  function NewValue<V>(t: TypeTag, value: V): (r: AnyResult<V>)
    ensures r == SuccessOf(t, value)
  {
    AsResultValue(t, value)
  }

  /** `Result.New<T>(error)`: a `Fail`, whatever `T` is. */
  function NewError<V>(e: Error): AnyResult<V>
  {
    FailRecord(e)
  }

  lemma NewErrorIsFail<V>(e: Error)
    ensures NewError<V>(e) == FailOf(e)
  {
  }

  /**
    `Result.AsResult(object obj)`: a `Success<U>` where `U` is the runtime type
    of `obj`; a null `obj` throws when its type is asked for.
   */
  function AsResultObject<X>(obj: Option<X>, runtimeType: X -> TypeTag): (o: Outcome<AnyResult<Option<X>>>)
    ensures o.Throws? <==> obj.None?
    ensures o.Throws? ==> o.exception == NullReference
    ensures o.Returns? ==> o.value == SuccessOf(runtimeType(obj.value), obj)
  {
    match obj
    case None => Throws(NullReference)
    case Some(x) => Returns(SuccessRecord(runtimeType(x), obj))
  }

  /**
    `Result.AsTuple<T>(result)`: `(Value, null)` for a `Success<T>`,
    `(default, Error)` for a `Fail`; every other record throws.
   */
  function AsTuple<V>(r: AnyResult<V>, t: TypeTag, dflt: V): (o: Outcome<ValueErr<V>>)
    ensures o.Returns? <==> r.IsSuccessOf(t) || r.IsFail()
    ensures r.IsSuccessOf(t) ==> o == Returns(ValueErr(r.value, None))
    ensures r.IsFail() ==> o == Returns(ValueErr(dflt, Some(r.error)))
    ensures o.Throws? ==> o.exception == NotSupported(ImpossibleState)
  {
    if r.IsSuccess() && r.IsSuccessOf(t) then Returns(ValueErr(r.value, None))
    else if !r.IsSuccess() && r.IsFail() then Returns(ValueErr(dflt, Some(r.error)))
    else Throws(NotSupported(ImpossibleState))
  }

  /** `Result.FromTuple<T>(tuple)`: the value when `Err` is null, the error otherwise. */
  function FromTuple<V>(tuple: ValueErr<V>): (r: Result<V>)
    ensures r.IsSuccess() <==> tuple.err.None?
    ensures r.Success? ==> r.value == tuple.value
    ensures r.Failure? ==> Some(r.error) == tuple.err
  {
    match tuple.err
    case None => Success(tuple.value)
    case Some(e) => Failure(e)
  }

  /** `Result.AsResult<T>(Result)`: a `Result<T>` keeping the success value or the error; every other record throws. */
  function AsResultOf<V>(r: AnyResult<V>, t: TypeTag): (o: Outcome<Result<V>>)
    ensures o.Returns? <==> r.IsSuccessOf(t) || r.IsFail()
    ensures r.IsSuccessOf(t) ==> o == Returns(Success(r.value))
    ensures r.IsFail() ==> o == Returns(Failure(r.error))
    ensures o.Throws? ==> o.exception == NotSupported(ImpossibleState)
  {
    if r.IsSuccess() && r.IsSuccessOf(t) then Returns(Success(r.value))
    else if !r.IsSuccess() && r.IsFail() then Returns(Failure(r.error))
    else Throws(NotSupported(ImpossibleState))
  }

  /** Converting to a tuple and back agrees with `AsResult<T>(Result)`, thrown exception included. */
  lemma FromTupleAgreesWithAsResult<V>(r: AnyResult<V>, t: TypeTag, dflt: V)
    ensures AsTuple(r, t, dflt).Returns? <==> AsResultOf(r, t).Returns?
    ensures AsTuple(r, t, dflt).Returns? ==> FromTuple(AsTuple(r, t, dflt).value) == AsResultOf(r, t).value
    ensures AsTuple(r, t, dflt).Throws? ==> AsTuple(r, t, dflt).exception == AsResultOf(r, t).exception
  {
  }

  /** The implicit conversion from `Result<T>` to a tuple (Result`1.cs). */
  function ToTuple<V>(r: Result<V>, dflt: V): (tuple: ValueErr<V>)
    ensures tuple.err.None? <==> r.IsSuccess()
    ensures r.Success? ==> tuple.value == r.value
    ensures r.Failure? ==> tuple == ValueErr(dflt, Some(r.error))
  {
    match r
    case Success(v) => ValueErr(v, None)
    case Failure(e) => ValueErr(dflt, Some(e))
  }

  /** A typed result survives the trip through a tuple. */
  lemma TupleRoundTrip<V>(r: Result<V>, dflt: V)
    ensures FromTuple(ToTuple(r, dflt)) == r
  {
  }

  /** `Result.Null<T>()`: a `Result<T?>` that is a success holding null. */
  function Null<X>(): Result<Option<X>>
  {
    Success(None)
  }

  lemma NullIsSuccess<X>()
    ensures Null<X>().IsSuccess() && Null<X>().value.None?
  {
  }

  /** `Result.Default`: `Null<object>()`, a successful `Result<object?>` holding null. */
  function Default<X>(): AnyResult<Option<X>>
  {
    TypedRecord(ObjectType, Null())
  }

  lemma DefaultIsNullSuccess<X>()
    ensures Default<X>().IsSuccess() && Default<X>().TypedRecord? && Default<X>().typeArg == ObjectType
    ensures SuccessPayload(Default<X>()).None?
  {
  }

  /**
    `AsTuple<object>(Result.Default)` throws "impossible state" although the
    default result is a success: `Result<T>` records are neither `Success<T>`
    nor `Fail`.
   */
  lemma DefaultIsNotTupleConvertible<X>(dflt: Option<X>)
    ensures Default<X>().IsSuccess()
    ensures AsTuple(Default<X>(), ObjectType, dflt) == Throws(NotSupported(ImpossibleState))
    ensures AsResultOf(Default<X>(), ObjectType) == Throws(NotSupported(ImpossibleState))
  {
  }

  /** `AsTuple<T>` as evidently intended: a `Result<T>` record converts like a `Success<T>` or a `Fail`. */
  function AsTupleAllRecords<V>(r: AnyResult<V>, t: TypeTag, dflt: V): (o: Outcome<ValueErr<V>>)
    ensures o.Returns? <==> r.IsSuccessOf(t) || r.IsFail() || (r.TypedRecord? && r.typeArg == t)
    ensures o.Throws? ==> o.exception == NotSupported(ImpossibleState)
  {
    if r.TypedRecord? && r.typeArg == t then Returns(ToTuple(r.result, dflt))
    else AsTuple(r, t, dflt)
  }

  /** Every record the corrected conversion accepts round-trips to the result it holds. */
  lemma AsTupleAllRecordsRoundTrip<V>(r: AnyResult<V>, t: TypeTag, dflt: V)
    requires AsTupleAllRecords(r, t, dflt).Returns?
    ensures FromTuple(AsTupleAllRecords(r, t, dflt).value).IsSuccess() <==> r.IsSuccess()
    ensures r.IsSuccess() ==> FromTuple(AsTupleAllRecords(r, t, dflt).value) == Success(SuccessPayload(r))
    ensures !r.IsSuccess() ==> FromTuple(AsTupleAllRecords(r, t, dflt).value) == Failure(FailureError(r))
  {
  }
}
