/**
  One-line factories over results (src/Rixian.Extensions.Errors/Prelude.results.cs).
  Payloads of the untyped results built here are nullable references, so they
  are `Option`s (`None` is null).
 */
module Prelude {
  import opened Wrappers
  import opened Errors
  import opened Exceptions
  import opened Results
  import ResultExtensions

  /** `Prelude.DefaultResult`: the same value as `Result.Default`, a success. */
  function DefaultResult<X>(): AnyResult<Option<X>>
  {
    Default()
  }

  lemma DefaultResultIsDefault<X>()
    ensures DefaultResult<X>() == Default<X>() && DefaultResult<X>().IsSuccess()
  {
  }

  /**
    `Prelude.Error<T>(error)`: binds to `Result.New<T>(Error)`, a `Fail`, which the
    implicit conversion from `Fail` to `Result<T>` turns into a failed `Result<T>`.
   */
  function ErrorOf<V>(e: Error): Result<V>
  {
    Failure(FailureError(NewError<V>(e)))
  }

  lemma ErrorOfIsFailure<V>(e: Error)
    ensures !ErrorOf<V>(e).IsSuccess() && ErrorOf<V>(e).error == e
  {
  }

  /**
    `Prelude.Error(error)` as the compiler binds it. `Result.New(innerError)` has
    no type argument; `New<T>(Error)` cannot infer `T`, so the call binds to
    `New<T>(T value)` with `T = Error`: a `Success<Error>` holding the error.
   */
  function ErrorAsBound(e: Error): (r: AnyResult<Option<Error>>)
    ensures r.IsSuccess() && r.IsSuccessOf(ErrorType) && SuccessPayload(r) == Some(e)
  {
    NewValue(ErrorType, Some(e))
  }

  /**
    The untyped `Prelude.Error(error)`, documented to create an error result,
    yields a success that is not even an `IFail`: no error can be read back.
   */
  lemma ErrorAsBoundIsSuccess(e: Error)
    ensures ErrorAsBound(e).IsSuccess() && !ErrorAsBound(e).IsIFail()
    ensures ResultExtensions.EnsureSuccess(ErrorAsBound(e)) == Returns(())
    ensures ResultExtensions.AsFail(ErrorAsBound(e)) == Throws(InvalidOperation)
    ensures ResultExtensions.EnsureSuccess(ErrorAsDocumented(e)) == Throws(ErrorExceptionFor(e))
  {
  }

  /** `Prelude.Error(error)` as documented: a result carrying the error, i.e. a `Fail`. */
  function ErrorAsDocumented(e: Error): (r: AnyResult<Option<Error>>)
    ensures !r.IsSuccess() && r.IsFail() && FailureError(r) == e
  {
    NewError(e)
  }

  /** `Prelude.NullResult<T>()`: a success whose value is null. */
  function NullResult<X>(): Result<Option<X>>
  {
    Null()
  }

  lemma NullResultIsNull<X>()
    ensures NullResult<X>() == Null<X>() && NullResult<X>().IsSuccess() && NullResult<X>().value.None?
  {
  }

  /**
    `Prelude.Result<T>(item)`: `Result.New(item)` builds a `Success<T>`, which the
    implicit conversion to `Result<T>` turns into a successful `Result<T>`.
   */
  function ResultOf<V>(t: TypeTag, item: V): (r: Result<V>)
    ensures r.IsSuccess() && r.value == item
  {
    Success(SuccessPayload(NewValue(t, item)))
  }
}
