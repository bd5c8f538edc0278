/** The exceptions thrown by the modelled code, and an outcome that is either a value or one of them. */
module Exceptions {
  import opened Wrappers
  import opened Errors

  /** The exception types the modelled code throws. */
  datatype Exception =
    /** `ErrorException(error)` (message `None`) or `ErrorException(error, message)`. */
    | ErrorException(error: Error, message: Option<string>)
    | InvalidOperation
    | InvalidCast
    | NotSupported(reason: string)
    | ArgumentNull(paramName: string)
    | NullReference
    /** `JsonException`: text that is not JSON, or not JSON of the requested type. */
    | Json

  /** The outcome of a call: it returns a value or throws. */
  datatype Outcome<+T> = Returns(value: T) | Throws(exception: Exception)

  /** The message every "impossible state" NotSupportedException of the Errors library carries. */
  const ImpossibleState: string := "Result is in an impossible state."

  /** The ErrorException the library throws when a failure is forced, with `Message ?? string.Empty` as its message. */
  function ErrorExceptionFor(e: Error): (x: Exception)
    ensures x.ErrorException? && x.error == e
    ensures x.message == Some(MessageOrEmpty(e))
  {
    ErrorException(e, Some(MessageOrEmpty(e)))
  }
}
