/**
 The exceptions the bot raises and catches, as values. An exception is its
 class and the text `str(error)` gives, which is the text it was raised with.
 */
module Exceptions {

  datatype ExcKind =
    | TypeError
    | ConnectionError
    | EmptyValue
    | InvalidStatus
    | InvalidTokens
    | StatusNotOk
    | OtherError(className: string)

  datatype Exc = Exc(kind: ExcKind, message: string)

  /** Either a returned value or a raised exception. */
  datatype Result<+T> = Success(value: T) | Failure(error: Exc) {

    predicate IsFailure() {
      Failure?
    }

    function PropagateFailure<U>(): Result<U>
      requires Failure?
    {
      Failure(error)
    }

    function Extract(): T
      requires Success?
    {
      value
    }
  }
}
