/** Option and Result values used for the source's missing values and exceptions. */
module Wrappers {

  datatype Option<+T> = None | Some(value: T)

  /** An operation that either produced a value or raised; `error` is the exception's text. */
  datatype Result<+T> = Success(value: T) | Failure(error: string)
}
