/**
 * The four exception classes the backend throws, as one tagged error value,
 * the two result shapes that replace "return normally or throw", and an optional value.
 */
module Errors {

  /** One constructor per exception class; each carries the exception's message. */
  datatype ApiError =
    | InvalidBaseCurrency(message: string)
    | InvalidDate(message: string)
    | InvalidAmount(message: string)
    | ApiCall(message: string)

  /** The outcome of a `void` validator: it returns, or it throws `error`. */
  datatype Outcome = Pass | Fail(error: ApiError)

  /** The outcome of a value-returning call: it returns `value`, or it throws `error`. */
  datatype Result<+T> = Ok(value: T) | Err(error: ApiError)

  /** A value that may be absent. */
  datatype Option<+T> = None | Some(value: T)
}
