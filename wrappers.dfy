/** Failure-carrying values used across the model. */
module Wrappers {

  /** A value that may be absent: JavaScript's `undefined` for optional fields. */
  datatype Option<+T> = None | Some(value: T)

  /** What an Observable delivers: a value, or an `Error` carrying its message. */
  datatype Result<+T> = Ok(value: T) | Err(message: string)

  /** The raw outcome of one HTTP request: the decoded body, or a failure
      (network error, non-2xx status or the `timeout(8000)` operator firing). */
  datatype Response<+T> = Received(body: T) | Failed
}
