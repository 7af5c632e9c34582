/** Option and Result shapes shared by every module of the model. */
module Wrappers {
  datatype Option<T> = None | Some(value: T)

  /** A Go `(value, error)` pair: exactly one side is meaningful. */
  datatype Result<T> = Ok(value: T) | Err(error: string)

  /** A Go call that either returns a value or panics (a nil dereference, a failed type assertion). */
  datatype Outcome<T> = Done(value: T) | Crash
}
