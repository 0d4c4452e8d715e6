/** Option and Result, used for optional fields and for operations that throw. */
module Wrappers {

  datatype Option<+T> = None | Some(value: T)

  /** `Failure(message)` stands for a thrown `Error` carrying `message`. */
  datatype Result<+T, +E> = Success(value: T) | Failure(error: E)
}
