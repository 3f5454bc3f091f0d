/** Optional values and results with an error, used by every module of the model. */
module Wrappers {

  /** A value that may be absent: Kotlin's nullable `T?`. */
  datatype Option<+T> = None | Some(value: T)

  /** Either a value or the error that stopped the computation (a thrown exception). */
  datatype Result<+T, +E> = Success(value: T) | Failure(error: E)
}
