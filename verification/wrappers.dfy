/** Optional values and results with an error, used for the source's NULL
    returns and early `g_return_if_fail` exits. */
module Wrappers {

  /** A value that may be missing (a NULL pointer in the source). */
  datatype Option<+T> = None | Some(value: T)

  /** Either a value or the reason it could not be produced. */
  datatype Result<+T, +E> = Success(value: T) | Failure(error: E)
}
