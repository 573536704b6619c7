/** Optional values and results with an error value, as the source's
    `undefined`-able fields and early-return error paths need them. */
module Wrappers {

  datatype Option<+T> = None | Some(value: T)

  datatype Result<+R, +E> = Success(value: R) | Failure(error: E)
}
