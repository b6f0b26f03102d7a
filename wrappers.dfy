/** Optional values and results, standing in for Java's null and thrown exceptions. */
module Wrappers {

  datatype Option<+T> = None | Some(value: T)

  datatype Result<+T, +X> = Success(value: T) | Failure(error: X)
}
