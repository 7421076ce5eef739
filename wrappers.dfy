/** Optional values (Java's null / java.util.Optional) and the value-or-exception
    result of a call that may throw. */
module Wrappers {

  datatype Option<+T> = None | Some(value: T)

  datatype Result<+T, +E> = Success(value: T) | Failure(error: E)
}
