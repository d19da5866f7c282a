/** Optional values and success-or-error results shared by every module. */
module Wrappers {
  /** A value that may be absent: Java `null`, Python `None`, a missing key. */
  datatype Option<+T> = None | Some(value: T)

  /** The outcome of an operation that either yields a value or fails with a reason. */
  datatype Result<+T, +E> = Success(value: T) | Failure(error: E)

  /** `value ?? fallback` */
  function OrElse<T>(o: Option<T>, fallback: T): T
  {
    if o.Some? then o.value else fallback
  }
}
