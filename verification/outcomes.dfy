/** Optional values and the one run-time failure the analytics can raise. */
module Outcomes {

  /** A report section that may be absent (the backend leaves it as `{}`). */
  datatype Option<T> = None | Some(value: T)

  /** Python exceptions that escape the analytics code. */
  datatype Failure = ZeroDivisionError

  datatype Result<T> = Ok(value: T) | Err(failure: Failure)
}
