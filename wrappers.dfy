/** Optional values and validation results shared by the other modules. */
module Wrappers {

  /** A value that may be absent; stands for `T | null` and for a form field that was not sent. */
  datatype Option<+T> = None | Some(value: T)

  /** Outcome of a schema's `safeParse`: the parsed data, or the errors found. */
  datatype Result<+R, +E> = Success(value: R) | Failure(error: E)
}
