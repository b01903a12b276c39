/** Optional values and pass/fail outcomes shared by every module of the model. */
module Wrappers {

  /** A value that may be absent: Python's `None` or a missing key. */
  datatype Option<+T> = None | Some(value: T)

  /** The `(is_valid, error_message)` pairs returned by the validators. */
  datatype Outcome<+E> = Pass | Fail(error: E)

  /** A computation that either yields a value or raises. */
  datatype Result<+T, +E> = Success(value: T) | Failure(error: E)

  /** A submitted value that a conversion (`float(...)`, `fromisoformat`) accepts or rejects. */
  datatype Parsed<+T> = Parsed(value: T) | Unparsable
}
