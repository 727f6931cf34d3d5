/** Optional values and results, used where the Go code has nil pointers and error returns. */
module Wrappers {

  datatype Option<+T> = None | Some(value: T)

  /** An operation that either produced a value or failed with an error message (Go's `error`). */
  datatype Result<+T> = Ok(value: T) | Err(msg: string)
}
