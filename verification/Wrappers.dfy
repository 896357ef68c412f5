/** Absence and failure, as the servers report them. */
module Wrappers {
  /** A pointer or value that may be missing. */
  datatype Option<+T> = None | Some(value: T)

  /** What a call that returns only an `error` reports. */
  datatype Outcome<+E> = Ok | Err(error: E)
}
