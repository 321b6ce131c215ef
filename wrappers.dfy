/** Optional values and pass/fail outcomes. */
module Wrappers {

  /** A value that may be absent: an optional dictionary entry of the program. */
  datatype Option<+T> = None | Some(value: T)

  /** The outcome of a check that either passes or raises an error value. */
  datatype Outcome<+E> = Pass | Fail(error: E)
}
