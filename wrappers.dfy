/** Optional values and pass/fail outcomes used throughout the model. */
module Wrappers {

  /** A value that may be missing (`undefined`/`null` in the source). */
  datatype Option<+T> = None | Some(value: T)

  /** The outcome of a step that may throw: `Fail` carries the thrown error. */
  datatype Outcome<+E> = Pass | Fail(error: E)
}
