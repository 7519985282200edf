/** Optional values and pass/fail outcomes used across the model. */
module Wrappers {

  /** A value that may be absent (PHP's `false`/`null` returns). */
  datatype Option<+T> = None | Some(value: T)

  /** The outcome of a step that may fail with an error instead of producing a value. */
  datatype Outcome<+E> = Pass | Fail(error: E)
}
