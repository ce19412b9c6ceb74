/** The optional value used for JavaScript's `undefined`/`null` and for calls that may throw. */
module Wrappers {
  datatype Option<+T> = None | Some(value: T)
}
