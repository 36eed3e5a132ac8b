/** A value that may be missing: `null` or `undefined` in JavaScript. */
module Wrappers {

  datatype Option<+T> = None | Some(value: T)
}
