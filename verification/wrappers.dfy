/** A value that may be absent: JavaScript's `null` for the page state, `undefined` for a missing user. */
module Wrappers {

  datatype Option<+T> = None | Some(value: T)
}
