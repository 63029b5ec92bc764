/** The optional value used across the relay model (a JavaScript value that may be null). */
module Wrappers {

  datatype Option<+T> = None | Some(value: T)
}
