/** JavaScript's "a value or undefined", as a datatype. */
module Wrappers {

  datatype Option<+T> = None | Some(value: T)
}
