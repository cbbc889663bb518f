/** An optional value shared by the other modules. */
module Wrappers {
  /** A value that may be absent; stands for a JavaScript value that can be `undefined`. */
  datatype Option<+T> = None | Some(value: T)
}
