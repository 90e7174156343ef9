/** Small helper types shared by the other modules. */
module Wrappers {

  /** A value that may be absent: a `null` the page script can observe. */
  datatype Option<+T> = None | Some(value: T)
}
