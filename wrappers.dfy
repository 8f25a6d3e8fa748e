/** The optional value used where the service accepts `None` in place of a string. */
module Wrappers {

  datatype Option<+T> = None | Some(value: T)
}
