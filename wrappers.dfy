/** The optional value shared by the modules that model a failing read. */
module Wrappers {
  datatype Option<T> = None | Some(value: T)
}
