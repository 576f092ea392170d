/** The optional value every other module uses for Go's nil pointers and missing rows. */
module Wrappers {
  datatype Option<+T> = None | Some(value: T)
}
