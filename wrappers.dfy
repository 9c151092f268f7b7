/** An optional value, standing for Go's nil pointers, slices and errors. */
module Wrappers {
  datatype Option<+T> = None | Some(value: T)
}
