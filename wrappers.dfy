/** The Option type that stands in for Go's nil pointers. */
module Wrappers {

  datatype Option<+T> = None | Some(value: T)

}
