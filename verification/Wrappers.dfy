// A value that may be absent, in place of Go's nil pointers and error returns.
module Wrappers {
  datatype Option<+T> = None | Some(value: T)
}
