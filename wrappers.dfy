/** The optional value used wherever the Go code returns a nil pointer or an error it does not inspect. */
module Wrappers {
  datatype Option<+T> = None | Some(value: T)
}
