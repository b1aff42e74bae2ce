/** Absent or present value, for the source's nil pointers and missing map entries. */
module Wrappers {
  datatype Option<+T> = None | Some(value: T)
}
