/** The optional value used wherever the source has `null`, a missing key or a missing header. */
module Wrappers {
  datatype Option<+T> = None | Some(value: T)
}
