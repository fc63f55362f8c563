/** Small failure-compatible wrapper shared by the two components. */
module Wrappers {

  /** An optional value: a remote answer that may be missing, an error that may be absent. */
  datatype Option<+T> = None | Some(value: T)
}
