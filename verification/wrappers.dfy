/** Small wrapper types shared by the facade and the sync sidecar. */
module Wrappers {

  /** A value that may be absent: a nil Go map, a missing context value, a failed step. */
  datatype Option<+T> = None | Some(value: T)
}
