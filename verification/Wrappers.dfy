/** The one container type the whole project shares. */
module Wrappers {
  /** A Go pointer, slice or map that may be nil, or a value that may be missing. */
  datatype Option<+T> = None | Some(value: T)
}
