/** Small failure-compatible wrappers shared by the modules of this project. */
module Wrappers {

  /** Rust's `Option<T>`. */
  datatype Option<+T> = None | Some(value: T)
}
