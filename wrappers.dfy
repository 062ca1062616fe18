/** The optional value used throughout the model for Rust's `Option<T>`. */
module Wrappers {
  datatype Option<+T> = None | Some(value: T)
}
