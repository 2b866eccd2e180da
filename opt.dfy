/** The optional value used throughout the model (Rust's `Option`). */
module Opt {
  datatype Option<+T> = None | Some(value: T)
}
