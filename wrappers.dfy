/** The optional value used throughout the model (Rust `Option`, and a JavaScript value that may be `undefined`). */
module Wrappers {
  datatype Option<+T> = None | Some(value: T)
}
