/** Rust's `Option`, as used for the staged amount, list cursors and menu focus. */
module Wrappers {

  datatype Option<+T> = None | Some(value: T)
}
