/** Small helper types shared by the other modules. */
module Basics {

  /** An optional value, as Rust's `Option`. */
  datatype Option<+T> = None | Some(value: T)
}
