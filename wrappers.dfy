/** Rust's `Option<T>`, used for optional details and for iterator searches. */
module Wrappers {

  datatype Option<+T> = None | Some(value: T)
}
