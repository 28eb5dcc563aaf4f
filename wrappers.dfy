/** Rust's `Option` and `Result` (the `syn::Result` of the generators is `Result<T, Error>`). */
module Wrappers {

  datatype Option<+T> = None | Some(value: T)

  datatype Result<+T, +E> = Ok(value: T) | Err(error: E)
}
