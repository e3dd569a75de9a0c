/** Result types shared by the modules: a Go pointer or map lookup that may be
    absent, and a Go call that returns a value or an error. */
module Wrappers {
  datatype Option<+T> = None | Some(value: T)

  datatype Result<+T, +E> = Ok(value: T) | Err(error: E)
}
