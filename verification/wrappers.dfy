/** The optional value and the success-or-failure status shared by the modules of the
    model. */
module Wrappers {

  datatype Option<+T> = None | Some(value: T)

  /** The outcome of an operation that either succeeds with nothing to return or fails with `()`,
      as Rust's `Result<(), ()>`. */
  datatype Status = Ok | Err
}
