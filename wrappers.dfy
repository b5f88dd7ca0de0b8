/** Option and pass/fail outcome values shared by the modules of this model. */
module Wrappers {

  datatype Option<+T> = None | Some(value: T)

  /** The result of an operation that either passes or fails with an error value. */
  datatype Outcome<+E> = Pass | Fail(error: E)
}
