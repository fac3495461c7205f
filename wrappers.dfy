/** Failure-carrying result types shared by the farm model. */
module Wrappers {

  /** An optional value: a lookup that may find nothing. */
  datatype Option<+T> = None | Some(value: T)

  /** The outcome of an operation that returns nothing on success and
      an error value when it raises. */
  datatype Outcome<+E> = Pass | Fail(error: E)
}
