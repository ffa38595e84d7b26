/** Option and Outcome: the "absent" marker and the thrown-error path, made explicit. */
module Wrappers {

  /** `None` stands for JavaScript's `undefined` (or, for a reduction, "no value"). */
  datatype Option<+T> = None | Some(value: T)

  /** The result of an operation that either completes or throws an error carrying a message. */
  datatype Outcome<+E> = Pass | Fail(error: E)
}
