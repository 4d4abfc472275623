/** Small failure-compatible datatypes shared by the other modules. */
module Wrappers {

  /** A value that may be absent (JavaScript's `undefined`). */
  datatype Option<+T> = None | Some(value: T)

  /** The settled state of an awaited call: the value it returned, or the value it threw. */
  datatype Reply<+T> = Returned(value: T) | Threw(error: string)
}
