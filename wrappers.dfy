/** An optional value shared by the other modules. */
module Wrappers {

  /** A value that may be missing: JavaScript's `null`/`undefined` on one side, a present value on the other. */
  datatype Option<+T> = None | Some(value: T)
}
