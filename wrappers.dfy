/** Small failure-carrying datatypes shared by the other modules. */
module Wrappers {

  /** Python's `None` or a present value. */
  datatype Option<+T> = None | Some(value: T)

  /** The outcome of a call that may raise an exception its caller does not catch. */
  datatype Call<+T> = Returned(value: T) | Raised
}
