/** The optional value used throughout the model: JavaScript's `null` or
    `undefined` on one side, a present value on the other. */
module Wrappers {
  datatype Option<+T> = None | Some(value: T)
}
