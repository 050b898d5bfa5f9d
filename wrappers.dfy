/** The optional value used throughout the model for JavaScript's `null`,
    `undefined` and the result of `Array.prototype.find`. */
module Wrappers {

  datatype Option<+T> = None | Some(value: T)
}
