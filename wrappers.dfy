/** The optional value used for JavaScript's `undefined` and Python's missing values. */
module Wrappers {

  datatype Option<+T> = None | Some(value: T)
}
