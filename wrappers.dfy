/** The optional-value datatype used for JavaScript's `undefined` and for readers that can fail. */
module Wrappers {
  datatype Option<+T> = None | Some(value: T)
}
