/** The optional-value datatype used for `undefined` in the model. */
module Wrappers {

  /** `None` stands for JavaScript's `undefined`, `Some(v)` for a defined value. */
  datatype Option<+T> = None | Some(value: T)
}
