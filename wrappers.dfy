/** The optional-value datatype used throughout the model. */
module Wrappers {

  /** `None` stands for a JavaScript value that is `undefined`. */
  datatype Option<+T> = None | Some(value: T)
}
