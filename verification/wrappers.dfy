/** The optional-value datatype used for nullable pointers of the source. */
module Wrappers {

  /** `None` plays the role of a null pointer. */
  datatype Option<+T> = None | Some(value: T)
}
