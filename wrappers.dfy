/** Small value wrappers shared by the models of the platform layer. */
module Wrappers {

  /** A value that may be absent: a pointer result that may be NULL. */
  datatype Option<+T> = None | Some(value: T)
}
