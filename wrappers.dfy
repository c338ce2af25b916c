/** The optional value used for the error's optional fields. */
module Wrappers {

  /** A value that may be absent, as an optional property of a JavaScript object. */
  datatype Option<+T> = None | Some(value: T)
}
