/** Small helper datatypes shared by the other modules. */
module Wrappers {

  /** A value that may be absent: a JavaScript `undefined` argument or an optional error. */
  datatype Option<+T> = None | Some(value: T)

  /** A JavaScript `Error` object, identified by its message. */
  datatype Error = Error(message: string)
}
