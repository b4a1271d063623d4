/** The optional value used for JSON keys that may be absent and for React's `null` element. */
module Wrappers {

  datatype Option<+T> = None | Some(value: T)
}
