/** An optional value. */
module Wrappers {

  /** Either a value or nothing. */
  datatype Option<+T> = None | Some(value: T)
}
