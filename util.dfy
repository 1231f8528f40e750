/** The optional value used for `number | null` in the session. */
module Util {
  datatype Option<+T> = None | Some(value: T)
}
