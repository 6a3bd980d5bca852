/** The optional value used for `null` / absent links and fields. */
module Wrappers {
  datatype Option<+T> = None | Some(value: T)
}
