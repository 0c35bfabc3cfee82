/** The "index or nothing" result of a registration: JavaScript's `null`
    becomes None. */
module Wrappers {
  datatype Option<+T> = None | Some(value: T)
}
