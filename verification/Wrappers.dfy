/** The conventional optional value; a Go `error` is an `Option<Err>` whose None is nil. */
module Wrappers {
  datatype Option<+T> = None | Some(value: T)
}
