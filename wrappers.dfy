/** An optional value: a JSON field that may be absent, a stored item that may be missing. */
module Wrappers {

  datatype Option<+T> = None | Some(value: T)
}
