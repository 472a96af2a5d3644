/** The optional value used for JavaScript's `null` / missing fields. */
module Wrappers {

  datatype Option<+T> = None | Some(value: T)
}
