/** The optional value used for "no key mapping" and "no overlapping obstacle". */
module Wrappers {
  datatype Option<T> = None | Some(value: T)
}
