/** The optional value used where PHP has "unset" or "no result". */
module Wrappers {
  datatype Option<T> = None | Some(value: T)
}
