/** The optional value that several components return or store. */
module Wrappers {
  datatype Option<T> = None | Some(value: T)
}
