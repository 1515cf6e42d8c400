module Wrappers {

  /** A value that may be missing; in the source mostly a null pointer. */
  datatype Option<T> = None | Some(value: T)
}
