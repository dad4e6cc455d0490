/** A value that may be missing, used where the source returns an empty
    result or nothing at all. */
module Wrappers {

  datatype Option<T> = None | Some(value: T)
}
