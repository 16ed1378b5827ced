/** A value that may be absent (`null` in the scene code). */
module Wrappers {
  datatype Option<T> = None | Some(value: T)
}
