/** Option, for the nullable values of the application (a missing URI, a failed
    lookup, an unset proxy). */
module Wrappers {
  datatype Option<+T> = None | Some(value: T)
}
