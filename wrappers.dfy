/** The nullable values of the library: a NULL column, an unset session key,
    a `?string` return value. */
module Wrappers {

  datatype Option<+T> = None | Some(value: T)
}
