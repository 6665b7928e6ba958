/** Python's `X | None`: an optional argument or a lookup that may miss. */
module Wrappers {

  datatype Option<T> = None | Some(value: T)
}
