/** The optional value that stands for Python's `X | None`. */
module Wrappers {

  datatype Option<+T> = None | Some(value: T)
}
