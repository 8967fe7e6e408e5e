/** The "value or unset" type that stands for Python's `None`. */
module Wrappers {

  datatype Option<+T> = None | Some(value: T)
}
