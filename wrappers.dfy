/** The optional value every lookup of the record store returns: Python's
    `None` or a value. */
module Wrappers {
  datatype Option<+T> = None | Some(value: T)
}
