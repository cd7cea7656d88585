/** Failure-compatible optional values: None stands for a Python exception
    (an IndexError from list indexing, a shape error from a tensor operation). */
module Wrappers {
  datatype Option<+T> = None | Some(value: T)
}
