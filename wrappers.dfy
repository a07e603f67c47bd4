/** A value that may be absent: JavaScript's `null`/`undefined`, Python's `None`,
    or a network step that failed. */
module Wrappers {

  datatype Option<+T> = None | Some(value: T)
}
