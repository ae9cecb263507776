/** The optional value returned by the lookups (Python's `None` or an element). */
module Wrappers {

  datatype Option<+T> = None | Some(value: T)
}
