/** The optional value used wherever the source may or may not produce something
    (a callback that is not called, a lookup that finds nothing). */
module Wrappers {

  datatype Option<+T> = None | Some(value: T)
}
