/** An optional value: a DOM lookup that may find no element, a configuration
    value that may be unset. */
module Wrappers {

  datatype Option<+T> = None | Some(value: T)
}
