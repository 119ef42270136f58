/** The optional value used by the timer and delay modules. */
module Wrappers {

  datatype Option<T> = None | Some(value: T)
}
