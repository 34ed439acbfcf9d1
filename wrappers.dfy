/** The optional value used for absent headers and cache misses. */
module Wrappers {

  datatype Option<+T> = None | Some(value: T)

}
