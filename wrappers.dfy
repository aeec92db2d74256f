/** The optional value used for nullable columns (a port that may be NULL). */
module Wrappers {

  datatype Option<+T> = None | Some(value: T)
}
