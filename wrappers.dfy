/** The optional value returned by DOM lookups and by parseInt (None stands for null / NaN). */
module Wrappers {
  datatype Option<+T> = None | Some(value: T)
}
