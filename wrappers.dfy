/** The optional value used for the "undefined" slots of a moving-average series
    and for the nullable close of a price bar. */
module Wrappers {
  datatype Option<+T> = None | Some(value: T)
}
