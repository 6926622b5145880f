/** The optional value used for results that the script may fail to produce. */
module Wrappers {
  datatype Option<+T> = None | Some(value: T)
}
