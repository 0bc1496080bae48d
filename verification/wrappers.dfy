/** The optional value used wherever the source answers `null` or reads an absent key. */
module Wrappers {

  datatype Option<+T> = None | Some(value: T)
}
