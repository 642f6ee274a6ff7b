/** The optional value used for an item reference (or the item list) that may be null. */
module Wrappers {

  datatype Option<+T> = None | Some(value: T)
}
