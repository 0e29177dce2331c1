/** The optional value used where the source may have nothing to offer
    (a save file that could not be read or decoded). */
module Wrappers {

  datatype Option<+T> = None | Some(value: T)
}
