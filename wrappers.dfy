/** The optional value used by the decoders and the pin-role lookup. */
module Wrappers {

  datatype Option<+T> = None | Some(value: T)
}
