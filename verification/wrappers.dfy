/** The optional-value datatype used for product images and for the
    outcome of parsing persisted state. */
module Wrappers {

  datatype Option<+T> = None | Some(value: T)
}
