/** The optional value used where the Ruby code yields a string or `nil`. */
module Wrappers {

  datatype Option<+T> = None | Some(value: T)
}
