/** The optional value used wherever a JSON field of the storefront may be absent. */
module Wrappers {

  datatype Option<+T> = None | Some(value: T)
}
