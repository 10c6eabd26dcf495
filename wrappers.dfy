/** The optional value used wherever a component keeps `null` in a state hook. */
module Wrappers {

  datatype Option<+T> = None | Some(value: T)
}
