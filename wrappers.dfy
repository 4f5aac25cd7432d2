/** A nullable value: Kotlin's `T?` as a datatype. */
module Wrappers {

  datatype Option<+T> = None | Some(value: T)
}
