/** The absent-or-present value the registry's lookups return in place of Java's null. */
module Wrappers {

  datatype Option<+T> = None | Some(value: T)

}
