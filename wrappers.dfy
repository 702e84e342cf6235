/** The `null` a Java method may return, made explicit. */
module Wrappers {

  datatype Option<T> = None | Some(value: T)
}
