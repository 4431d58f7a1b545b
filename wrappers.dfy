/** The Option and Result types shared by the model, and the model of a Java
    string reference that may be null. */
module Wrappers {

  datatype Option<+T> = None | Some(value: T)

  datatype Result<+T, +E> = Ok(value: T) | Err(error: E)

  /** A Java `String` reference: `None` stands for `null`. */
  type NullableString = Option<string>
}
