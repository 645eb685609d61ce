/** Option and Result: the optional fields of the source's records and the
    errors its helpers throw. */
module Wrappers {

  /** `undefined` (None) or a value (Some). */
  datatype Option<+T> = None | Some(value: T)

  /** A computed value, or the message of the error the source throws. */
  datatype Result<+R> = Ok(value: R) | Err(message: string)
}
