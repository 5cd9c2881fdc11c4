/** Option and Result datatypes shared by the volume renderers and the schema loaders. */
module Wrappers {

  /** A value that may be absent, such as an optional field left unset. */
  datatype Option<+T> = None | Some(value: T)

  /** Either a computed value or the error the source raises instead. */
  datatype Result<+T, +E> = Ok(value: T) | Err(error: E)
}
