/** The types shared by every module of the model. */
module Wrappers {

  datatype Option<+T> = None | Some(value: T)

  datatype Result<+T, +E> = Ok(value: T) | Err(error: E)

  type byte = b: int | 0 <= b < 256

  /** A zone, output or client id. The system compares ids only for equality, so a number names a string. */
  datatype Id = Id(number: nat)

  /** A name, title, mime type or content hash: shown to people, and compared at most with another text. */
  datatype Text = Text(number: nat)
}
