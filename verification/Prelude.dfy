/** Small types shared by every component model. */
module Prelude {
  /** An optional value: Swift's and Rust's optionals. */
  datatype Option<+T> = None | Some(value: T)

  /** The outcome of an operation that can throw or return an error. */
  datatype Result<+T, +E> = Ok(value: T) | Err(error: E)

  /** One octet of a wire format. */
  type Byte = b: int | 0 <= b < 256
}
