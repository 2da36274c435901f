/** Values shared by the signature validator and the triphase post-processor. */
module Common {

  /** One octet of a Java `byte[]`, read as an unsigned value. */
  newtype byte = x: int | 0 <= x < 256

  /** A non-null Java `byte[]`; a Java `null` is modelled with `Option`. */
  type Bytes = seq<byte>

  /** A value that Java may leave `null`. */
  datatype Option<+T> = None | Some(value: T)

  /** A normal return, or the exception that ends the call. */
  datatype Result<+T, +E> = Ok(value: T) | Err(error: E)
}
