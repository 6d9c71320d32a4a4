/** Values shared by the other modules: optional values and bytes. */
module Common {

  /** Python's `None` or a present value. */
  datatype Option<+T> = None | Some(value: T)

  /** One octet of a file or of an HTTP body. */
  newtype byte = x: int | 0 <= x < 256
}
