/** Small datatypes shared by the models. */
module Common {

  datatype Option<+T> = None | Some(value: T) {
    /** Python's `x or default` on an optional value. */
    function GetOr(default: T): T {
      match this
      case Some(v) => v
      case None => default
    }
  }

  datatype Result<+T> = Ok(value: T) | Err(reason: string)

  /** One octet of a byte string. */
  type Byte = b: int | 0 <= b < 256

  type Bytes = seq<Byte>

  function Min(a: int, b: int): int {
    if a <= b then a else b
  }

  function Max(a: int, b: int): int {
    if a <= b then b else a
  }
}
