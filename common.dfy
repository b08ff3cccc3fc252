/** Shared value types: the error-carrying results the Rust code returns
    (`AppResult<T>`, `Option<T>`) and the machine integer bounds it relies on. */
module Common {

  /** Rust's `Option<T>`. */
  datatype Option<T> = None | Some(value: T)

  /** `AppResult<()>`: success, or an error with its message. */
  datatype Outcome = Ok | Err(message: string)

  /** `AppResult<T>`: a value, or an error with its message. */
  datatype Result<T> = Success(value: T) | Failure(message: string)

  /** An unsigned byte, as received from the terminal. */
  newtype byte = x: int | 0 <= x < 256

  const U8_MAX: nat := 0xFF
  const U16_MAX: nat := 0xFFFF
  const U32_MAX: nat := 0xFFFF_FFFF
  const U64_MAX: nat := 0xFFFF_FFFF_FFFF_FFFF

  function Min(a: int, b: int): int { if a <= b then a else b }
  function Max(a: int, b: int): int { if a >= b then a else b }
}
