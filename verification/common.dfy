/** Shared vocabulary: tokens of the byte-level corpus and the error-carrying result types. */
module Common {

  /** Size of the token alphabet: enwik8 bytes, rounded up to a power of two. */
  const NumTokens: nat := 256

  /** A token identifier, one byte of the corpus. */
  type Token = t: int | 0 <= t < NumTokens

  datatype Option<+T> = None | Some(value: T)

  /** The value of a computation, or the exception that ends it. */
  datatype Result<+T, +E> = Ok(value: T) | Err(error: E)

  function Min(a: int, b: int): int
  {
    if a <= b then a else b
  }
}
