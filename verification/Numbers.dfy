/** Numbers that several modules share. */
module Numbers {
  /** A second in nanoseconds. */
  const SECOND: int := 1_000_000_000

  const TWO_63: int := 0x8000_0000_0000_0000

  function Min(a: int, b: int): int {
    if a <= b then a else b
  }

  function Max(a: int, b: int): int {
    if a >= b then a else b
  }
}
