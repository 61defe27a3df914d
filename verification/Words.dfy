/** 64-bit words and small arithmetic that several modules share. */
module Words {

  const TWO_63: int := 0x8000_0000_0000_0000
  const TWO_64: int := 0x1_0000_0000_0000_0000

  function Min(a: int, b: int): int { if a < b then a else b }

  function Max(a: int, b: int): int { if a < b then b else a }

  /** `(s64)(a - b)` of two u64 values. */
  function SignedDifference(a: int, b: int): int {
    var d := (a - b) % TWO_64;
    if d >= TWO_63 then d - TWO_64 else d
  }
}
