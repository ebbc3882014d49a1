/** What several modules use: optional values, arithmetic that stops at zero, bytes. */
module Basics {
  datatype Option<+T> = None | Some(value: T)

  function Min(a: nat, b: nat): nat {
    if a < b then a else b
  }

  /** `math.max(a - b, 0)` and `saturating_sub`. */
  function Monus(a: nat, b: nat): nat {
    if a < b then 0 else a - b
  }

  type byte = n: int | 0 <= n < 256

  const TWO_TO_THE_32 := 0x1_0000_0000
}
