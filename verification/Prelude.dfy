/** Small shared vocabulary: optional values, results, and the fixed-width integer
    operations of the original written out over unbounded integers. */
module Prelude {
  datatype Option<+T> = None | Some(value: T)

  datatype Result<+T, +E> = Ok(value: T) | Err(error: E)

  const U32_MAX: nat := 0xFFFF_FFFF
  const U64_MAX: nat := 0xFFFF_FFFF_FFFF_FFFF

  function Min(a: int, b: int): int { if a <= b then a else b }

  function Max(a: int, b: int): int { if a >= b then a else b }

  /** Saturating subtraction on unsigned integers. */
  function SatSub(a: nat, b: nat): nat { if a >= b then a - b else 0 }

  /** Saturating addition at the given ceiling. */
  function SatAdd(a: nat, b: nat, ceiling: nat): nat { Min(a + b, ceiling) }

  /** Division rounding up. */
  function DivCeil(a: nat, b: nat): nat
    requires b > 0
  {
    (a + b - 1) / b
  }
}
