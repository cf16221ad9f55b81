/** Machine integers and small helpers shared by the whole model. */
module Base {

  /** 2^64: one past the largest value of Rust's `u64`. */
  const U64_LIMIT: nat := 0x1_0000_0000_0000_0000

  /** Rust's `u64`. */
  type U64 = x: nat | x < U64_LIMIT

  datatype Option<+T> = None | Some(value: T)

  function Min(a: nat, b: nat): nat {
    if a <= b then a else b
  }

  /** `a + b` on `u64` as a release build computes it: wrapping around at 2^64. */
  function WrappingAdd(a: U64, b: U64): U64 {
    if a + b < U64_LIMIT then a + b else a + b - U64_LIMIT
  }

  /** `a - b` on `u64` as a release build computes it: wrapping around below zero. */
  function WrappingSub(a: U64, b: U64): U64 {
    if a >= b then a - b else a + U64_LIMIT - b
  }

  /** Both wrap-arounds are arithmetic modulo 2^64. */
  lemma WrappingIsModular(a: U64, b: U64)
    ensures WrappingAdd(a, b) == (a + b) % U64_LIMIT
    ensures WrappingSub(a, b) == (a - b) % U64_LIMIT
  {
  }
}
