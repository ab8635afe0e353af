/**
  Machine integers and the small failure-carrying datatypes shared by the
  other modules.  C++ `uint64_t` arithmetic wraps modulo 2^64; the model
  spells that out with `Mul64` and `Add64`.
*/
module Base {

  const TwoTo64: int := 0x1_0000_0000_0000_0000

  /** An unsigned 64-bit machine word. */
  type u64 = x: int | 0 <= x < 0x1_0000_0000_0000_0000

  /** The all-ones 64-bit word. */
  const MaxU64: u64 := 0xFFFF_FFFF_FFFF_FFFF

  /** `a * b` on `uint64_t`: the product modulo 2^64. */
  function Mul64(a: u64, b: u64): (r: u64)
    ensures a * b < TwoTo64 ==> r == a * b
    ensures a == 0 || b == 0 ==> r == 0
  {
    var p := a * b;
    assert 0 <= p by {
      if a > 0 && b > 0 { assert a * b >= b; }
    }
    p % TwoTo64
  }

  /** `a += b` on `uint64_t`: the sum modulo 2^64. */
  function Add64(a: u64, b: u64): (r: u64)
    ensures a + b < TwoTo64 ==> r == a + b
    ensures b == 0 ==> r == a
  {
    (a + b) % TwoTo64
  }

  datatype Option<+T> = None | Some(value: T)

  datatype Result<+T, +E> = Success(value: T) | Failure(error: E)
}
