/** Unsigned 64-bit arithmetic as a release build of the agent performs it:
    `+` and `-` on `u64` wrap around modulo 2^64 (a debug build would panic instead). */
module Wrapping {

  const MODULUS: int := 0x1_0000_0000_0000_0000

  type u64 = x: int | 0 <= x < MODULUS

  type i64 = x: int | -0x8000_0000_0000_0000 <= x < 0x8000_0000_0000_0000

  /** `a + b` on u64, wrapping on overflow. */
  function WrapAdd(a: u64, b: u64): (r: u64)
    ensures a + b < MODULUS ==> r == a + b
    ensures a + b >= MODULUS ==> r == a + b - MODULUS
  {
    (a + b) % MODULUS
  }

  /** `a - b` on u64, wrapping on underflow. */
  function WrapSub(a: u64, b: u64): (r: u64)
    ensures b <= a ==> r == a - b
    ensures a < b ==> r == a - b + MODULUS
    ensures WrapAdd(r, b) == a
  {
    (a - b) % MODULUS
  }

  /** Adding to a wrapped partial sum is the same as wrapping the whole sum. */
  lemma WrapAddMod(s: nat, x: u64)
    ensures WrapAdd(s % MODULUS, x) == (s + x) % MODULUS
  {
    var q := s / MODULUS;
    assert s == q * MODULUS + s % MODULUS;
    var t := s % MODULUS + x;
    if t < MODULUS {
      assert (s + x) == q * MODULUS + t;
    } else {
      assert (s + x) == (q + 1) * MODULUS + (t - MODULUS);
    }
  }

  /** `i64 as u64`: two's-complement reinterpretation of a signed 64-bit value. */
  function I64AsU64(t: i64): (r: u64)
    ensures 0 <= t ==> r == t
    ensures t < 0 ==> r == t + MODULUS && r >= 0x8000_0000_0000_0000
  {
    if t < 0 then t + MODULUS else t
  }
}
