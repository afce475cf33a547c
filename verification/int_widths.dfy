/** The fixed-width integer types the scheduler stores and computes with,
    and the Rust operations on them that behave differently from
    mathematical integers: truncating division, the wrapping `as i32`
    cast and the saturating add. */
module IntWidths {

  const U16_MAX: nat := 0xFFFF
  const U32_MAX: nat := 0xFFFF_FFFF
  const I32_MIN: int := -0x8000_0000
  const I32_MAX: int := 0x7FFF_FFFF

  predicate IsI32(x: int) {
    I32_MIN <= x <= I32_MAX
  }

  /** Rust's `/` on `i64`, which truncates toward zero. */
  function TruncDiv(a: int, b: int): (q: int)
    requires b > 0
    ensures a >= 0 ==> q == a / b
    ensures a < 0 ==> q == -((-a) / b)
  {
    if a >= 0 then a / b else -((-a) / b)
  }

  /** Rust's `as i32`: keep the low 32 bits, read as two's complement. */
  function AsI32(x: int): (r: int)
    ensures IsI32(r)
    ensures IsI32(x) ==> r == x
    ensures (r - x) % 0x1_0000_0000 == 0
  {
    (x - I32_MIN) % 0x1_0000_0000 + I32_MIN
  }

  /** A `u32` above `i32::MAX` cast with `as i32` comes out negative, smaller
      by exactly 2^32. */
  lemma AsI32OfLargeU32(x: int)
    requires I32_MAX < x <= U32_MAX
    ensures AsI32(x) == x - 0x1_0000_0000 && AsI32(x) < 0
  {
  }

  /** `u32::saturating_add_signed`: the sum, clamped to `[0, u32::MAX]`. */
  function SaturatingAddSigned(u: nat, d: int): (r: nat)
    ensures r <= U32_MAX
    ensures 0 <= u + d <= U32_MAX ==> r == u + d
    ensures u + d < 0 ==> r == 0
    ensures u + d > U32_MAX ==> r == U32_MAX
  {
    if u + d < 0 then 0 else if u + d > U32_MAX then U32_MAX else u + d
  }
}
