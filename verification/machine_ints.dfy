/**
 Fixed-width machine integers of the C code, as bounded subsets of `int`,
 together with the two conversions the telemetry code relies on: unsigned
 32-bit wrap-around and the implicit truncation of an unsigned value stored
 into a `uint16_t`.
 */
module MachineInts {

  const TWO_8: int := 0x100
  const TWO_16: int := 0x1_0000
  const TWO_31: int := 0x8000_0000
  const TWO_32: int := 0x1_0000_0000

  type u8 = x: int | 0 <= x < TWO_8
  type u16 = x: int | 0 <= x < TWO_16
  type u32 = x: int | 0 <= x < TWO_32
  type i32 = x: int | -TWO_31 <= x < TWO_31

  /** True when `x` is representable as a C `int32_t`. */
  predicate IsI32(x: int) {
    -TWO_31 <= x < TWO_31
  }

  /** Reduction modulo 2^32: the value an unsigned 32-bit C expression yields. */
  function Wrap32(x: int): (r: u32)
    ensures (x - r) % TWO_32 == 0
    ensures 0 <= x < TWO_32 ==> r == x
  {
    x % TWO_32
  }

  /** Unsigned 32-bit subtraction `a - b` as C computes it. */
  function Sub32(a: u32, b: u32): (r: u32)
    ensures b <= a ==> r == a - b
    ensures a < b ==> r == a - b + TWO_32
  {
    Wrap32(a - b)
  }

  /** Conversion of an unsigned value to `uint16_t`: keeps the low 16 bits. */
  function Trunc16(x: nat): (r: u16)
    ensures (x - r) % TWO_16 == 0
    ensures x < TWO_16 ==> r == x
  {
    x % TWO_16
  }
}
