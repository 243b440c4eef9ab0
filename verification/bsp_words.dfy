/**
 * Machine words of the uC5282 (ColdFire, 32-bit) board support package:
 * unsigned 32-bit values, signed 32-bit `long`, the conversion between
 * them, and the single-bit masks used by the byte bitmaps in bspstart.c.
 */
module BspWords {

  const TWO_32: int := 0x1_0000_0000

  /** `unsigned long` / `unsigned` on the 32-bit m68k target. */
  newtype u32 = x: int | 0 <= x < 0x1_0000_0000

  /** `long` on the 32-bit m68k target. */
  newtype i32 = x: int | -0x8000_0000 <= x < 0x8000_0000

  /** A code or data pointer; 0 is NULL. */
  type Ptr = u32

  const NULL: Ptr := 0

  datatype Option<T> = None | Some(value: T)

  /** The C conversion `(unsigned long)x` of a `long`: reduction modulo 2^32. */
  function ToUnsigned(x: int): (r: u32)
    ensures r as int % TWO_32 == x % TWO_32
    ensures 0 <= x < TWO_32 ==> r as int == x
    ensures -TWO_32 <= x < 0 ==> r as int == x + TWO_32
  {
    (x % TWO_32) as u32
  }

  /** Unsigned 32-bit addition with wrap-around. */
  function AddU32(a: u32, b: u32): (r: u32)
    ensures a as int + b as int < TWO_32 ==> r as int == a as int + b as int
    ensures a as int + b as int >= TWO_32 ==> r as int == a as int + b as int - TWO_32
  {
    ((a as int + b as int) % TWO_32) as u32
  }

  /** The byte `1 << n` for a bit number 0..7. */
  function Mask(n: int): (m: bv8)
    requires 0 <= n < 8
    ensures m != 0
  {
    (1 as bv8) << n
  }

  /** Whether bit `n` of byte `b` is set. */
  predicate BitSet(b: bv8, n: int)
    requires 0 <= n < 8
  {
    b & Mask(n) != 0
  }

  /** Setting bit `p` of a byte sets that bit and changes no other. */
  lemma SetBitFrame(b: bv8, p: int, q: int)
    requires 0 <= p < 8 && 0 <= q < 8
    ensures BitSet(b | Mask(p), q) <==> BitSet(b, q) || p == q
  {}
}
