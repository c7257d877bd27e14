/**
 * Bytes of the 8-bit AVR target: `unsigned char` values and the bitwise
 * operators the driver applies to them.
 */
module Bytes {

  /** An `unsigned char`. */
  type byte = x: int | 0 <= x < 256

  /** C's `a & b` on two bytes. */
  function BitAnd(a: byte, b: byte): byte
  {
    ((a as bv8) & (b as bv8)) as int
  }

  /** C's `a | b` on two bytes. */
  function BitOr(a: byte, b: byte): byte
  {
    ((a as bv8) | (b as bv8)) as int
  }

  /** Storing an `int` into an `unsigned char`: the value is taken modulo 256. */
  function Truncate(n: int): (r: byte)
    ensures 0 <= n < 256 ==> r == n
    ensures (r - n) % 256 == 0
  {
    n % 256
  }
}
