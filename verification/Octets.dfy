/** Octets, and the two octets of a 16-bit word. */
module Octets {
  type byte = bv8

  function LowOctet(x: bv16): byte {
    (x & 0xff) as byte
  }

  function HighOctet(x: bv16): byte {
    ((x >> 8) & 0xff) as byte
  }
}
