/** Bytes as numbers, for the parts that do no bit twiddling. */
module Octets {
  type Octet = x: int | 0 <= x < 256

  function Least(a: nat, b: nat): (m: nat)
    ensures m <= a && m <= b && (m == a || m == b)
  {
    if a <= b then a else b
  }
}
