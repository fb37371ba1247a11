/** Machine integers and fixed-size byte strings shared by every component. */
module Bytes {

  newtype byte = x: int | 0 <= x < 0x100

  newtype u32 = x: int | 0 <= x < 0x1_0000_0000

  /** HashLen of SHA-256, in octets. */
  const HASH_LEN: nat := 32

  /** A string of n zero octets. */
  function Zeros(n: nat): (z: seq<byte>)
    ensures |z| == n
    ensures forall i :: 0 <= i < n ==> z[i] == 0
  {
    seq(n, _ => 0)
  }

  /** The output of SHA-256 or HMAC-SHA256: exactly HashLen octets. */
  type Hash = s: seq<byte> | |s| == HASH_LEN witness Zeros(HASH_LEN)
}
