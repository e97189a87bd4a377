/** Bytes on the wire, and the small definitions that several components share. */
module Bytes {

  /** An unsigned 8-bit value. */
  newtype Byte = x: int | 0 <= x < 256

  datatype Option<+T> = None | Some(value: T)

  /** No byte of `s` is the frame delimiter 0x00. */
  predicate ZeroFree(s: seq<Byte>) {
    forall i :: 0 <= i < |s| ==> s[i] != 0
  }

  /** One past the largest 32-bit value. */
  const U32: nat := 0x1_0000_0000

  function Pow2(k: nat): (p: nat)
    ensures p >= 1
  {
    if k == 0 then 1 else 2 * Pow2(k - 1)
  }
}
