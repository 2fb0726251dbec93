/** Bytes, and the pieces of files made of them. */
module Bytes {
  type byte = b: int | 0 <= b < 256

  const NEWLINE: byte := 10

  /** A slice of what stands behind a position. */
  lemma SliceBehind(buf: seq<byte>, pos: nat, rest: seq<byte>, a: nat, b: nat)
    requires pos <= |buf| && buf[pos..] == rest && a <= b <= |rest|
    ensures buf[pos + a..pos + b] == rest[a..b]
  {
    forall i | 0 <= i < b - a ensures buf[pos + a..pos + b][i] == rest[a..b][i] {
      assert buf[pos..][a + i] == buf[pos + a + i];
    }
  }
}
