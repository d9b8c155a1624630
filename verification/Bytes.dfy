/** Bytes, and big-endian 32-bit integers packed into them. */
module Bytes {
  type Byte = x: int | 0 <= x < 256

  const TWO_31 := 0x8000_0000
  const TWO_32 := 0x1_0000_0000

  function Pack32(n: nat): (r: seq<Byte>)
    requires n < TWO_32
    ensures |r| == 4
  {
    [n / 0x100_0000, n / 0x1_0000 % 256, n / 256 % 256, n % 256]
  }

  function Unpack32(s: seq<Byte>): (n: nat)
    requires |s| == 4
    ensures n < TWO_32
  {
    (((s[0] as int) * 256 + s[1]) * 256 + s[2]) * 256 + s[3]
  }

  lemma UnpackPack(n: nat)
    requires n < TWO_32
    ensures Unpack32(Pack32(n)) == n
  {
  }

  /** Two's complement. */
  function PackSigned(n: int): (r: seq<Byte>)
    requires -TWO_31 <= n < TWO_31
    ensures |r| == 4
  {
    Pack32(if n < 0 then n + TWO_32 else n)
  }

  function UnpackSigned(s: seq<Byte>): (n: int)
    requires |s| == 4
    ensures -TWO_31 <= n < TWO_31
  {
    var u := Unpack32(s);
    if u < TWO_31 then u else u - TWO_32
  }

  lemma UnpackPackSigned(n: int)
    requires -TWO_31 <= n < TWO_31
    ensures UnpackSigned(PackSigned(n)) == n
  {
    UnpackPack(if n < 0 then n + TWO_32 else n);
  }
}
