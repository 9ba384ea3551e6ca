/** Bytes and the big-endian integers of the Amazon Event Stream encoding. */
module Bytes {

  type byte = x: int | 0 <= x < 256

  const TWO32 := 0x1_0000_0000
  const TWO16 := 0x1_0000

  function U16(b: seq<byte>, at: nat): (r: nat)
    requires at + 2 <= |b|
    ensures r < TWO16
  {
    256 * (b[at] as int) + b[at + 1]
  }

  function U32(b: seq<byte>, at: nat): (r: nat)
    requires at + 4 <= |b|
    ensures r < TWO32
  {
    U16(b, at) * TWO16 + U16(b, at + 2)
  }

  function PutU16(n: nat): (r: seq<byte>)
    requires n < TWO16
    ensures |r| == 2 && U16(r, 0) == n
  {
    [n / 256, n % 256]
  }

  function PutU32(n: nat): (r: seq<byte>)
    requires n < TWO32
    ensures |r| == 4 && U32(r, 0) == n
  {
    var r := PutU16(n / TWO16) + PutU16(n % TWO16);
    assert U16(r, 0) == U16(PutU16(n / TWO16), 0) && U16(r, 2) == U16(PutU16(n % TWO16), 0);
    r
  }
}
