/** Octets and the fixed-width integers the wire formats are built from. */
module Bytes {

  type byte = x: int | 0 <= x < 256

  type word = x: int | 0 <= x < 65536

  /** The truncating cast to an unsigned octet. */
  function Byte(n: int): byte {
    n % 256
  }

  /** A stream from the pieces it arrives in. */
  function Concat(chunks: seq<seq<byte>>): seq<byte> {
    if chunks == [] then [] else chunks[0] + Concat(chunks[1..])
  }

  function Little16(n: int): seq<byte> {
    [Byte(n), Byte(n / 256)]
  }

  function ReadLittle16(data: seq<byte>, at: nat): int
    requires at + 2 <= |data|
  {
    data[at] as int + 256 * (data[at + 1] as int)
  }

  function Little32(n: int): seq<byte> {
    [Byte(n), Byte(n / 256), Byte(n / 65536), Byte(n / 16777216)]
  }

  function ReadLittle32(data: seq<byte>, at: nat): int
    requires at + 4 <= |data|
  {
    data[at] as int + 256 * (data[at + 1] as int) + 65536 * (data[at + 2] as int) + 16777216 * (data[at + 3] as int)
  }

  function Big16(n: int): seq<byte> {
    [Byte(n / 256), Byte(n)]
  }

  function ReadBig16(data: seq<byte>, at: nat): int
    requires at + 2 <= |data|
  {
    256 * (data[at] as int) + data[at + 1] as int
  }

  lemma Digits16(n: int)
    ensures n % 256 + 256 * (n / 256 % 256) == n % 65536
  {
  }

  lemma Digits32(n: int)
    requires 0 <= n < 0x1_0000_0000
    ensures n % 256 + 256 * (n / 256 % 256) + 65536 * (n / 65536 % 256) + 16777216 * (n / 16777216 % 256) == n
  {
    Digits16(n);
    Digits16(n / 65536);
    assert n / 65536 / 256 == n / 16777216;
  }

  /** Writing and reading back keeps the low sixteen bits. */
  lemma Little16RoundTrip(n: int)
    ensures ReadLittle16(Little16(n), 0) == n % 65536
  {
    Digits16(n);
  }

  lemma Big16RoundTrip(n: int)
    ensures ReadBig16(Big16(n), 0) == n % 65536
  {
    Little16RoundTrip(n);
  }

  lemma Little32RoundTrip(n: int)
    requires 0 <= n < 0x1_0000_0000
    ensures ReadLittle32(Little32(n), 0) == n
  {
    Digits32(n);
  }

  lemma BytesOfLittle16(low: byte, high: byte)
    ensures Little16(low + 256 * (high as int)) == [low, high]
  {
  }

  lemma BytesOfBig16(high: byte, low: byte)
    ensures Big16(256 * (high as int) + low) == [high, low]
  {
  }
}
