/**
 Bytes as a stream of bits, least significant bit of each byte first: the order of the C3 checksum and of Modbus coils.
 */
module BitStream {
  import opened Bits
  import opened Bytes

  /** The bits of a byte in transmission order: least significant first. */
  function ByteBits(b: byte): (bits: seq<bool>)
    ensures |bits| == 8
  {
    seq(8, i requires 0 <= i < 8 => Bit(b, i))
  }

  /** The bits of a message, byte by byte. */
  function MessageBits(data: seq<byte>): (bits: seq<bool>)
    ensures |bits| == 8 * |data|
  {
    if data == [] then [] else MessageBits(data[..|data| - 1]) + ByteBits(data[|data| - 1])
  }

  lemma ByteBitsInjective(a: byte, b: byte)
    requires ByteBits(a) == ByteBits(b)
    ensures a == b
  {
    forall i: nat | i < 8 ensures Bit(a, i) == Bit(b, i) {
      assert ByteBits(a)[i] == ByteBits(b)[i];
    }
    Widths();
    BitsDetermine(a, b, 8);
  }

  lemma {:induction false} MessageBitsInjective(a: seq<byte>, b: seq<byte>)
    requires |a| == |b| && MessageBits(a) == MessageBits(b)
    ensures a == b
  {
    if a != [] {
      var n := |a| - 1;
      assert MessageBits(a)[8 * n..] == ByteBits(a[n]) && MessageBits(b)[8 * n..] == ByteBits(b[n]);
      assert MessageBits(a)[..8 * n] == MessageBits(a[..n]) && MessageBits(b)[..8 * n] == MessageBits(b[..n]);
      ByteBitsInjective(a[n], b[n]);
      MessageBitsInjective(a[..n], b[..n]);
    }
  }

  lemma {:induction false} MessageBitsConcat(a: seq<byte>, b: seq<byte>)
    ensures MessageBits(a + b) == MessageBits(a) + MessageBits(b)
  {
    if b == [] {
      assert a + b == a;
    } else {
      assert (a + b)[..|a + b| - 1] == a + b[..|b| - 1];
      MessageBitsConcat(a, b[..|b| - 1]);
    }
  }

  lemma MessageBitsSlice(a: seq<byte>, i: nat, j: nat)
    requires i <= j <= |a|
    ensures MessageBits(a[i..j]) == MessageBits(a)[8 * i..8 * j]
  {
    assert a[..j] == a[..i] + a[i..j] && a == a[..j] + a[j..];
    MessageBitsConcat(a[..j], a[j..]);
    MessageBitsConcat(a[..i], a[i..j]);
  }
}
