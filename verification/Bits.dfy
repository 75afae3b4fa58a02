/** Bit registers. A Python int used as a register of `w` bits is the list of its
    bits, bit k at index k. */
module Bits {
  import opened Common

  type Bits = seq<bool>

  function Xor(a: Bits, b: Bits): (r: Bits)
    requires |a| == |b|
    ensures |r| == |a|
  {
    seq(|a|, i requires 0 <= i < |a| => a[i] != b[i])
  }

  function Zeros(n: nat): Bits { seq(n, _ => false) }

  function Ones(n: nat): Bits { seq(n, _ => true) }

  function Not(a: Bits): (r: Bits)
    ensures |r| == |a|
  {
    seq(|a|, i requires 0 <= i < |a| => !a[i])
  }

  function Rev(a: Bits): (r: Bits)
    ensures |r| == |a|
  {
    seq(|a|, i requires 0 <= i < |a| => a[|a| - 1 - i])
  }

  function Of8(x: Byte): (r: Bits)
    ensures |r| == 8
  {
    [x & 0x1 != 0, x & 0x2 != 0, x & 0x4 != 0, x & 0x8 != 0, x & 0x10 != 0, x & 0x20 != 0, x & 0x40 != 0,
     x & 0x80 != 0]
  }

  function Of16(x: bv16): (r: Bits)
    ensures |r| == 16
  {
    [x & 0x1 != 0, x & 0x2 != 0, x & 0x4 != 0, x & 0x8 != 0, x & 0x10 != 0, x & 0x20 != 0, x & 0x40 != 0,
     x & 0x80 != 0, x & 0x100 != 0, x & 0x200 != 0, x & 0x400 != 0, x & 0x800 != 0, x & 0x1000 != 0, x &
     0x2000 != 0, x & 0x4000 != 0, x & 0x8000 != 0]
  }

  function Of32(x: bv32): (r: Bits)
    ensures |r| == 32
  {
    [x & 0x1 != 0, x & 0x2 != 0, x & 0x4 != 0, x & 0x8 != 0, x & 0x10 != 0, x & 0x20 != 0, x & 0x40 != 0,
     x & 0x80 != 0, x & 0x100 != 0, x & 0x200 != 0, x & 0x400 != 0, x & 0x800 != 0, x & 0x1000 != 0, x &
     0x2000 != 0, x & 0x4000 != 0, x & 0x8000 != 0, x & 0x10000 != 0, x & 0x20000 != 0, x & 0x40000 != 0,
     x & 0x80000 != 0, x & 0x100000 != 0, x & 0x200000 != 0, x & 0x400000 != 0, x & 0x800000 != 0, x &
     0x1000000 != 0, x & 0x2000000 != 0, x & 0x4000000 != 0, x & 0x8000000 != 0, x & 0x10000000 != 0, x &
     0x20000000 != 0, x & 0x40000000 != 0, x & 0x80000000 != 0]
  }

  function ToByte(b: Bits): Byte
    requires |b| == 8
  {
    Put(b[0], 0x01) | Put(b[1], 0x02) | Put(b[2], 0x04) | Put(b[3], 0x08) |
    Put(b[4], 0x10) | Put(b[5], 0x20) | Put(b[6], 0x40) | Put(b[7], 0x80)
  }

  function Put(b: bool, mask: Byte): Byte { if b then mask else 0 }

  lemma ByteBits(b: Bits)
    requires |b| == 8
    ensures Of8(ToByte(b)) == b
  {
  }

  lemma BitsByte(x: Byte)
    ensures ToByte(Of8(x)) == x
  {
  }

  /** The bits of a string of bytes in the order they are sent: bit 0 of each
      byte first. */
  function WireBits(data: seq<Byte>): (r: Bits)
    ensures |r| == 8 * |data|
  {
    if data == [] then [] else Of8(data[0]) + WireBits(data[1..])
  }

  lemma {:induction false} WireConcat(a: seq<Byte>, b: seq<Byte>)
    ensures WireBits(a + b) == WireBits(a) + WireBits(b)
  {
    if a == [] {
      assert a + b == b;
    } else {
      assert (a + b)[1..] == a[1..] + b;
      WireConcat(a[1..], b);
    }
  }

  /** Bytes are recovered from their bits. */
  lemma {:induction false} WireInjective(a: seq<Byte>, b: seq<Byte>)
    requires |a| == |b| && WireBits(a) == WireBits(b)
    ensures a == b
  {
    if a == [] {
    } else {
      assert WireBits(a)[..8] == Of8(a[0]) && WireBits(b)[..8] == Of8(b[0]);
      assert WireBits(a)[8..] == WireBits(a[1..]) && WireBits(b)[8..] == WireBits(b[1..]);
      BitsByte(a[0]);
      BitsByte(b[0]);
      WireInjective(a[1..], b[1..]);
    }
  }

  lemma WireOne(x: Byte)
    ensures WireBits([x]) == Of8(x)
  {
    assert [x][1..] == [];
  }

  /** The bytes sent as these bits. */
  function FromWire(b: Bits): (r: seq<Byte>)
    requires |b| % 8 == 0
    ensures |r| == |b| / 8
  {
    if b == [] then [] else [ToByte(b[..8])] + FromWire(b[8..])
  }

  lemma {:induction false} FromWireBits(b: Bits)
    requires |b| % 8 == 0
    ensures WireBits(FromWire(b)) == b
  {
    if b == [] {
    } else {
      ByteBits(b[..8]);
      FromWireBits(b[8..]);
      assert FromWire(b)[1..] == FromWire(b[8..]);
      assert b == b[..8] + b[8..];
    }
  }
}
