/** Bit fields of Python integers, and their values, put together from nibbles. */
module Fields {
  import opened Common

  function Nibble(n: int): bv4
    requires 0 <= n < 16
  {
    n as bv4
  }

  function Octet(n: int): Byte
    requires 0 <= n < 256
  {
    ((Nibble(n / 16) as Byte) << 4) | (Nibble(n % 16) as Byte)
  }

  function OctetValue(b: Byte): (n: int)
    ensures 0 <= n < 256
  {
    16 * (((b >> 4) as bv4) as int) + (((b & 0xF) as bv4) as int)
  }

  function Word(n: int): bv12
    requires 0 <= n < 4096
  {
    ((Nibble(n / 256) as bv12) << 8) | (Octet(n % 256) as bv12)
  }

  function WordValue(x: bv12): (n: int)
    ensures 0 <= n < 4096
  {
    256 * (((x >> 8) as bv4) as int) + OctetValue((x & 0xFF) as Byte)
  }

  lemma NibbleFits(n: int)
    requires 0 <= n < 16
    ensures Nibble(n) as int == n
  {
  }

  lemma Nibbles(h: bv4, l: bv4)
    ensures var b := ((h as Byte) << 4) | (l as Byte); (b >> 4) as bv4 == h && (b & 0xF) as bv4 == l
  {
  }

  lemma NibbleOctet(h: bv4, l: Byte)
    ensures var x := ((h as bv12) << 8) | (l as bv12); (x >> 8) as bv4 == h && (x & 0xFF) as Byte == l
  {
  }

  lemma OctetFits(n: int)
    requires 0 <= n < 256
    ensures OctetValue(Octet(n)) == n
  {
    NibbleFits(n / 16);
    NibbleFits(n % 16);
    Nibbles(Nibble(n / 16), Nibble(n % 16));
  }

  lemma WordFits(n: int)
    requires 0 <= n < 4096
    ensures WordValue(Word(n)) == n
  {
    NibbleFits(n / 256);
    OctetFits(n % 256);
    NibbleOctet(Nibble(n / 256), Octet(n % 256));
  }
}
