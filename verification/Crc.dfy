/** The two link CRCs of tb/lr1/lr1_crc.py: their loops, what they compute, and
    which damage they are bound to notice. */
module Crc {
  import opened Common
  import opened Bits
  import T = CrcTheory

  const DLLP_POLY: Bits := Of16(0x100B)
  const DLLP_SEED: Bits := Of16(0xFFFF)
  const LCRC_POLY: Bits := Of32(0x04C1_1DB7)
  const LCRC_SEED: Bits := Of32(0xFFFF_FFFF)

  // ------------------------------------------------------------- _serial

  function Shift(poly: Bits, c: Bits, x: bool): (r: Bits)
    requires |poly| == |c| > 0
    ensures |r| == |c|
  {
    var s := [false] + c[..|c| - 1];
    if x != c[|c| - 1] then Xor(s, poly) else s
  }

  function Shifts(poly: Bits, c: Bits, xs: Bits): (r: Bits)
    requires |poly| == |c| > 0
    ensures |r| == |c|
    decreases |xs|
  {
    if xs == [] then c
    else Shift(poly, Shifts(poly, c, xs[..|xs| - 1]), xs[|xs| - 1])
  }

  /** The register after `data`, bit 0 of each byte first. */
  function Serial(data: seq<Byte>, poly: Bits, seed: Bits): Bits
    requires |poly| == |seed| > 0
  {
    Shifts(poly, seed, WireBits(data))
  }

  method SerialLoop(data: seq<Byte>, poly: Bits, width: nat, seed: Bits) returns (c: Bits)
    requires |poly| == |seed| == width > 0
    ensures c == Serial(data, poly, seed)
  {
    c := seed;
    var top := width - 1;
    for n := 0 to |data|
      invariant |c| == width && c == Serial(data[..n], poly, seed)
    {
      ghost var start := c;
      var b := Of8(data[n]);
      for i := 0 to 8
        invariant |c| == width && c == Shifts(poly, start, b[..i])
      {
        var fb := b[i] != c[top];
        c := [false] + c[..top];
        if fb { c := Xor(c, poly); }
        assert b[..i + 1][..i] == b[..i];
      }
      assert b[..8] == b && data[..n + 1] == data[..n] + [data[n]];
      WireConcat(data[..n], [data[n]]);
      assert WireBits([data[n]]) == b;
      ShiftsConcat(poly, seed, WireBits(data[..n]), b);
    }
    assert data[..|data|] == data;
  }

  lemma {:induction false} ShiftsConcat(poly: Bits, c: Bits, xs: Bits, ys: Bits)
    requires |poly| == |c| > 0
    ensures Shifts(poly, c, xs + ys) == Shifts(poly, Shifts(poly, c, xs), ys)
    decreases |ys|
  {
    if ys == [] {
      assert xs + ys == xs;
    } else {
      assert (xs + ys)[..|xs + ys| - 1] == xs + ys[..|ys| - 1];
      ShiftsConcat(poly, c, xs, ys[..|ys| - 1]);
    }
  }

  // ----------------------------------------------------------- _map_field

  /** Result bit 8g + j goes to field bit 8g + 7 - j. */
  function MapField(r: Bits): (f: Bits)
    requires |r| % 8 == 0
    ensures |f| == |r|
  {
    seq(|r|, k requires 0 <= k < |r| => r[8 * (k / 8) + 7 - k % 8])
  }

  method MapFieldLoop(result: Bits, width: nat) returns (f: Bits)
    requires |result| == width && width % 8 == 0
    ensures f == MapField(result)
  {
    f := Zeros(width);
    for k := 0 to width
      invariant |f| == width
      invariant forall p | 0 <= p < width :: f[p] == (Mirror(p) < k && result[Mirror(p)])
    {
      if result[k] {
        var g, j := k / 8, k % 8;
        f := f[8 * g + 7 - j := true];
      }
      assert forall p | 0 <= p < width :: Mirror(p) == k <==> p == Mirror(k);
    }
  }

  function Mirror(k: nat): (p: nat)
    ensures p / 8 == k / 8 && p % 8 == 7 - k % 8
  {
    8 * (k / 8) + 7 - k % 8
  }

  /** to_bytes(.., 'big'): the byte of the highest bits first. */
  function BigEndian(f: Bits): (r: seq<Byte>)
    requires |f| % 8 == 0
    ensures |r| == |f| / 8
    decreases |f|
  {
    if f == [] then [] else BigEndian(f[8..]) + [ToByte(f[..8])]
  }

  /** The field goes on the wire with the register's top bit first. */
  lemma {:induction false} FieldOnWire(r: Bits)
    requires |r| % 8 == 0
    ensures WireBits(BigEndian(MapField(r))) == Rev(r)
    decreases |r|
  {
    if r == [] {
    } else {
      var low, rest := r[..8], r[8..];
      MapSplit(r);
      FieldOnWire(rest);
      WireConcat(BigEndian(MapField(rest)), [ToByte(Rev(low))]);
      ByteBits(Rev(low));
      WireOne(ToByte(Rev(low)));
      assert Rev(r) == Rev(rest) + Rev(low);
    }
  }

  lemma MapSplit(r: Bits)
    requires |r| % 8 == 0 && r != []
    ensures MapField(r)[..8] == Rev(r[..8]) && MapField(r)[8..] == MapField(r[8..])
  {
    forall k | 8 <= k < |r| ensures MapField(r)[k] == MapField(r[8..])[k - 8] {
      assert (k - 8) / 8 == k / 8 - 1 && (k - 8) % 8 == k % 8;
    }
  }

  // ------------------------------------------------------------- the fields

  function Field(data: seq<Byte>, poly: Bits, seed: Bits): (r: seq<Byte>)
    requires |poly| == |seed| > 0 && |seed| % 8 == 0
    ensures |r| == |seed| / 8
  {
    BigEndian(MapField(Not(Serial(data, poly, seed))))
  }

  /** dllp_crc raises ValueError unless it is given four bytes. */
  function DllpCrc(b4: seq<Byte>): Option<seq<Byte>> {
    if |b4| == 4 then Some(Field(b4, DLLP_POLY, DLLP_SEED)) else None
  }

  function LcrcOver(data: seq<Byte>): (r: seq<Byte>)
    ensures |r| == 4
  {
    Field(data, LCRC_POLY, LCRC_SEED)
  }

  function Inverse(bytes: seq<Byte>): seq<Byte> { seq(|bytes|, i requires 0 <= i < |bytes| => bytes[i] ^ 0xFF) }

  /** {0000b, Seq[11:8]}, Seq[7:0]. */
  function SeqBytes(num: bv12): (r: seq<Byte>)
    ensures |r| == 2
  {
    [(num >> 8) as Byte, (num & 0xFF) as Byte]
  }

  function Lcrc(num: bv12, tlp: seq<Byte>): seq<Byte> { LcrcOver(SeqBytes(num) + tlp) }

  function NullifiedLcrc(num: bv12, tlp: seq<Byte>): seq<Byte> { Inverse(Lcrc(num, tlp)) }

  predicate DllpOk(b6: seq<Byte>) { |b6| == 6 && DllpCrc(b6[..4]) == Some(b6[4..]) }

  predicate LcrcOk(d: seq<Byte>) { |d| >= 6 && LcrcOver(d[..|d| - 4]) == d[|d| - 4..] }

  predicate LcrcNullified(d: seq<Byte>) { |d| >= 6 && Inverse(LcrcOver(d[..|d| - 4])) == d[|d| - 4..] }

  // --------------------------------------------------------------- residue

  /** The serial register read from the top is the theory's register. */
  lemma {:induction false} TopFirst(poly: Bits, c: Bits, xs: Bits)
    requires |poly| == |c| > 0
    ensures Rev(Shifts(poly, c, xs)) == T.Feed(Rev(poly), Rev(c), xs)
    decreases |xs|
  {
    if xs == [] {
    } else {
      var init, last := xs[..|xs| - 1], xs[|xs| - 1];
      TopFirst(poly, c, init);
      ShiftTopFirst(poly, Shifts(poly, c, init), last);
      T.FeedConcat(Rev(poly), Rev(c), init, [last]);
      assert init + [last] == xs && [last][1..] == [];
    }
  }

  lemma ShiftTopFirst(poly: Bits, c: Bits, x: bool)
    requires |poly| == |c| > 0
    ensures Rev(Shift(poly, c, x)) == T.Step(Rev(poly), Rev(c), x)
  {
    var s := [false] + c[..|c| - 1];
    assert Rev(s) == Rev(c)[1..] + [false];
    assert Rev(Xor(s, poly)) == Xor(Rev(s), Rev(poly));
  }

  function Top(poly: Bits, seed: Bits, word: seq<Byte>): Bits
    requires |poly| == |seed| > 0
  {
    T.Feed(Rev(poly), Rev(seed), WireBits(word))
  }

  /** What a correct field leaves in the register: it depends on the polynomial
      alone. */
  function Residue(poly: Bits): Bits
    requires |poly| > 0
  {
    T.Feed(Rev(poly), Zeros(|poly|), Ones(|poly|))
  }

  /** On the wire the field is the complement of the register, top bit first. */
  lemma FieldIsComplement(data: seq<Byte>, poly: Bits, seed: Bits)
    requires |poly| == |seed| > 0 && |seed| % 8 == 0
    ensures WireBits(Field(data, poly, seed)) == Not(Top(poly, seed, data))
  {
    var r := Serial(data, poly, seed);
    TopFirst(poly, seed, WireBits(data));
    FieldOnWire(Not(r));
    assert Rev(Not(r)) == Not(Rev(r));
  }

  /** A received word carries the right field exactly when running the register
      over all of it, field included, leaves the residue. */
  lemma FieldResidue(data: seq<Byte>, field: seq<Byte>, poly: Bits, seed: Bits)
    requires |poly| == |seed| > 0 && |seed| % 8 == 0 && poly[0] && |field| == |seed| / 8
    ensures field == Field(data, poly, seed) <==> Top(poly, seed, data + field) == Residue(poly)
  {
    var r := Top(poly, seed, data);
    WireConcat(data, field);
    T.FeedConcat(Rev(poly), Rev(seed), WireBits(data), WireBits(field));
    FieldIsComplement(data, poly, seed);
    T.ResidueExact(Rev(poly), r, WireBits(field));
    if WireBits(field) == Not(r) { WireInjective(field, Field(data, poly, seed)); }
  }

  lemma LcrcResidue(d: seq<Byte>)
    requires |d| >= 6
    ensures LcrcOk(d) <==> Top(LCRC_POLY, LCRC_SEED, d) == Residue(LCRC_POLY)
  {
    FieldResidue(d[..|d| - 4], d[|d| - 4..], LCRC_POLY, LCRC_SEED);
    assert d[..|d| - 4] + d[|d| - 4..] == d;
  }

  lemma DllpResidue(b6: seq<Byte>)
    requires |b6| == 6
    ensures DllpOk(b6) <==> Top(DLLP_POLY, DLLP_SEED, b6) == Residue(DLLP_POLY)
  {
    FieldResidue(b6[..4], b6[4..], DLLP_POLY, DLLP_SEED);
    assert b6[..4] + b6[4..] == b6;
  }

  // ------------------------------------------------------- burst detection

  /** Two words of the same length differ, and only within `n` consecutive bits
      of the wire from bit `at` on. */
  predicate Burst(a: seq<Byte>, b: seq<Byte>, at: nat, n: nat) {
    |a| == |b| && a != b &&
    forall i | 0 <= i < |WireBits(a)| && WireBits(a)[i] != WireBits(b)[i] :: at <= i < at + n
  }

  lemma OnlyInside(e: Bits, lo: nat, hi: nat)
    requires lo <= hi <= |e| && forall i | 0 <= i < |e| && e[i] :: lo <= i < hi
    ensures e == Zeros(lo) + e[lo..hi] + Zeros(|e| - hi)
  {
  }

  lemma NothingInside(e: Bits, lo: nat, hi: nat, mid: Bits)
    requires lo <= hi <= |e| && forall i | 0 <= i < |e| && e[i] :: lo <= i < hi
    requires mid == e[lo..hi] && mid == Zeros(|mid|)
    ensures e == Zeros(|e|)
  {
    forall i | lo <= i < hi ensures !e[i] { assert e[i] == mid[i - lo]; }
  }

  /** A nonzero pattern whose ones lie within |p| bits is seen. */
  lemma PatternSeen(p: Bits, e: Bits, lo: nat, hi: nat)
    requires |p| > 0 && p[|p| - 1] && lo <= hi <= |e| && hi - lo <= |p|
    requires forall i | 0 <= i < |e| && e[i] :: lo <= i < hi
    requires T.Feed(p, Zeros(|p|), e) == Zeros(|p|)
    ensures e == Zeros(|e|)
  {
    var mid := e[lo..hi];
    OnlyInside(e, lo, hi);
    T.BurstLeavesTrace(p, lo, mid, |e| - hi);
    NothingInside(e, lo, hi, mid);
  }

  /** Words that differ by a burst no longer than the register leave different
      registers. */
  lemma BurstChangesRegister(a: seq<Byte>, b: seq<Byte>, at: nat, n: nat, poly: Bits, seed: Bits)
    requires |poly| == |seed| > 0 && poly[0] && n <= |poly| && Burst(a, b, at, n)
    ensures Top(poly, seed, a) != Top(poly, seed, b)
  {
    var x, y := WireBits(a), WireBits(b);
    T.FeedLinear(Rev(poly), Rev(seed), Rev(seed), x, y);
    T.XorZero(Rev(seed), Rev(seed));
    T.XorZero(Top(poly, seed, a), Top(poly, seed, b));
    T.XorZero(x, y);
    if Top(poly, seed, a) == Top(poly, seed, b) {
      var e := Xor(x, y);
      PatternSeen(Rev(poly), e, if at < |e| then at else |e|, if at + n < |e| then at + n else |e|);
      WireInjective(a, b);
    }
  }

  /** A TLP of any length, sequence number and LCRC included, that is damaged by
      a burst of at most 32 bits is never taken for a good one. */
  lemma LcrcDetectsBursts(sent: seq<Byte>, received: seq<Byte>, at: nat)
    requires LcrcOk(sent) && Burst(sent, received, at, 32)
    ensures !LcrcOk(received)
  {
    LcrcResidue(sent);
    LcrcResidue(received);
    assert LCRC_POLY[0];
    BurstChangesRegister(sent, received, at, 32, LCRC_POLY, LCRC_SEED);
  }

  /** 32 is the best bound: every good TLP has a damaged copy, wrong in a burst
      of 33 bits, that is taken for a good one. */
  lemma LongerBurstEscapes(sent: seq<Byte>) returns (received: seq<Byte>)
    requires LcrcOk(sent)
    ensures Burst(sent, received, 0, 33) && LcrcOk(received)
  {
    received := SameRegister(sent, LCRC_POLY, LCRC_SEED);
    LcrcResidue(sent);
    LcrcResidue(received);
  }

  /** Adding the polynomial itself, leading one included, changes no register. */
  lemma SameRegister(sent: seq<Byte>, poly: Bits, seed: Bits) returns (received: seq<Byte>)
    requires |poly| == |seed| == 32 && |sent| >= 6
    ensures Burst(sent, received, 0, 33) && Top(poly, seed, received) == Top(poly, seed, sent)
  {
    var x := WireBits(sent);
    var e := [true] + Rev(poly) + Zeros(|x| - 33);
    received := FromWire(Xor(x, e));
    FromWireBits(Xor(x, e));
    T.PolyVanishes(Rev(poly), |x| - 33);
    T.InvisibleError(Rev(poly), Rev(seed), x, e);
    DiffersWithin(x, e);
  }

  lemma DiffersWithin(x: Bits, e: Bits)
    requires |x| == |e| >= 33 && e[0] && forall i | 33 <= i < |e| :: !e[i]
    ensures x != Xor(x, e) && forall i | 0 <= i < |x| && x[i] != Xor(x, e)[i] :: i < 33
  {
    assert x[0] != Xor(x, e)[0];
  }

  /** The same for a DLLP and a burst of at most 16 bits. */
  lemma DllpDetectsBursts(sent: seq<Byte>, received: seq<Byte>, at: nat)
    requires DllpOk(sent) && Burst(sent, received, at, 16)
    ensures !DllpOk(received)
  {
    DllpResidue(sent);
    DllpResidue(received);
    assert DLLP_POLY[0];
    BurstChangesRegister(sent, received, at, 16, DLLP_POLY, DLLP_SEED);
  }

  /** What lcrc appends passes lcrc_ok; what nullified_lcrc appends never does,
      and passes lcrc_nullified. */
  lemma FramesCheck(num: bv12, tlp: seq<Byte>)
    ensures LcrcOk(SeqBytes(num) + tlp + Lcrc(num, tlp))
    ensures var d := SeqBytes(num) + tlp + NullifiedLcrc(num, tlp); LcrcNullified(d) && !LcrcOk(d)
  {
    var body := SeqBytes(num) + tlp;
    var good, nul := body + Lcrc(num, tlp), body + NullifiedLcrc(num, tlp);
    assert good[..|good| - 4] == body && good[|good| - 4..] == Lcrc(num, tlp);
    assert nul[..|nul| - 4] == body && nul[|nul| - 4..] == NullifiedLcrc(num, tlp);
    assert NullifiedLcrc(num, tlp)[0] != Lcrc(num, tlp)[0];
  }

  // ---------------------------------------- the second CRC-16 of the repository

  /** The polynomial of the reflected form. */
  const REFLECTED: Bits := Of16(0xD008)

  /** calculate_dllp_crc, one byte: the byte is added to the low bits, then eight
      shifts down add the polynomial whenever a one falls out. */
  function ReflectShifts(c: Bits, n: nat): (r: Bits)
    requires |c| == 16
    ensures |r| == 16
  {
    if n == 0 then c
    else
      var d := ReflectShifts(c, n - 1);
      if d[0] then Xor(d[1..] + [false], REFLECTED) else d[1..] + [false]
  }

  function Reflect(data: seq<Byte>): (r: Bits)
    ensures |r| == 16
    decreases |data|
  {
    if data == [] then Of16(0xFFFF)
    else ReflectShifts(Xor(Reflect(data[..|data| - 1]), Of8(data[|data| - 1]) + Zeros(8)), 8)
  }

  method CalculateDllpCrc(data: seq<Byte>) returns (crc: Bits)
    ensures crc == Not(Reflect(data))
  {
    crc := Of16(0xFFFF);
    for n := 0 to |data|
      invariant |crc| == 16 && crc == Reflect(data[..n])
    {
      crc := Xor(crc, Of8(data[n]) + Zeros(8));
      ghost var start := crc;
      for i := 0 to 8
        invariant |crc| == 16 && crc == ReflectShifts(start, i)
      {
        crc := if crc[0] then Xor(crc[1..] + [false], REFLECTED) else crc[1..] + [false];
      }
      assert data[..n + 1][..n] == data[..n];
    }
    assert data[..|data|] == data;
    crc := Not(crc);
  }

  lemma ReflectedPoly()
    ensures REFLECTED == Rev(DLLP_POLY) && Of16(0xFFFF) == Rev(DLLP_SEED)
  {
    assert REFLECTED == [false, false, false, true, false, false, false, false,
                         false, false, false, false, true, false, true, true];
    assert DLLP_POLY == [true, true, false, true, false, false, false, false,
                         false, false, false, false, true, false, false, false];
  }

  lemma {:induction false} ReflectIsZeroInput(c: Bits, n: nat)
    requires |c| == 16
    ensures ReflectShifts(c, n) == T.Feed(Rev(DLLP_POLY), c, Zeros(n))
  {
    ReflectedPoly();
    if n > 0 {
      ReflectIsZeroInput(c, n - 1);
      T.FeedConcat(Rev(DLLP_POLY), c, Zeros(n - 1), [false]);
      assert Zeros(n - 1) + [false] == Zeros(n) && [false][1..] == [];
    }
  }

  /** The reflected register is the serial one, bit-reversed, after any message. */
  lemma {:induction false} ReflectSimulates(data: seq<Byte>)
    ensures Reflect(data) == Top(DLLP_POLY, DLLP_SEED, data)
    decreases |data|
  {
    var p := Rev(DLLP_POLY);
    ReflectedPoly();
    if data == [] {
    } else {
      var init, last := data[..|data| - 1], data[|data| - 1];
      ReflectSimulates(init);
      var c := Reflect(init);
      assert data == init + [last];
      WireConcat(init, [last]);
      assert WireBits([last]) == Of8(last);
      T.FeedConcat(p, Rev(DLLP_SEED), WireBits(init), Of8(last));
      T.InputFirst(p, c, Of8(last));
      ReflectIsZeroInput(Xor(c, Of8(last) + Zeros(8)), 8);
    }
  }

  /** Both implementations give the same two bytes for every message, the
      reflected one sent low byte first. */
  lemma CrcsAgree(data: seq<Byte>)
    ensures var r := Not(Reflect(data)); Field(data, DLLP_POLY, DLLP_SEED) == [ToByte(r[..8]), ToByte(r[8..])]
  {
    var r := Not(Reflect(data));
    var two := [ToByte(r[..8]), ToByte(r[8..])];
    ReflectSimulates(data);
    FieldIsComplement(data, DLLP_POLY, DLLP_SEED);
    ByteBits(r[..8]);
    ByteBits(r[8..]);
    WireOne(ToByte(r[..8]));
    WireOne(ToByte(r[8..]));
    WireConcat([ToByte(r[..8])], [ToByte(r[8..])]);
    assert two == [ToByte(r[..8])] + [ToByte(r[8..])] && r == r[..8] + r[8..];
    WireInjective(Field(data, DLLP_POLY, DLLP_SEED), two);
  }
}
