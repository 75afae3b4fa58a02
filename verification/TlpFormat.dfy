/** TLP headers, built and parsed (tb/lr1/lr1_tlp.py), and the credits a TLP costs
    (tlp_credits of tb/lr1/lr1_dll.py). */
module TlpFormat {
  import opened Common
  import D = DllTypes
  import F = Fields

  const FMT_3DW: bv3 := 0
  const FMT_4DW: bv3 := 1
  const FMT_3DW_D: bv3 := 2
  const FMT_4DW_D: bv3 := 3
  const TYPE_MEM: bv5 := 0x00
  const TYPE_IO: bv5 := 0x02
  const TYPE_CFG0: bv5 := 0x04
  const TYPE_CFG1: bv5 := 0x05
  const TYPE_CPL: bv5 := 0x0A

  // ---------------------------------------------------------------- fields

  function FmtByte(fmt: bv3, typ: bv5): Byte { ((fmt as Byte) << 5) | (typ as Byte) }

  function Fmt(b: Byte): bv3 { (b >> 5) as bv3 }

  function Type(b: Byte): bv5 { (b & 0x1F) as bv5 }

  /** Byte 2 with TD and the top of Length; EP, Attr and AT are zero here. */
  function LenHigh(td: bool, len: bv10): Byte { (if td then 0x80 else 0) | ((len >> 8) as Byte) }

  function LenLow(len: bv10): Byte { (len & 0xFF) as Byte }

  function Len(b2: Byte, b3: Byte): bv10 { (((b2 & 0x3) as bv10) << 8) | (b3 as bv10) }

  function High(x: bv16): Byte { (x >> 8) as Byte }

  function Low(x: bv16): Byte { (x & 0xFF) as Byte }

  function Join(h: Byte, l: Byte): bv16 { ((h as bv16) << 8) | (l as bv16) }

  function StatusByte(status: bv3, bcm: bv1, count: bv12): Byte {
    ((status as Byte) << 5) | ((bcm as Byte) << 4) | ((count >> 8) as Byte)
  }

  function Dw0(fmt: bv3, typ: bv5, len: bv10, td: bool): (r: seq<Byte>)
    ensures |r| == 4
  {
    [FmtByte(fmt, typ), 0, LenHigh(td, len), LenLow(len)]
  }

  lemma Dw0Reads(fmt: bv3, typ: bv5, len: bv10, td: bool)
    ensures Fmt(FmtByte(fmt, typ)) == fmt && Type(FmtByte(fmt, typ)) == typ
    ensures Len(LenHigh(td, len), LenLow(len)) == len
    ensures (LenHigh(td, len) & 0x80 != 0) == td
  {
  }

  /** The fields of byte 0, 2 and 3 of anything that starts with such a Dword. */
  lemma Dw0Starts(t: seq<Byte>, fmt: bv3, typ: bv5, len: bv10, td: bool)
    requires |t| >= 4 && t[..4] == Dw0(fmt, typ, len, td)
    ensures Fmt(t[0]) == fmt && Type(t[0]) == typ && Len(t[2], t[3]) == len && (t[2] & 0x80 != 0) == td
  {
    assert t[0] == t[..4][0] && t[2] == t[..4][2] && t[3] == t[..4][3];
    Dw0Reads(fmt, typ, len, td);
  }

  lemma JoinReads(x: bv16)
    ensures Join(High(x), Low(x)) == x
  {
  }

  // --------------------------------------------------------------- parsing

  datatype Kind =
    | Short | Reserved
    | CfgRd(type1: bool) | CfgWr(type1: bool)
    | Cpl | CplD
    | MRd | MWr
    | IORd | IOWr
    | Msg | MsgD

  predicate HasData(fmt: bv3) { fmt == FMT_3DW_D || fmt == FMT_4DW_D }

  function HeaderLen(fmt: bv3): nat { if fmt == FMT_4DW || fmt == FMT_4DW_D then 16 else 12 }

  function KindOf(fmt: bv3, typ: bv5): Kind {
    var d := HasData(fmt);
    var three := fmt == FMT_3DW || fmt == FMT_3DW_D;
    var four := fmt == FMT_4DW || fmt == FMT_4DW_D;
    if (typ == TYPE_CFG0 || typ == TYPE_CFG1) && three then
      (if d then CfgWr(typ == TYPE_CFG1) else CfgRd(typ == TYPE_CFG1))
    else if typ == TYPE_CPL && three then (if d then CplD else Cpl)
    else if typ == TYPE_MEM && (three || four) then (if d then MWr else MRd)
    else if typ == TYPE_IO && three then (if d then IOWr else IORd)
    else if typ & 0x18 == 0x10 && four then (if d then MsgD else Msg)
    else Reserved
  }

  /** The value of Length, by its top two bits and its low byte. */
  function LenValue(len: bv10): (n: nat)
    ensures n < 1024
  {
    256 * (((len >> 8) as bv2) as nat) + F.OctetValue((len & 0xFF) as Byte)
  }

  function LenField(n: nat): bv10
    requires n < 1024
  {
    (((n / 256) as bv2) as bv10 << 8) | (F.Octet(n % 256) as bv10)
  }

  lemma PairFits(n: nat)
    requires n < 4
    ensures (n as bv2) as nat == n
  {
  }

  lemma PairOctet(h: bv2, l: Byte)
    ensures var x := ((h as bv10) << 8) | (l as bv10); (x >> 8) as bv2 == h && (x & 0xFF) as Byte == l
  {
  }

  lemma LenFits(n: nat)
    requires n < 1024
    ensures LenValue(LenField(n)) == n
  {
    PairFits(n / 256);
    F.OctetFits(n % 256);
    PairOctet((n / 256) as bv2, F.Octet(n % 256));
  }

  /** Bytes of data the header announces: Length 0 stands for 1024 Dwords. */
  function DataLen(fmt: bv3, len: bv10): (n: nat)
    ensures n <= 4096
  {
    if !HasData(fmt) then 0 else if LenValue(len) == 0 then 4096 else 4 * LenValue(len)
  }

  /** Python's t[lo:hi]: no more than there is. */
  function Slice(t: seq<Byte>, lo: nat, hi: nat): (r: seq<Byte>)
    ensures |r| <= if hi >= lo then hi - lo else 0
  {
    var h := if hi <= |t| then hi else |t|;
    if lo <= h then t[lo..h] else []
  }

  datatype Parsed = Parsed(kind: Kind, payload: seq<Byte>, digest: seq<Byte>, sizeOk: bool)

  function Parse(t: seq<Byte>): (p: Parsed)
    ensures |p.payload| <= 4096
  {
    if |t| < 12 then Parsed(Short, [], [], false)
    else
      var fmt := Fmt(t[0]);
      var h, n, td := HeaderLen(fmt), DataLen(fmt, Len(t[2], t[3])), t[2] & 0x80 != 0;
      Parsed(KindOf(fmt, Type(t[0])), Slice(t, h, h + n), if td then Slice(t, h + n, h + n + 4) else [],
             |t| == h + n + if td then 4 else 0)
  }

  // --------------------------------------------------------------- credits

  /** tlp_credits: the type, and one data credit for every started 16 bytes. */
  function Credits(p: Parsed): (r: (FcType, Units))
    requires |p.payload| <= 4096
  {
    var fc := match p.kind case MWr | Msg | MsgD => P case Cpl | CplD => CPL case _ => NP;
    (fc, (|p.payload| / 4 + 3) / 4)
  }

  /** The TLP the Data Link Layer sees in a list of bytes. */
  function TlpOf(bytes: seq<Byte>): D.Tlp {
    var (fc, data) := Credits(Parse(bytes));
    D.Tlp(bytes, fc, data)
  }

  // -------------------------------------------------------------- builders

  /** A Completion; `data` None builds Cpl, bytes build CplD. */
  function Completion(completer: bv16, status: bv3, req: bv16, tag: Byte, count: bv12, lower: bv7,
                      data: Option<seq<Byte>>, td: bool, bcm: bv1): seq<Byte>
    requires data.Some? ==> |data.value| % 4 == 0 && |data.value| <= 4096
  {
    (match data
     case None => Dw0(FMT_3DW, TYPE_CPL, 0, td)
     case Some(d) => Dw0(FMT_3DW_D, TYPE_CPL, Dwords(d), td)) +
    [High(completer), Low(completer), StatusByte(status, bcm, count), CountLow(count),
     High(req), Low(req), tag, LowerByte(lower)] +
    (match data case None => [] case Some(d) => d)
  }

  /** The Length field of so much data: 4096 bytes encode as 0. */
  function Dwords(d: seq<Byte>): bv10
    requires |d| <= 4096
  {
    LenField(|d| / 4 % 1024)
  }

  datatype CplFields = CplFields(completer: bv16, status: bv3, bcm: bv1, count: bv12, req: bv16, tag: Byte, lower: bv7)

  function Status(b: Byte): bv3 { (b >> 5) as bv3 }

  function Bcm(b: Byte): bv1 { ((b >> 4) & 1) as bv1 }

  function CountLow(count: bv12): Byte { (count & 0xFF) as Byte }

  function Count(b6: Byte, b7: Byte): bv12 { (((b6 & 0xF) as bv12) << 8) | (b7 as bv12) }

  function LowerByte(lower: bv7): Byte { lower as Byte }

  function Lower(b: Byte): bv7 { (b & 0x7F) as bv7 }

  function ReadCpl(t: seq<Byte>): CplFields
    requires |t| >= 12
  {
    CplFields(Join(t[4], t[5]), Status(t[6]), Bcm(t[6]), Count(t[6], t[7]), Join(t[8], t[9]), t[10], Lower(t[11]))
  }

  lemma StatusReads(status: bv3, bcm: bv1, count: bv12)
    ensures var b := StatusByte(status, bcm, count);
      Status(b) == status && Bcm(b) == bcm && Count(b, CountLow(count)) == count
  {
  }

  lemma LowerReads(lower: bv7)
    ensures Lower(LowerByte(lower)) == lower
  {
  }

  lemma DwordsRead(d: seq<Byte>)
    requires |d| % 4 == 0 && 0 < |d| <= 4096
    ensures DataLen(FMT_3DW_D, Dwords(d)) == |d|
  {
    LenFits(|d| / 4 % 1024);
  }

  /** A header of `h` bytes followed by data and digest: the parser finds both
      exactly when the header announces as much data as there is. */
  lemma BodyReads(t: seq<Byte>, data: seq<Byte>, ecrc: seq<Byte>)
    requires |t| >= 12
    requires var h := HeaderLen(Fmt(t[0]));
      |t| == h + |data| + |ecrc| && t[h..h + |data|] == data && t[h + |data|..] == ecrc
    requires |ecrc| == if t[2] & 0x80 != 0 then 4 else 0
    ensures Parse(t).kind == KindOf(Fmt(t[0]), Type(t[0]))
    ensures Parse(t).sizeOk <==> |data| == DataLen(Fmt(t[0]), Len(t[2], t[3]))
    ensures Parse(t).sizeOk ==> Parse(t).payload == data && Parse(t).digest == ecrc
  {
  }

  lemma CompletionHeader(completer: bv16, status: bv3, req: bv16, tag: Byte, count: bv12, lower: bv7,
                         data: Option<seq<Byte>>, td: bool, bcm: bv1, ecrc: seq<Byte>)
    requires data.Some? ==> |data.value| % 4 == 0 && |data.value| <= 4096
    ensures var t := Completion(completer, status, req, tag, count, lower, data, td, bcm) + ecrc;
      var d := if data.Some? then data.value else [];
      |t| == 12 + |d| + |ecrc| && t[12..12 + |d|] == d && t[12 + |d|..] == ecrc &&
      t[..4] == Dw0(if data.Some? then FMT_3DW_D else FMT_3DW, TYPE_CPL, if data.Some? then Dwords(d) else 0, td) &&
      t[4..12] == [High(completer), Low(completer), StatusByte(status, bcm, count), CountLow(count),
                   High(req), Low(req), tag, LowerByte(lower)]
  {
  }

  lemma CplReads(completer: bv16, status: bv3, req: bv16, tag: Byte, count: bv12, lower: bv7, bcm: bv1, t: seq<Byte>)
    requires |t| >= 12
    requires t[4..12] == [High(completer), Low(completer), StatusByte(status, bcm, count), CountLow(count),
                          High(req), Low(req), tag, LowerByte(lower)]
    ensures ReadCpl(t) == CplFields(completer, status, bcm, count, req, tag, lower)
  {
    var w := t[4..12];
    assert t[4] == w[0] && t[5] == w[1] && t[6] == w[2] && t[7] == w[3];
    assert t[8] == w[4] && t[9] == w[5] && t[10] == w[6] && t[11] == w[7];
    JoinReads(completer);
    JoinReads(req);
    StatusReads(status, bcm, count);
    LowerReads(lower);
  }

  /** A Completion reads back field by field with its data and its credits. An
      empty, but present, data list is announced as 4096 bytes, so it does not. */
  lemma CompletionRoundTrip(completer: bv16, status: bv3, req: bv16, tag: Byte, count: bv12, lower: bv7,
                            data: Option<seq<Byte>>, td: bool, bcm: bv1, ecrc: seq<Byte>)
    requires data.Some? ==> |data.value| % 4 == 0 && |data.value| <= 4096
    requires |ecrc| == if td then 4 else 0
    ensures var t := Completion(completer, status, req, tag, count, lower, data, td, bcm) + ecrc;
      var d := if data.Some? then data.value else [];
      ReadCpl(t) == CplFields(completer, status, bcm, count, req, tag, lower) &&
      Parse(t).kind == (if data.Some? then CplD else Cpl) &&
      (Parse(t).sizeOk <==> data != Some([])) &&
      (data != Some([]) ==> Parse(t).payload == d && Parse(t).digest == ecrc &&
                            TlpOf(t) == D.Tlp(t, CPL, (|d| + 15) / 16))
  {
    var d := if data.Some? then data.value else [];
    var t := Completion(completer, status, req, tag, count, lower, data, td, bcm) + ecrc;
    var fmt, len := if data.Some? then FMT_3DW_D else FMT_3DW, if data.Some? then Dwords(d) else 0;
    CompletionHeader(completer, status, req, tag, count, lower, data, td, bcm, ecrc);
    CplReads(completer, status, req, tag, count, lower, bcm, t);
    Dw0Starts(t, fmt, TYPE_CPL, len, td);
    BodyReads(t, d, ecrc);
    if data.Some? && d != [] { DwordsRead(d); }
    if data == Some([]) { LenFits(0); }
  }

  // -------------------------------------------------------- memory requests

  /** An address in two halves: 32-bit addressing exactly when `hi` is zero. */
  datatype Addr = Addr(hi: bv32, lo: bv32)

  function WordBytes(w: bv32): (r: seq<Byte>)
    ensures |r| == 4
  {
    [(w >> 24) as Byte, ((w >> 16) & 0xFF) as Byte, ((w >> 8) & 0xFF) as Byte, (w & 0xFF) as Byte]
  }

  function Word(b: seq<Byte>): bv32
    requires |b| == 4
  {
    ((b[0] as bv32) << 24) | ((b[1] as bv32) << 16) | ((b[2] as bv32) << 8) | (b[3] as bv32)
  }

  lemma WordReads(w: bv32)
    ensures Word(WordBytes(w)) == w
  {
  }

  /** A Dword address: the low two bits go. */
  function Aligned(a: Addr): Addr { a.(lo := a.lo & 0xFFFF_FFFC) }

  function AddrBytes(a: Addr): seq<Byte> {
    (if a.hi == 0 then [] else WordBytes(a.hi)) + WordBytes(Aligned(a).lo)
  }

  function ReadAddr(b: seq<Byte>): Addr
    requires |b| == 4 || |b| == 8
  {
    if |b| == 4 then Aligned(Addr(0, Word(b))) else Aligned(Addr(Word(b[..4]), Word(b[4..])))
  }

  lemma AddrReads(a: Addr)
    ensures ReadAddr(AddrBytes(a)) == Aligned(a) && |AddrBytes(a)| == if a.hi == 0 then 4 else 8
  {
    var b := AddrBytes(a);
    WordReads(a.hi);
    WordReads(Aligned(a).lo);
    MaskOnce(a.lo);
    if a.hi == 0 {
      assert b == WordBytes(Aligned(a).lo);
    } else {
      assert b[..4] == WordBytes(a.hi) && b[4..] == WordBytes(Aligned(a).lo);
    }
  }

  lemma MaskOnce(w: bv32)
    ensures (w & 0xFFFF_FFFC) & 0xFFFF_FFFC == w & 0xFFFF_FFFC
  {
  }

  function BeByte(lastBe: bv4, firstBe: bv4): Byte { ((lastBe as Byte) << 4) | (firstBe as Byte) }

  function LastBe(b: Byte): bv4 { (b >> 4) as bv4 }

  function FirstBe(b: Byte): bv4 { (b & 0xF) as bv4 }

  lemma BeReads(lastBe: bv4, firstBe: bv4)
    ensures LastBe(BeByte(lastBe, firstBe)) == lastBe && FirstBe(BeByte(lastBe, firstBe)) == firstBe
  {
  }

  function MemFmt(write: bool, a: Addr): bv3 {
    if a.hi == 0 then (if write then FMT_3DW_D else FMT_3DW) else if write then FMT_4DW_D else FMT_4DW
  }

  datatype MemFields = MemFields(req: bv16, tag: Byte, lastBe: bv4, firstBe: bv4, addr: Addr)

  /** A Memory Request of `len` Dwords (0 for 1024); reads carry no data. */
  function MemReq(write: bool, m: MemFields, len: bv10, data: seq<Byte>, td: bool): seq<Byte> {
    Dw0(MemFmt(write, m.addr), TYPE_MEM, len, td) +
    [High(m.req), Low(m.req), m.tag, BeByte(m.lastBe, m.firstBe)] + AddrBytes(m.addr) + if write then data else []
  }

  function ReadMem(t: seq<Byte>): MemFields
    requires |t| >= 12 && |t| >= HeaderLen(Fmt(t[0]))
  {
    MemFields(Join(t[4], t[5]), t[6], LastBe(t[7]), FirstBe(t[7]), ReadAddr(t[8..HeaderLen(Fmt(t[0]))]))
  }

  lemma MemHeader(write: bool, m: MemFields, len: bv10, data: seq<Byte>, td: bool, ecrc: seq<Byte>)
    ensures var t := MemReq(write, m, len, data, td) + ecrc;
      var d := if write then data else [];
      var h := 8 + |AddrBytes(m.addr)|;
      |t| == h + |d| + |ecrc| && t[h..h + |d|] == d && t[h + |d|..] == ecrc && t[8..h] == AddrBytes(m.addr) &&
      t[..4] == Dw0(MemFmt(write, m.addr), TYPE_MEM, len, td) &&
      t[4..8] == [High(m.req), Low(m.req), m.tag, BeByte(m.lastBe, m.firstBe)]
  {
    var head := Dw0(MemFmt(write, m.addr), TYPE_MEM, len, td) +
      [High(m.req), Low(m.req), m.tag, BeByte(m.lastBe, m.firstBe)];
    var t := MemReq(write, m, len, data, td) + ecrc;
    var d := if write then data else [];
    assert t == head + (AddrBytes(m.addr) + (d + ecrc));
    assert t[8..] == AddrBytes(m.addr) + (d + ecrc);
  }

  lemma MemKind(write: bool, a: Addr)
    ensures KindOf(MemFmt(write, a), TYPE_MEM) == (if write then MWr else MRd)
    ensures HeaderLen(MemFmt(write, a)) == 8 + |AddrBytes(a)|
    ensures forall len :: DataLen(MemFmt(write, a), len) == if write then DataLen(FMT_3DW_D, len) else 0
  {
    AddrReads(a);
  }

  lemma MemReads(t: seq<Byte>, m: MemFields)
    requires |t| >= 12 && |t| >= HeaderLen(Fmt(t[0])) && t[8..HeaderLen(Fmt(t[0]))] == AddrBytes(m.addr)
    requires t[4..8] == [High(m.req), Low(m.req), m.tag, BeByte(m.lastBe, m.firstBe)]
    ensures ReadMem(t) == m.(addr := Aligned(m.addr))
  {
    var w := t[4..8];
    assert t[4] == w[0] && t[5] == w[1] && t[6] == w[2] && t[7] == w[3];
    AddrReads(m.addr);
    JoinReads(m.req);
    BeReads(m.lastBe, m.firstBe);
  }

  /** A Memory Request reads back field by field, its address without the low two
      bits, and its size is right exactly when a write has the data it announces. */
  lemma MemRoundTrip(write: bool, m: MemFields, len: bv10, data: seq<Byte>, td: bool, ecrc: seq<Byte>)
    requires |ecrc| == if td then 4 else 0
    ensures var t := MemReq(write, m, len, data, td) + ecrc;
      var p := Parse(t);
      |t| >= 12 && |t| >= HeaderLen(Fmt(t[0])) &&
      ReadMem(t) == m.(addr := Aligned(m.addr)) &&
      p.kind == (if write then MWr else MRd) &&
      (p.sizeOk <==> (write ==> |data| == DataLen(FMT_3DW_D, len))) &&
      (p.sizeOk ==> p.payload == (if write then data else []) && p.digest == ecrc &&
                    TlpOf(t) == D.Tlp(t, if write then P else NP, if write then (|data| / 4 + 3) / 4 else 0))
  {
    var t := MemReq(write, m, len, data, td) + ecrc;
    MemHeader(write, m, len, data, td, ecrc);
    Dw0Starts(t, MemFmt(write, m.addr), TYPE_MEM, len, td);
    MemKind(write, m.addr);
    MemReads(t, m);
    BodyReads(t, if write then data else [], ecrc);
  }
}
