/** Ordered sets, framing and DLLPs as Symbol lists (tb/lr1/lr1_symbols.py). */
module Symbols {
  import opened Common
  import Crc

  const COM: Byte := 0xBC
  const STP: Byte := 0xFB
  const SDP: Byte := 0x5C
  const END: Byte := 0xFD
  const EDB: Byte := 0xFE
  const PAD: Byte := 0xF7
  const SKP: Byte := 0x1C
  const FTS: Byte := 0x3C
  const IDL: Byte := 0x7C
  const TS1_ID: Byte := 0x4A
  const TS2_ID: Byte := 0x45
  const TS1_ID_INV: Byte := 0xB5
  const TS2_ID_INV: Byte := 0xBA
  const TS_LEN := 16
  const SKP_RX_MAX := 5
  const MAX_PLAIN := 4122

  /** A Symbol: a byte, and whether it is a K code. */
  datatype Sym = Sym(b: Byte, k: bool)

  function K(b: Byte): Sym { Sym(b, true) }

  function D(b: Byte): Sym { Sym(b, false) }

  function AllD(bytes: seq<Byte>): (r: seq<Sym>)
    ensures |r| == |bytes|
  {
    seq(|bytes|, i requires 0 <= i < |bytes| => D(bytes[i]))
  }

  // ------------------------------------------------------------ ordered sets

  /** A Link or Lane number: PAD, a number, or some other K code. */
  datatype Num = Pad | Num(n: Byte) | Odd(code: Byte)

  function NumSym(n: Num): Sym {
    match n case Pad => K(PAD) case Num(b) => D(b) case Odd(b) => K(b)
  }

  function ReadNum(s: Sym): Num {
    if s.k then (if s.b == PAD then Pad else Odd(s.b)) else Num(s.b)
  }

  function Ts(ident: Byte, link: Num, lane: Num, nFts: Byte, rate: Byte, tc: Byte): (r: seq<Sym>)
    ensures |r| == TS_LEN
  {
    [K(COM), NumSym(link), NumSym(lane), D(nFts), D(rate), D(tc)] + seq(10, _ => D(ident))
  }

  function SkpOs(n: nat): seq<Sym> { [K(COM)] + seq(n, _ => K(SKP)) }

  function Eios(): seq<Sym> { [K(COM), K(IDL), K(IDL), K(IDL)] }

  function Idle(n: nat): seq<Sym> { seq(n, _ => D(0)) }

  /** The fields of a training set. n_fts, rate and tc are None for a K code. */
  datatype TsFields = TsFields(ts1: bool, link: Num, lane: Num, nFts: Option<Byte>, rate: Option<Byte>,
                               tc: Option<Byte>, inverted: bool)

  function ReadByte(s: Sym): Option<Byte> { if s.k then None else Some(s.b) }

  predicate IsIdent(b: Byte) { b == TS1_ID || b == TS2_ID || b == TS1_ID_INV || b == TS2_ID_INV }

  function ParseTs(syms: seq<Sym>): Option<TsFields> {
    if |syms| < TS_LEN || syms[0] != K(COM) then None
    else if exists i | 6 <= i < 16 :: syms[i] != D(syms[6].b) then None
    else
      var ident := syms[6].b;
      if !IsIdent(ident) then None
      else Some(TsFields(ident == TS1_ID || ident == TS1_ID_INV, ReadNum(syms[1]), ReadNum(syms[2]),
                         ReadByte(syms[3]), ReadByte(syms[4]), ReadByte(syms[5]),
                         ident == TS1_ID_INV || ident == TS2_ID_INV))
  }

  /** A training set reads back as what it was built from. */
  lemma ParseTsBuilt(ident: Byte, link: Num, lane: Num, nFts: Byte, rate: Byte, tc: Byte)
    requires ident == TS1_ID || ident == TS2_ID
    requires !link.Odd? && !lane.Odd?
    ensures ParseTs(Ts(ident, link, lane, nFts, rate, tc)) ==
            Some(TsFields(ident == TS1_ID, link, lane, Some(nFts), Some(rate), Some(tc), false))
  {
    var s := Ts(ident, link, lane, nFts, rate, tc);
    assert forall i | 6 <= i < 16 :: s[i] == D(ident);
  }

  // ----------------------------------------------------------------- framing

  /** Data between two K codes. */
  function Wrap(start: Byte, bytes: seq<Byte>, stop: Byte): (r: seq<Sym>)
    ensures |r| == |bytes| + 2
  {
    [K(start)] + AllD(bytes) + [K(stop)]
  }

  function TlpBody(num: bv12, tlp: seq<Byte>, nullify: bool): (r: seq<Byte>)
    ensures |r| == |tlp| + 6
  {
    Crc.SeqBytes(num) + tlp + if nullify then Crc.NullifiedLcrc(num, tlp) else Crc.Lcrc(num, tlp)
  }

  function FrameTlp(num: bv12, tlp: seq<Byte>, nullify: bool): seq<Sym> {
    Wrap(STP, TlpBody(num, tlp, nullify), if nullify then EDB else END)
  }

  function DllpBody(b4: seq<Byte>): (r: seq<Byte>)
    requires |b4| == 4
    ensures |r| == 6
  {
    b4 + Crc.DllpCrc(b4).value
  }

  function FrameDllp(b4: seq<Byte>): seq<Sym>
    requires |b4| == 4
  {
    Wrap(SDP, DllpBody(b4), END)
  }

  // ------------------------------------------------------------------- DLLPs

  datatype FcPhase = InitFC1 | InitFC2 | UpdateFC

  /** The content of a DLLP; `rsvd` tells whether a Reserved bit is set. */
  datatype Fields =
    | Ack(num: bv12, rsvd: bool)
    | Nak(num: bv12, rsvd: bool)
    | Fc(phase: FcPhase, fc: FcType, vc: bv3, hdr: Byte, data: bv12, rsvd: bool)
    | Pm(rsvd: bool)
    | Vendor
    | Reserved

  /** DLLP_INITFC1, DLLP_INITFC2 and DLLP_UPDATEFC. */
  function FcCode(phase: FcPhase, fc: FcType): Byte {
    var base: Byte := match phase case InitFC1 => 0x40 case InitFC2 => 0xC0 case UpdateFC => 0x80;
    base + (match fc case P => 0x00 case NP => 0x10 case CPL => 0x20)
  }

  function NumHigh(num: bv12, rsvd: bv4): Byte { ((rsvd as Byte) << 4) | ((num >> 8) as Byte) }

  function NumLow(num: bv12): Byte { (num & 0xFF) as Byte }

  function AckNak(nak: bool, num: bv12, rsvd1: Byte, rsvd2: bv4): (r: seq<Byte>)
    ensures |r| == 4
  {
    [if nak then 0x10 else 0x00, rsvd1, NumHigh(num, rsvd2), NumLow(num)]
  }

  function HdrHigh(hdr: Byte, rsvd: bv2): Byte { ((rsvd as Byte) << 6) | (hdr >> 2) }

  function HdrLow(hdr: Byte, rsvd: bv2): bv4 { (((hdr & 0x3) as bv4) << 2) | (rsvd as bv4) }

  function FcDllp(phase: FcPhase, fc: FcType, hdr: Byte, data: bv12, vc: bv3, rsvd1: bv2, rsvd2: bv2): (r: seq<Byte>)
    ensures |r| == 4
  {
    [(FcCode(phase, fc) & 0xF8) | (vc as Byte), HdrHigh(hdr, rsvd1), NumHigh(data, HdrLow(hdr, rsvd2)), NumLow(data)]
  }

  function NumField(b2: Byte, b3: Byte): bv12 { (((b2 & 0x0F) as bv12) << 8) | (b3 as bv12) }

  function HdrField(b1: Byte, b2: Byte): Byte { ((b1 & 0x3F) << 2) | (b2 >> 6) }

  function TypeOf(t: Byte): Option<(FcPhase, FcType)> {
    if t == 0x40 then Some((InitFC1, P)) else if t == 0x50 then Some((InitFC1, NP))
    else if t == 0x60 then Some((InitFC1, CPL)) else if t == 0xC0 then Some((InitFC2, P))
    else if t == 0xD0 then Some((InitFC2, NP)) else if t == 0xE0 then Some((InitFC2, CPL))
    else if t == 0x80 then Some((UpdateFC, P)) else if t == 0x90 then Some((UpdateFC, NP))
    else if t == 0xA0 then Some((UpdateFC, CPL)) else None
  }

  function ParseDllp(b: seq<Byte>): Fields
    requires |b| >= 4
  {
    var t := b[0];
    if t == 0x00 then Ack(NumField(b[2], b[3]), b[1] != 0 || b[2] & 0xF0 != 0)
    else if t == 0x10 then Nak(NumField(b[2], b[3]), b[1] != 0 || b[2] & 0xF0 != 0)
    else if TypeOf(t & 0xF8).Some? then
      var (phase, fc) := TypeOf(t & 0xF8).value;
      Fc(phase, fc, (t & 0x7) as bv3, HdrField(b[1], b[2]), NumField(b[2], b[3]),
         b[1] & 0xC0 != 0 || b[2] & 0x30 != 0)
    else if t == 0x20 || t == 0x21 || t == 0x23 || t == 0x24 then Pm(b[1] != 0 || b[2] != 0 || b[3] != 0)
    else if t == 0x30 then Vendor
    else Reserved
  }

  lemma NumReads(num: bv12, rsvd: bv4)
    ensures NumField(NumHigh(num, rsvd), NumLow(num)) == num
    ensures (NumHigh(num, rsvd) & 0xF0 != 0) <==> rsvd != 0
  {
  }

  lemma HdrReads(hdr: Byte, rsvd1: bv2, rsvd2: bv2, data: bv12)
    ensures HdrField(HdrHigh(hdr, rsvd1), NumHigh(data, HdrLow(hdr, rsvd2))) == hdr
    ensures (HdrHigh(hdr, rsvd1) & 0xC0 != 0) <==> rsvd1 != 0
    ensures (NumHigh(data, HdrLow(hdr, rsvd2)) & 0x30 != 0) <==> rsvd2 != 0
  {
  }

  /** Ack and Nak read back, and their Reserved bits are noticed exactly when set. */
  lemma ParseAckNak(nak: bool, num: bv12, rsvd1: Byte, rsvd2: bv4, crc: seq<Byte>)
    ensures var r := rsvd1 != 0 || rsvd2 != 0;
      ParseDllp(AckNak(nak, num, rsvd1, rsvd2) + crc) == if nak then Nak(num, r) else Ack(num, r)
  {
    NumReads(num, rsvd2);
  }

  /** So do the flow-control DLLPs. */
  lemma ParseFc(phase: FcPhase, fc: FcType, hdr: Byte, data: bv12, vc: bv3, rsvd1: bv2, rsvd2: bv2, crc: seq<Byte>)
    ensures ParseDllp(FcDllp(phase, fc, hdr, data, vc, rsvd1, rsvd2) + crc) ==
            Fc(phase, fc, vc, hdr, data, rsvd1 != 0 || rsvd2 != 0)
  {
    FcTypeByte(phase, fc, vc);
    NumReads(data, HdrLow(hdr, rsvd2));
    HdrReads(hdr, rsvd1, rsvd2, data);
  }

  lemma FcTypeByte(phase: FcPhase, fc: FcType, vc: bv3)
    ensures var t := (FcCode(phase, fc) & 0xF8) | (vc as Byte);
      t & 0xF8 == FcCode(phase, fc) && (t & 0x7) as bv3 == vc && t != 0x00 && t != 0x10 &&
      TypeOf(FcCode(phase, fc)) == Some((phase, fc))
  {
    match phase
    case InitFC1 => match fc { case P => case NP => case CPL => }
    case InitFC2 => match fc { case P => case NP => case CPL => }
    case UpdateFC => match fc { case P => case NP => case CPL => }
  }
}
