/** From the packets of the Data Link Layer to Symbols and back: the booleans the
    two-ended protocol model uses for LCRC and CRC are those of the bytes. */
module Frames {
  import opened Common
  import T = DllTypes
  import S = Symbols
  import Crc
  import F = Fields
  import TlpFormat
  import Rx = StreamSpec
  import P = StreamProofs

  function Phase(phase: int): S.FcPhase { if phase == 1 then S.InitFC1 else S.InitFC2 }

  predicate CreditFits(c: T.Credit) { 0 <= c.h < T.HDR_MOD && 0 <= c.d < T.DATA_MOD }

  /** What next_packet hands over: numbers within their fields, a TLP no longer
      than 4116 bytes, and a nullified TLP with both its marks. */
  predicate Sendable(p: T.Packet) {
    match p
    case Control(Ack(n)) => 0 <= n < T.SEQ_MOD
    case Control(Nak(n)) => 0 <= n < T.SEQ_MOD
    case Control(InitFC(phase, _, vc, c)) => (phase == 1 || phase == 2) && 0 <= vc < 8 && CreditFits(c)
    case Control(UpdateFC(_, vc, c)) => 0 <= vc < 8 && CreditFits(c)
    case Control(Other) => false
    case Data(n, tlp, edb, lcrc) =>
      0 <= n < T.SEQ_MOD && tlp == TlpFormat.TlpOf(tlp.bytes) && |tlp.bytes| <= 4116 &&
      lcrc == if edb then T.Inverted else T.Good
    case Junk => false
  }

  function DllpBytes(d: T.Dllp): (r: seq<Byte>)
    requires Sendable(T.Control(d))
    ensures |r| == 4
  {
    match d
    case Ack(n) => S.AckNak(false, F.Word(n), 0, 0)
    case Nak(n) => S.AckNak(true, F.Word(n), 0, 0)
    case InitFC(phase, fc, vc, c) => S.FcDllp(Phase(phase), fc, F.Octet(c.h), F.Word(c.d), vc as bv3, 0, 0)
    case UpdateFC(fc, vc, c) => S.FcDllp(S.UpdateFC, fc, F.Octet(c.h), F.Word(c.d), vc as bv3, 0, 0)
  }

  /** The Symbols next_packet returns. */
  function Frame(p: T.Packet): (r: seq<S.Sym>)
    requires Sendable(p)
    ensures |r| == if p.Data? then |p.tlp.bytes| + 8 else 8
  {
    match p
    case Control(d) => S.FrameDllp(DllpBytes(d))
    case Data(n, tlp, edb, _) => S.FrameTlp(F.Word(n), tlp.bytes, edb)
  }

  function DllpOf(f: S.Fields): T.Dllp {
    match f
    case Ack(n, _) => T.Ack(F.WordValue(n))
    case Nak(n, _) => T.Nak(F.WordValue(n))
    case Fc(phase, fc, vc, hdr, data, _) =>
      var c := T.Credit(F.OctetValue(hdr), F.WordValue(data));
      (match phase
       case InitFC1 => T.InitFC(1, fc, vc as int, c)
       case InitFC2 => T.InitFC(2, fc, vc as int, c)
       case UpdateFC => T.UpdateFC(fc, vc as int, c))
    case _ => T.Other
  }

  /** What the far end makes of a packet event: the DLLP if its CRC is good, a TLP
      with its number and the verdict on its last four bytes. */
  function Received(ev: Rx.Event): Option<T.Packet> {
    match ev
    case DllpEv(b6) => Some(if Crc.DllpOk(b6) then T.Control(DllpOf(S.ParseDllp(b6))) else T.Junk)
    case TlpEv(body, edb) =>
      var lcrc := if Crc.LcrcOk(body) then T.Good else if Crc.LcrcNullified(body) then T.Inverted else T.Bad;
      Some(if |body| < 6 then T.Data(0, TlpFormat.TlpOf([]), edb, lcrc)
           else T.Data(F.WordValue(S.NumField(body[0], body[1])), TlpFormat.TlpOf(body[2..|body| - 4]), edb, lcrc))
    case _ => None
  }

  lemma ChannelFits(vc: int)
    requires 0 <= vc < 8
    ensures (vc as bv3) as int == vc
  {
  }

  lemma DllpReads(d: T.Dllp, crc: seq<Byte>)
    requires Sendable(T.Control(d))
    ensures DllpOf(S.ParseDllp(DllpBytes(d) + crc)) == d
  {
    match d
    case Ack(n) =>
      F.WordFits(n);
      S.ParseAckNak(false, F.Word(n), 0, 0, crc);
    case Nak(n) =>
      F.WordFits(n);
      S.ParseAckNak(true, F.Word(n), 0, 0, crc);
    case InitFC(phase, fc, vc, c) =>
      F.WordFits(c.d);
      F.OctetFits(c.h);
      ChannelFits(vc);
      S.ParseFc(Phase(phase), fc, F.Octet(c.h), F.Word(c.d), vc as bv3, 0, 0, crc);
    case UpdateFC(fc, vc, c) =>
      F.WordFits(c.d);
      F.OctetFits(c.h);
      ChannelFits(vc);
      S.ParseFc(S.UpdateFC, fc, F.Octet(c.h), F.Word(c.d), vc as bv3, 0, 0, crc);
  }

  /** The unit a packet is, among those of the Symbol stream. */
  function UnitFor(p: T.Packet): P.Unit
    requires Sendable(p)
  {
    match p
    case Control(d) => P.DllpU(S.DllpBody(DllpBytes(d)))
    case Data(n, tlp, edb, _) => P.TlpU(S.TlpBody(F.Word(n), tlp.bytes, edb), edb)
  }

  lemma ControlRoundTrip(d: T.Dllp)
    requires Sendable(T.Control(d))
    ensures var u := UnitFor(T.Control(d));
      P.Legal(u) && P.UnitSyms(u) == Frame(T.Control(d)) && Received(Rx.DllpEv(u.b6)) == Some(T.Control(d))
  {
    ChecksOut(DllpBytes(d));
    DllpReads(d, Crc.DllpCrc(DllpBytes(d)).value);
  }

  lemma ChecksOut(b4: seq<Byte>)
    requires |b4| == 4
    ensures Crc.DllpOk(S.DllpBody(b4)) && S.DllpBody(b4) == b4 + Crc.DllpCrc(b4).value
  {
    assert S.DllpBody(b4)[..4] == b4;
  }

  lemma BodyReads(n: bv12, tlp: seq<Byte>, edb: bool)
    ensures var b := S.TlpBody(n, tlp, edb);
      |b| == |tlp| + 6 && b[2..|b| - 4] == tlp && S.NumField(b[0], b[1]) == n &&
      (Crc.LcrcOk(b) <==> !edb) && (edb ==> Crc.LcrcNullified(b))
  {
    Crc.FramesCheck(n, tlp);
    NumberReads(n);
    var b := S.TlpBody(n, tlp, edb);
    assert b[2..|b| - 4] == tlp;
  }

  lemma DataRoundTrip(n: int, tlp: T.Tlp, edb: bool, lcrc: T.Lcrc)
    requires Sendable(T.Data(n, tlp, edb, lcrc))
    ensures var p := T.Data(n, tlp, edb, lcrc); var u := UnitFor(p);
      P.Legal(u) && P.UnitSyms(u) == Frame(p) && Received(Rx.TlpEv(u.body, edb)) == Some(p)
  {
    F.WordFits(n);
    BodyReads(F.Word(n), tlp.bytes, edb);
  }

  /** Every packet the layer sends is one legal unit, and the far end reads the
      event of that unit as the same packet. */
  lemma PacketRoundTrip(p: T.Packet)
    requires Sendable(p)
    ensures var u := UnitFor(p); var told := P.Tells(P.Nothing, u);
      P.Legal(u) && P.UnitSyms(u) == Frame(p) && |told| == 1 && Received(told[0]) == Some(p)
  {
    match p
    case Control(d) => ControlRoundTrip(d);
    case Data(n, tlp, edb, lcrc) => DataRoundTrip(n, tlp, edb, lcrc);
  }

  lemma NumberReads(num: bv12)
    ensures S.NumField(Crc.SeqBytes(num)[0], Crc.SeqBytes(num)[1]) == num
  {
  }

  /** A TLP damaged in one burst of at most 32 bits is not taken for a good one. */
  lemma DamagedTlpShows(sent: seq<Byte>, got: seq<Byte>, at: nat, edb: bool)
    requires Crc.LcrcOk(sent) && Crc.Burst(sent, got, at, 32)
    ensures Received(Rx.TlpEv(got, edb)).value.lcrc != T.Good
  {
    Crc.LcrcDetectsBursts(sent, got, at);
  }

  /** Nor is a DLLP, damaged in at most 16 bits in a row, handed on. */
  lemma DamagedDllpShows(sent: seq<Byte>, got: seq<Byte>, at: nat)
    requires Crc.DllpOk(sent) && Crc.Burst(sent, got, at, 16)
    ensures Received(Rx.DllpEv(got)) == Some(T.Junk)
  {
    Crc.DllpDetectsBursts(sent, got, at);
  }
}
