/** The independent monitor of tb/lr1/lr1_checks.py, reduced to the checks on
    sequence numbers, replayed contents, InitFC order and Ack coverage. */
module MonitorSpec {
  import opened Common
  import opened DllTypes

  datatype Flag =
    | BadLcrc
    | WrongSeq(num: int)
    | ContentDiffers(num: int)
    | InitOrder(fc: FcType)

  datatype Mon = Mon(
    seqNext: int,
    tlps: map<int, Tlp>,
    ackPending: seq<int>,
    fcPhase: Option<int>,
    fcSeq: seq<FcType>,
    rcAdv: map<FcType, Credit>,
    flags: seq<Flag>)

  const START := Mon(0, map[], [], None, [], map[], [])

  function Nth(n: nat): FcType { if n % 3 == 0 then P else if n % 3 == 1 then NP else CPL }

  /** _tlp: a TLP the watched transmitter sent. */
  function SeeTlp(m: Mon, p: Packet): Mon
    requires p.Data?
  {
    if p.edb || p.lcrc != Good then m.(flags := m.flags + [BadLcrc])
    else if p.num == m.seqNext then
      m.(seqNext := (p.num + 1) % SEQ_MOD, tlps := m.tlps[p.num := p.tlp])
    else if p.num in m.tlps then
      if m.tlps[p.num] != p.tlp then m.(flags := m.flags + [ContentDiffers(p.num)]) else m
    else m.(flags := m.flags + [WrongSeq(p.num)])
  }

  /** _fc_init: an InitFC it sent. */
  function SeeInit(m: Mon, phase: int, fc: FcType, c: Credit): Mon {
    var fcSeq := if m.fcPhase == Some(phase) then m.fcSeq else [];
    m.(fcPhase := Some(phase),
       fcSeq := fcSeq + [fc],
       rcAdv := if phase == 1 then m.rcAdv[fc := c] else m.rcAdv,
       flags := if fc != Nth(|fcSeq|) then m.flags + [InitOrder(fc)] else m.flags)
  }

  predicate Covers(num: int, s: int) { (num - s) % SEQ_MOD < 2048 }

  /** What is left of `pending` after an Ack or Nak naming `num`. */
  function Uncovered(num: int, pending: seq<int>): seq<int>
    decreases |pending|
  {
    if pending == [] then []
    else
      var last := |pending| - 1;
      Uncovered(num, pending[..last]) + if Covers(num, pending[last]) then [] else [pending[last]]
  }

  /** _ack: an Ack or Nak it sent. */
  function SeeAck(m: Mon, num: int): Mon { m.(ackPending := Uncovered(num, m.ackPending)) }

  /** fe_tlp: the far end's own TLP `num` has left. */
  function SentTlp(m: Mon, num: int): Mon {
    if num in m.ackPending then m else m.(ackPending := m.ackPending + [num])
  }

  function See(m: Mon, p: Packet): Mon {
    match p
    case Data(_, _, _, _) => SeeTlp(m, p)
    case Control(InitFC(phase, fc, _, c)) => SeeInit(m, phase, fc, c)
    case Control(Ack(num)) => SeeAck(m, num)
    case Control(Nak(num)) => SeeAck(m, num)
    case _ => m
  }
}
