/** The monitor as the object it is in tb/lr1/lr1_checks.py. */
module Monitor {
  import opened Common
  import opened DllTypes
  import Spec = MonitorSpec

  class Checks {
    var seqNext: int
    var tlps: map<int, Tlp>
    var ackPending: seq<int>
    var fcPhase: Option<int>
    var fcSeq: seq<FcType>
    var rcAdv: map<FcType, Credit>
    var flags: seq<Spec.Flag>

    ghost function State(): Spec.Mon
      reads this
    {
      Spec.Mon(seqNext, tlps, ackPending, fcPhase, fcSeq, rcAdv, flags)
    }

    constructor ()
      ensures State() == Spec.START
    {
      seqNext, tlps, ackPending := 0, map[], [];
      fcPhase, fcSeq, rcAdv, flags := None, [], map[], [];
    }

    method Tlp(p: Packet)
      requires p.Data?
      modifies `seqNext, `tlps, `flags
      ensures State() == Spec.SeeTlp(old(State()), p)
    {
      if p.edb || p.lcrc != Good {
        flags := flags + [Spec.BadLcrc];
        return;
      }
      if p.num == seqNext {
        seqNext := (p.num + 1) % SEQ_MOD;
        tlps := tlps[p.num := p.tlp];
      } else if p.num in tlps {
        if tlps[p.num] != p.tlp { flags := flags + [Spec.ContentDiffers(p.num)]; }
      } else {
        flags := flags + [Spec.WrongSeq(p.num)];
      }
    }

    method FcInit(phase: int, fc: FcType, c: Credit)
      modifies `fcPhase, `fcSeq, `rcAdv, `flags
      ensures State() == Spec.SeeInit(old(State()), phase, fc, c)
    {
      if fcPhase != Some(phase) {
        fcPhase := Some(phase);
        fcSeq := [];
      }
      if phase == 1 { rcAdv := rcAdv[fc := c]; }
      if fc != Spec.Nth(|fcSeq|) { flags := flags + [Spec.InitOrder(fc)]; }
      fcSeq := fcSeq + [fc];
    }

    method Ack(num: int)
      modifies `ackPending
      ensures State() == Spec.SeeAck(old(State()), num)
    {
      var rest: seq<int> := [];
      for i := 0 to |ackPending|
        invariant rest == Spec.Uncovered(num, ackPending[..i])
      {
        assert ackPending[..i + 1][..i] == ackPending[..i];
        if !((num - ackPending[i]) % SEQ_MOD < 2048) { rest := rest + [ackPending[i]]; }
      }
      assert ackPending[..|ackPending|] == ackPending;
      ackPending := rest;
    }

    method FeTlp(num: int)
      modifies `ackPending
      ensures State() == Spec.SentTlp(old(State()), num)
    {
      if num !in ackPending { ackPending := ackPending + [num]; }
    }
  }
}
