/** The far end as the object of tb/lr1/lr1_farend.py: the transmit queue and the
    clock step, each method against FarSpec. */
module FarEnd {
  import opened Common
  import opened Symbols
  import Scr = Scrambler
  import L = LtssmSpec
  import Lt = Ltssm
  import T = DllTypes
  import Dl = LinkLayer
  import Frames
  import Spec = FarSpec
  import Rx = StreamSpec

  class Transmitter {
    const k: Spec.Knobs
    const ltssm: Lt.Machine
    const dll: Dl.Dll
    var scr: Scr.Lfsr
    var txq: seq<Scr.Tx>
    var skpCount: nat
    var skpDue: bool
    var skpSent: nat
    var gapLeft: int
    var wasTx: bool

    ghost predicate Valid()
      reads this
    {
      ltssm.k == k.lt && dll.k == k.dll && |k.skpCounts| > 0
    }

    ghost function State(): Spec.Far
      reads this, ltssm, dll, scr
    {
      Spec.Far(L.Port(ltssm.Fields(), ltssm.consec), dll.State(), scr.lfsr, txq,
               skpCount, skpDue, skpSent, gapLeft, wasTx)
    }

    constructor (k: Spec.Knobs)
      requires |k.skpCounts| > 0
      ensures Valid() && this.k == k && fresh(ltssm) && fresh(dll) && fresh(scr)
      ensures State() == Spec.Far(L.START, T.Reset(k.dll), Scr.SEED, [], 0, false, 0, 0, false)
    {
      this.k := k;
      ltssm := new Lt.Machine(k.lt);
      dll := new Dl.Dll(k.dll);
      scr := new Scr.Lfsr();
      txq, skpCount, skpDue, skpSent, gapLeft, wasTx := [], 0, false, 0, 0, false;
    }

    /** _on_rc_event: the LTSSM hears everything, the Data Link Layer its packets. */
    method OnEvent(ev: Rx.Event, endT: nat, cycle: int)
      requires Valid()
      modifies ltssm, dll
      ensures State() == Spec.Hear(k, old(State()), ev, endT, cycle)
    {
      ltssm.OnEvent(ev, cycle);
      var p := Frames.Received(ev);
      if p != None { HearPacket(p.value, endT, cycle); }
    }

    method HearPacket(p: T.Packet, endT: nat, cycle: int)
      requires Valid()
      modifies dll
      ensures dll.State() == Spec.HearPacket(k.dll, old(dll.State()), p, endT, cycle)
    {
      match p
      case Control(m) => dll.OnDllp(m, cycle);
      case Data(_, _, _, _) =>
        var t := dll.OnTlp(p, endT, cycle);
        if t != None { dll.Release(t.value); }
      case Junk =>
    }

    method Push(xs: seq<Scr.Tx>)
      modifies `txq
      ensures txq == old(txq) + xs
    {
      txq := txq + xs;
    }

    method PushSkp()
      requires Valid()
      modifies `txq, `skpCount, `skpDue, `skpSent
      ensures State() == Spec.PushSkp(k, old(State()))
    {
      skpDue := false;
      skpCount := 0;
      var n := k.skpCounts[skpSent % |k.skpCounts|];
      skpSent := skpSent + 1;
      Push(Spec.Plain(SkpOs(n)));
    }

    method PushIdle()
      requires Valid()
      modifies `txq, `gapLeft, ltssm`sentAfterRx
      ensures State() == Spec.PushIdle(old(State()))
    {
      Push(Spec.Plain(Idle(2)));
      gapLeft := gapLeft - 2;
      ltssm.IdleSent(2);
    }

    /** What the Data Link Layer has to send, in L0 and after the gap. */
    method NextPacket(st: L.State, cycle: int) returns (p: Option<T.Packet>)
      requires Valid() && Spec.Ready(k, State())
      modifies dll
      ensures (dll.State(), p) == Spec.NextPacket(k, old(State()), st, cycle)
    {
      p := None;
      if st == L.L0 && gapLeft <= 0 { p := dll.NextPacket(cycle); }
    }

    method FillOne(st: L.State, cycle: int)
      requires Valid() && Spec.Ready(k, State())
      modifies `txq, `skpCount, `skpDue, `skpSent, `gapLeft, ltssm, dll
      ensures State() == Spec.FillOne(k, old(State()), st, cycle)
    {
      if skpDue {
        PushSkp();
        return;
      }
      var sent := PushTs();
      if !sent { sent := PushPacket(st, cycle); }
      if !sent { PushIdle(); }
    }

    method PushTs() returns (sent: bool)
      requires Valid()
      modifies `txq, ltssm
      ensures var f := old(State()); var r := L.NextUnit(k.lt, f.port.c);
        sent == r.1.Some? && State() == if sent then Spec.PushTs(f, r.0, r.1.value) else f
    {
      var unit := ltssm.NextUnit();
      ghost var f := old(State());
      assert State() == f.(port := L.Keep(f.port.c.state, L.NextUnit(k.lt, f.port.c).0, f.port.consec));
      sent := unit != None;
      if sent { Push(Spec.Marked(unit.value)); }
    }

    method PushPacket(st: L.State, cycle: int) returns (sent: bool)
      requires Valid() && Spec.Ready(k, State())
      modifies `txq, `gapLeft, dll
      ensures var f := old(State()); var r := Spec.NextPacket(k, f, st, cycle);
        sent == r.1.Some? && State() == if sent then Spec.PushPacket(k, f, r.0, r.1.value) else f
    {
      var p := NextPacket(st, cycle);
      sent := p != None;
      if sent { PushFrame(p.value); }
    }

    method PushFrame(p: T.Packet)
      requires Frames.Sendable(p)
      modifies `txq, `gapLeft
      ensures txq == old(txq) + Spec.Plain(Frames.Frame(p)) && gapLeft == k.pktGap
    {
      Push(Spec.Plain(Frames.Frame(p)));
      gapLeft := k.pktGap;
    }

    method Fill(cycle: int)
      requires Valid() && Spec.Ready(k, State())
      modifies `txq, `skpCount, `skpDue, `skpSent, `gapLeft, ltssm, dll
      ensures State() == Spec.Fill(k, old(State()), old(ltssm.state), cycle)
    {
      var st := ltssm.state;
      while |txq| < 2
        invariant Spec.Ready(k, State())
        invariant Spec.Fill(k, State(), st, cycle) == Spec.Fill(k, old(State()), st, cycle)
        decreases 2 - |txq|
      {
        Spec.FillGrows(k, State(), st, cycle);
        FillOne(st, cycle);
      }
    }

    method Pop() returns (s: Sym)
      requires |txq| > 0
      modifies `txq, `skpCount, `skpDue, scr
      ensures (State(), s) == Spec.Pop(k, old(State()))
    {
      var t := txq[0];
      txq := txq[1..];
      var b := scr.Symbol(t.s, t.inTs);
      s := Sym(b, t.s.k);
      skpCount := skpCount + 1;
      if skpCount >= k.skpInterval { skpDue := true; }
    }

    method PopWord() returns (out: seq<Sym>)
      requires |txq| >= 2
      modifies `txq, `skpCount, `skpDue, scr
      ensures (State(), out) == Spec.PopWord(k, old(State()))
    {
      var a := Pop();
      var b := Pop();
      out := [a, b];
    }

    method Begin()
      requires Valid()
      modifies `wasTx, `scr, `txq, `skpCount
      ensures State() == Spec.Begin(k, old(State()))
      ensures scr == old(scr) || fresh(scr)
    {
      if !wasTx {
        wasTx := true;
        scr := new Scr.Lfsr();
        txq := if k.comLane == 1 then Spec.Plain(Idle(1)) else [];
        skpCount := 0;
      }
    }

    method Transmit(cycle: int) returns (out: seq<Sym>)
      requires Valid() && Spec.Ready(k, State())
      modifies this, ltssm, dll, scr
      ensures (State(), out) == Spec.Transmit(k, old(State()), cycle)
    {
      if ltssm.state == L.DETECT {
        wasTx := false;
        return [];
      }
      Begin();
      Fill(cycle);
      out := PopWord();
    }

    /** One clock: LTSSM, Data Link Layer, then a word. `run` is the receiver's
        run of Logical Idle. */
    method Step(cycle: int, ei: bool, run: nat) returns (out: seq<Sym>)
      requires Valid() && Spec.Ready(k, State())
      modifies this, ltssm, dll, scr
      ensures (State(), out) == Spec.Step(k, old(State()), cycle, ei, run)
    {
      Spec.TickReady(k, State(), cycle, ei, run);
      ltssm.Tick(cycle, ei, run);
      assert State() == Spec.TickPort(k, old(State()), cycle, ei, run);
      TickDll(cycle);
      out := Transmit(cycle);
    }

    method TickDll(cycle: int)
      requires Valid()
      modifies dll
      ensures State() == Spec.TickDll(k, old(State()), cycle)
    {
      if ltssm.linkup { dll.LinkUp(cycle); } else { dll.LinkDown(); }
      dll.Tick(cycle);
    }
  }
}
