/** The Data Link Layer as the object it is in tb/lr1/lr1_dll.py: fields updated
    in place by its methods. Every method is proved to take the abstract state
    State() where the function of the same name in DllSpec takes it. */
module LinkLayer {
  import opened Common
  import opened DllTypes
  import Spec = DllSpec

  class Dll {
    const k: Knobs
    var st: LinkState
    var fi1: bool
    var fi2: bool
    var fcNext: Option<int>
    // accounts
    var alloc: Account
    var rcvd: Account
    var recorded: map<FcType, Credit>
    var limit: map<FcType, Credit>
    var consumed: Account
    var updDue: map<FcType, int>
    var updNow: set<FcType>
    // transmit side
    var nts: int
    var ackd: int
    var retry: seq<Entry>
    var replayQ: seq<Entry>
    var replayTimer: Option<int>
    var replayNum: int
    var tlpQ: seq<Tlp>
    var nullifyLeft: nat
    var nullPending: bool
    // receive side
    var nrs: int
    var nakScheduled: bool
    var ackDue: Option<int>
    var ackSeq: Option<int>
    var dllpQ: seq<Dllp>
    var errors: seq<DllError>

    ghost function FlowState(): Flow
      reads `alloc, `rcvd, `recorded, `limit, `consumed, `updDue, `updNow
    {
      Flow(alloc, rcvd, recorded, limit, consumed, updDue, updNow)
    }

    ghost function TxState(): Tx
      reads `nts, `ackd, `retry, `replayQ, `replayTimer, `replayNum, `tlpQ, `nullifyLeft, `nullPending
    {
      Tx(nts, ackd, retry, replayQ, replayTimer, replayNum, tlpQ, nullifyLeft, nullPending)
    }

    ghost function RxState(): Rx
      reads `nrs, `nakScheduled, `ackDue, `ackSeq
    {
      Rx(nrs, nakScheduled, ackDue, ackSeq)
    }

    /** The abstract state. */
    ghost function State(): DllState
      reads this
    {
      DllState(st, fi1, fi2, fcNext, FlowState(), TxState(), RxState(), dllpQ, errors)
    }

    constructor (k: Knobs)
      ensures this.k == k && State() == Reset(k)
    {
      this.k := k;
      st, fi1, fi2, fcNext := INACTIVE, false, false, None;
      alloc, rcvd, consumed := k.adv, NOTHING, NOTHING;
      recorded, limit, updDue, updNow := map[], map[], map[], {};
      nts, ackd, retry, replayQ, replayTimer, replayNum := 0, 0xFFF, [], [], None, 0;
      tlpQ, nullifyLeft, nullPending := [], k.nullifyCount, false;
      nrs, nakScheduled, ackDue, ackSeq := 0, false, None, None;
      dllpQ, errors := [], [];
    }

    // ---------------------------------------------------------- link state

    method LinkUp(now: int)
      modifies this
      ensures State() == Spec.LinkUp(k, old(State()), now)
    {
      if st == INACTIVE {
        st := FC_INIT1;
        fcNext := Some(now + k.fcInitStartDelay);
      }
    }

    method LinkDown()
      modifies this
      ensures State() == Spec.LinkDown(k, old(State()))
    {
      if st != INACTIVE { ResetFields(); }
    }

    method ResetFields()
      modifies this
      ensures errors == old(errors) && st == INACTIVE && !fi1 && !fi2 && fcNext == None && dllpQ == []
      ensures FlowState() == Reset(k).flow && TxState() == Reset(k).tx && RxState() == Reset(k).rx
    {
      ResetTransmit();
      ResetRest();
    }

    /** All but the transmit side and the record of errors. */
    method ResetRest()
      modifies `st, `fi1, `fi2, `fcNext, `dllpQ, `alloc, `rcvd, `recorded, `limit, `consumed, `updDue, `updNow,
               `nrs, `nakScheduled, `ackDue, `ackSeq
      ensures st == INACTIVE && !fi1 && !fi2 && fcNext == None && dllpQ == []
      ensures FlowState() == Reset(k).flow && RxState() == Reset(k).rx
    {
      ResetFlow();
      ResetReceive();
      st, fi1, fi2, fcNext, dllpQ := INACTIVE, false, false, None, [];
    }

    method ResetFlow()
      modifies `alloc, `rcvd, `recorded, `limit, `consumed, `updDue, `updNow
      ensures FlowState() == Reset(k).flow
    {
      alloc, rcvd, consumed := k.adv, NOTHING, NOTHING;
      recorded, limit, updDue, updNow := map[], map[], map[], {};
    }

    method ResetTransmit()
      modifies `nts, `ackd, `retry, `replayQ, `replayTimer, `replayNum, `tlpQ, `nullifyLeft, `nullPending
      ensures TxState() == Reset(k).tx
    {
      nts, ackd, retry, replayQ, replayTimer, replayNum := 0, 0xFFF, [], [], None, 0;
      tlpQ, nullifyLeft, nullPending := [], k.nullifyCount, false;
    }

    method ResetReceive()
      modifies `nrs, `nakScheduled, `ackDue, `ackSeq
      ensures RxState() == Reset(k).rx
    {
      nrs, nakScheduled, ackDue, ackSeq := 0, false, None, None;
    }

    method Fi2(now: int)
      modifies `fi2, `st, `updDue
      ensures State() == Spec.Fi2(k, old(State()), now)
    {
      fi2 := true;
      st := ACTIVE;
      FirstUpdates(now);
    }

    method FirstUpdates(now: int)
      modifies `updDue
      ensures updDue == Spec.FirstUpdates(k, old(updDue), now)
    {
      var types := [P, NP, CPL];
      ghost var due := updDue;
      for i := 0 to |types|
        invariant forall t :: t in updDue <==> t in due || (t in types[..i] && !Infinite(k.adv.Get(t)))
        invariant forall t :: t in updDue ==>
          updDue[t] == if t in types[..i] && !Infinite(k.adv.Get(t)) then now + k.updatefcPeriod else due[t]
      {
        var t := types[i];
        if k.adv.Get(t).h != 0 || k.adv.Get(t).d != 0 {
          updDue := updDue[t := now + k.updatefcPeriod];
        }
      }
      AllTypes(types);
    }

    static lemma AllTypes(types: seq<FcType>)
      requires types == [P, NP, CPL]
      ensures types[..|types|] == types && forall t: FcType :: t in types
    {
      assert types[0] == P && types[1] == NP && types[2] == CPL;
      forall t: FcType ensures t in types {
        match t case P => case NP => case CPL =>
      }
    }

    // ------------------------------------------------------------- receive

    method Record(fc: FcType, c: Credit, now: int)
      modifies `recorded, `fi1, `limit, `st, `fcNext
      ensures State() == Spec.Record(k, old(State()), fc, c, now)
    {
      recorded := recorded[fc := c];
      if P in recorded && NP in recorded && CPL in recorded {
        limit := recorded;
        EnterInit2(now);
      }
    }

    method EnterInit2(now: int)
      modifies `fi1, `st, `fcNext
      ensures State() == old(State()).(fi1 := true, st := FC_INIT2, fcNext := Some(now + k.fc2FirstDelay))
    {
      fi1 := true;
      st := FC_INIT2;
      fcNext := Some(now + k.fc2FirstDelay);
    }

    method OnDllp(m: Dllp, now: int)
      modifies this
      ensures State() == Spec.OnDllp(k, old(State()), m, now)
    {
      if st == INACTIVE { return; }
      if m.InitFC? && st == FC_INIT1 {
        if m.vc == 0 { Record(m.fc, m.credit, now); }
        return;
      }
      if st == FC_INIT2 && ((m.InitFC? && m.phase == 2 && m.vc == 0) || m.UpdateFC?) {
        Fi2(now);
      }
      if st != ACTIVE { return; }
      if m.UpdateFC? && m.vc == 0 {
        limit := limit[m.fc := m.credit];
      } else if m.Ack? {
        AckNak(false, m.num, now);
      } else if m.Nak? {
        AckNak(true, m.num, now);
      }
    }

    method AckNak(nak: bool, num: int, now: int)
      modifies `errors, `retry, `ackd, `replayQ, `replayNum, `replayTimer
      ensures State() == Spec.AckNak(old(State()), nak, num, now)
    {
      var out := (nts - 1 - ackd) % SEQ_MOD;
      var dist := (num - ackd) % SEQ_MOD;
      if dist > out {
        errors := errors + [BadAckSeq(num)];
        return;
      }
      if dist != 0 { TakeAck(num, dist, now); }
      if nak { StartReplay(now); }
    }

    method TakeAck(num: int, dist: int, now: int)
      requires dist != 0
      modifies `retry, `ackd, `replayNum, `replayTimer
      ensures State() == old(State()).(tx := Spec.TakeAck(old(State()).tx, num, dist, now))
    {
      PopAcked(dist);
      ackd := num;
      replayNum := 0;
      RestartTimer(now);
    }

    method PopAcked(dist: int)
      modifies `retry
      ensures State() == old(State()).(tx := old(State()).tx.(retry := Spec.Purge(old(retry), ackd, dist)))
    {
      while retry != [] && (retry[0].num - ackd - 1) % SEQ_MOD < dist
        modifies `retry
        invariant Spec.Purge(retry, ackd, dist) == Spec.Purge(old(retry), ackd, dist)
        decreases |retry|
      {
        retry := retry[1..];
      }
    }

    method RestartTimer(now: int)
      modifies `replayTimer
      ensures State() == old(State()).(tx := old(State()).tx.(replayTimer := Spec.TimerFor(retry, now)))
    {
      replayTimer := if retry != [] then Some(now) else None;
    }

    method StartReplay(now: int)
      modifies `replayQ, `replayNum, `replayTimer
      ensures State() == old(State()).(tx := Spec.StartReplay(old(State()).tx, now))
    {
      if retry != [] {
        replayQ := retry;
        replayNum := (replayNum + 1) % 4;
      }
      RestartTimer(now);
    }

    method OnTlp(m: Packet, endT: nat, now: int) returns (accepted: Option<Tlp>)
      requires m.Data?
      modifies this
      ensures (State(), accepted) == Spec.OnTlp(k, old(State()), m, endT, now)
    {
      accepted := None;
      if st == FC_INIT2 { Fi2(now); }
      if st != ACTIVE { return; }
      if m.edb {
        if m.lcrc != Inverted { ScheduleNak(); }
        return;
      }
      if m.lcrc != Good {
        ScheduleNak();
        return;
      }
      if m.num == nrs {
        AdvanceNrs();
        ScheduleAck(endT);
        Consume(m.tlp);
        accepted := Some(m.tlp);
        return;
      }
      if (nrs - m.num) % SEQ_MOD <= 2048 {
        ScheduleAck(endT);
        return;
      }
      ScheduleNak();
    }

    method AdvanceNrs()
      modifies `nrs, `nakScheduled
      ensures State() == old(State()).(rx := old(State()).rx.(nrs := (old(nrs) + 1) % SEQ_MOD, nakScheduled := false))
    {
      nrs := (nrs + 1) % SEQ_MOD;
      nakScheduled := false;
    }

    method ScheduleAck(endT: nat)
      modifies `ackDue, `ackSeq
      ensures State() == old(State()).(rx := Spec.ScheduleAck(k, old(State()).rx, endT))
    {
      if ackDue.None? {
        ackDue := Some(endT / 2 + k.ackDelay);
      }
      ackSeq := Some((nrs - 1) % SEQ_MOD);
    }

    method ScheduleNak()
      modifies `nakScheduled, `dllpQ
      ensures State() == Spec.ScheduleNak(old(State()))
    {
      if !nakScheduled {
        nakScheduled := true;
        dllpQ := [Nak((nrs - 1) % SEQ_MOD)] + dllpQ;
      }
    }

    // ------------------------------------------------------------- credits

    method Consume(t: Tlp)
      modifies `rcvd, `errors
      ensures State() == Spec.Consume(k, old(State()), t)
    {
      var r := rcvd.Get(t.fc);
      r := Credit((r.h + 1) % HDR_MOD, (r.d + t.data) % DATA_MOD);
      rcvd := rcvd.Put(t.fc, r);
      var adv, a := k.adv.Get(t.fc), alloc.Get(t.fc);
      if adv.h != 0 && (a.h - r.h) % HDR_MOD >= HDR_MOD / 2 {
        errors := errors + [Overflow(t.fc, true)];
      }
      if adv.d != 0 && (a.d - r.d) % DATA_MOD >= DATA_MOD / 2 {
        errors := errors + [Overflow(t.fc, false)];
      }
      assert errors == old(errors) + Spec.OverflowErrors(t.fc, adv, a, r);
    }

    method Release(t: Tlp)
      modifies `alloc, `updNow
      ensures State() == Spec.Release(k, old(State()), t)
    {
      var adv := k.adv.Get(t.fc);
      if adv.h == 0 && adv.d == 0 { return; }
      var a, r := alloc.Get(t.fc), rcvd.Get(t.fc);
      var availH := (a.h - r.h + 1) % HDR_MOD;
      var availD := (a.d - r.d + t.data) % DATA_MOD;
      var need := (adv.h != 0 && (availH - 1) % HDR_MOD == 0) ||
                  (adv.d != 0 && (availD - t.data) % DATA_MOD < k.maxPayload / 16);
      alloc := alloc.Put(t.fc, Spec.AddMod(a, if adv.h != 0 then 1 else 0, if adv.d != 0 then t.data else 0));
      if need || k.updatefcEveryRelease {
        updNow := updNow + {t.fc};
      }
    }

    method CanSend(t: Tlp) returns (ok: bool)
      ensures ok == Spec.CanSend(State().flow, t)
    {
      if t.fc !in limit { return false; }
      var lim, c := limit[t.fc], consumed.Get(t.fc);
      var ini := if t.fc in recorded then recorded[t.fc] else ZERO;
      var okH := (lim.h == 0 && ini.h == 0) || (lim.h - (c.h + 1)) % HDR_MOD <= HDR_MOD / 2;
      var okD := (lim.d == 0 && ini.d == 0) || t.data == 0 ||
                 (lim.d - (c.d + t.data)) % DATA_MOD <= DATA_MOD / 2;
      return okH && okD;
    }

    // ------------------------------------------------------------ transmit

    method SendTlp(t: Tlp)
      modifies `tlpQ
      ensures State() == Spec.SendTlp(old(State()), t)
    {
      tlpQ := tlpQ + [t];
    }

    method Tick(cycle: int)
      modifies `dllpQ, `fcNext, `updNow, `replayQ, `replayNum, `replayTimer
      ensures State() == Spec.Tick(k, old(State()), cycle)
    {
      if (st == FC_INIT1 || st == FC_INIT2) && fcNext.Some? && cycle >= fcNext.value {
        QueueInitSet(if st == FC_INIT1 then 1 else 2);
        fcNext := Some(cycle + k.fcSetPeriod);
      }
      if st == ACTIVE {
        MarkDue(cycle);
        if replayTimer.Some? && cycle - replayTimer.value >= k.replayTimerCycles {
          StartReplay(cycle);
        }
      }
    }

    method QueueInitSet(phase: int)
      modifies `dllpQ
      ensures State() == old(State()).(q := old(dllpQ) + Spec.InitSet(k, phase))
    {
      var types := [P, NP, CPL];
      for i := 0 to |types|
        modifies `dllpQ
        invariant dllpQ == old(dllpQ) + Spec.InitSet(k, phase)[..i]
      {
        dllpQ := dllpQ + [InitFC(phase, types[i], 0, k.adv.Get(types[i]))];
      }
      assert Spec.InitSet(k, phase)[..3] == Spec.InitSet(k, phase);
    }

    method MarkDue(cycle: int)
      modifies `updNow
      ensures State() == old(State()).(flow := old(State()).flow.(updNow := Spec.DueUpdates(old(State()).flow, cycle)))
    {
      var types := [P, NP, CPL];
      for i := 0 to |types|
        modifies `updNow
        invariant forall t ::
          t in updNow <==> t in old(updNow) || (t in types[..i] && t in updDue && cycle >= updDue[t])
      {
        if types[i] in updDue && cycle >= updDue[types[i]] {
          updNow := updNow + {types[i]};
        }
      }
      AllTypes(types);
      assert updNow == Spec.DueUpdates(old(State()).flow, cycle);
    }

    method NextPacket(cycle: int) returns (p: Option<Packet>)
      modifies this
      ensures (State(), p) == Spec.NextPacket(k, old(State()), cycle)
    {
      if dllpQ != [] && dllpQ[0].Nak? {
        p := PopQueue();
        return;
      }
      if ackDue.Some? && ackSeq.Some? && cycle >= ackDue.value && st == ACTIVE {
        ackDue := None;
        return Some(Control(Ack(ackSeq.value)));
      }
      if dllpQ != [] {
        p := PopQueue();
        return;
      }
      if st != ACTIVE { return None; }
      if updNow != {} {
        p := SendUpdate(cycle);
        return;
      }
      if replayQ != [] {
        var e := replayQ[0];
        replayQ := replayQ[1..];
        StartTimer(cycle);
        return Some(Data(e.num, e.tlp, false, Good));
      }
      p := NewPacket(cycle);
    }

    method PopQueue() returns (p: Option<Packet>)
      requires dllpQ != []
      modifies `dllpQ
      ensures (State(), p) == Spec.PopQueue(old(State()))
    {
      p := Some(Control(dllpQ[0]));
      dllpQ := dllpQ[1..];
    }

    method SendUpdate(cycle: int) returns (p: Option<Packet>)
      modifies `updNow, `updDue
      ensures (State(), p) == Spec.SendUpdate(k, old(State()), cycle)
    {
      var t := if CPL in updNow then CPL else if NP in updNow then NP else P;
      updNow := updNow - {t};
      updDue := updDue[t := cycle + k.updatefcPeriod];
      return Some(Control(UpdateFC(t, 0, alloc.Get(t))));
    }

    /** The last branch of next_packet: a TLP from the Transaction Layer. */
    method NewPacket(cycle: int) returns (p: Option<Packet>)
      modifies `nullPending, `nullifyLeft, `tlpQ, `retry, `nts, `consumed, `replayTimer
      ensures !Spec.NewReady(old(State())) ==> State() == old(State()) && p == None
      ensures Spec.NewReady(old(State())) ==>
        (State(), p) == if old(nullifyLeft) > 0 && !old(nullPending) then Spec.SendNull(old(State()))
                        else Spec.SendNew(old(State()), cycle)
    {
      if tlpQ == [] { return None; }
      var t := tlpQ[0];
      var ok := CanSend(t);
      if !ok || (nts - 1 - ackd) % SEQ_MOD >= 2047 { return None; }
      if nullifyLeft > 0 && !nullPending {
        nullPending := true;
        nullifyLeft := nullifyLeft - 1;
        return Some(Data(nts, t, true, Inverted));
      }
      p := SendNew(t, cycle);
    }

    method SendNew(t: Tlp, cycle: int) returns (p: Option<Packet>)
      requires tlpQ != [] && tlpQ[0] == t
      modifies `nullPending, `tlpQ, `retry, `nts, `consumed, `replayTimer
      ensures (State(), p) == Spec.SendNew(old(State()), cycle)
    {
      p := Some(Data(nts, t, false, Good));
      KeepCopy(cycle);
      Spend(t);
    }

    /** Moves the head of tlp_q into the retry buffer under NEXT_TRANSMIT_SEQ. */
    method KeepCopy(cycle: int)
      requires tlpQ != []
      modifies `tlpQ, `retry, `nts, `nullPending, `replayTimer
      ensures TxState() == old(TxState()).(
          tlpQ := old(tlpQ)[1..], retry := old(retry) + [Entry(old(nts), old(tlpQ)[0])],
          nts := (old(nts) + 1) % SEQ_MOD, nullPending := false,
          replayTimer := Spec.StartTimer(old(replayTimer), cycle))
    {
      nullPending := false;
      retry := retry + [Entry(nts, tlpQ[0])];
      tlpQ := tlpQ[1..];
      nts := (nts + 1) % SEQ_MOD;
      if replayTimer.None? { replayTimer := Some(cycle); }
    }

    method Spend(t: Tlp)
      modifies `consumed
      ensures FlowState() == Spec.Spend(old(FlowState()), t)
    {
      var c := consumed.Get(t.fc);
      consumed := consumed.Put(t.fc, Credit((c.h + 1) % HDR_MOD, (c.d + t.data) % DATA_MOD));
    }

    method StartTimer(cycle: int)
      modifies `replayTimer
      ensures State() == old(State()).(tx := old(TxState()).(replayTimer := Spec.StartTimer(old(replayTimer), cycle)))
    {
      if replayTimer.None? { replayTimer := Some(cycle); }
    }
  }
}
