/** One function per operation of tb/lr1/lr1_dll.py: the new state from the old
    one. The class LinkLayer.Dll is proved to compute exactly these. */
module DllSpec {
  import opened Common
  import opened DllTypes

  // ------------------------------------------------------------ link state

  function LinkUp(k: Knobs, d: DllState, now: int): DllState {
    if d.st == INACTIVE then d.(st := FC_INIT1, fcNext := Some(now + k.fcInitStartDelay)) else d
  }

  /** DL_Inactive resets all state but the record of errors. */
  function LinkDown(k: Knobs, d: DllState): DllState {
    if d.st == INACTIVE then d else Reset(k).(errors := d.errors)
  }

  /** The periodic UpdateFC due times set on entry to ACTIVE. */
  function FirstUpdates(k: Knobs, due: map<FcType, int>, now: int): map<FcType, int> {
    map t: FcType | !Infinite(k.adv.Get(t)) || t in due ::
      if Infinite(k.adv.Get(t)) then due[t] else now + k.updatefcPeriod
  }

  function Fi2(k: Knobs, d: DllState, now: int): DllState {
    d.(st := ACTIVE, fi2 := true, flow := d.flow.(updDue := FirstUpdates(k, d.flow.updDue, now)))
  }

  // --------------------------------------------------------------- receive

  function Record(k: Knobs, d: DllState, fc: FcType, c: Credit, now: int): DllState {
    var rec := d.flow.recorded[fc := c];
    if P in rec && NP in rec && CPL in rec then
      d.(st := FC_INIT2, fi1 := true, fcNext := Some(now + k.fc2FirstDelay),
         flow := d.flow.(recorded := rec, limit := rec))
    else
      d.(flow := d.flow.(recorded := rec))
  }

  function OnDllp(k: Knobs, d: DllState, m: Dllp, now: int): DllState {
    if d.st == INACTIVE then d
    else if m.InitFC? && d.st == FC_INIT1 then
      if m.vc == 0 then Record(k, d, m.fc, m.credit, now) else d
    else
      var d1 := if d.st == FC_INIT2 && ((m.InitFC? && m.phase == 2 && m.vc == 0) || m.UpdateFC?)
                then Fi2(k, d, now) else d;
      if d1.st != ACTIVE then d1
      else match m
        case UpdateFC(fc, vc, c) =>
          if vc == 0 then d1.(flow := d1.flow.(limit := d1.flow.limit[fc := c])) else d1
        case Ack(num) => AckNak(d1, false, num, now)
        case Nak(num) => AckNak(d1, true, num, now)
        case _ => d1
  }

  function Unacked(tx: Tx): int { (tx.nts - 1 - tx.ackd) % SEQ_MOD }

  /** The entries left when the ones at distance 1..dist past `ackd` are popped
      off the front. */
  function Purge(retry: seq<Entry>, ackd: int, dist: int): seq<Entry> {
    if retry != [] && (retry[0].num - ackd - 1) % SEQ_MOD < dist
    then Purge(retry[1..], ackd, dist)
    else retry
  }

  function TimerFor(retry: seq<Entry>, now: int): Option<int> {
    if retry == [] then None else Some(now)
  }

  function StartReplay(tx: Tx, now: int): Tx {
    if tx.retry == [] then tx.(replayTimer := None)
    else tx.(replayQ := tx.retry, replayNum := (tx.replayNum + 1) % 4, replayTimer := Some(now))
  }

  function TakeAck(tx: Tx, num: int, dist: int, now: int): Tx {
    if dist == 0 then tx
    else
      var retry := Purge(tx.retry, tx.ackd, dist);
      tx.(retry := retry, ackd := num, replayNum := 0, replayTimer := TimerFor(retry, now))
  }

  function AckNak(d: DllState, nak: bool, num: int, now: int): DllState {
    var dist := (num - d.tx.ackd) % SEQ_MOD;
    if dist > Unacked(d.tx) then d.(errors := d.errors + [BadAckSeq(num)])
    else
      var tx := TakeAck(d.tx, num, dist, now);
      d.(tx := if nak then StartReplay(tx, now) else tx)
  }

  function ScheduleAck(k: Knobs, rx: Rx, endT: nat): Rx {
    rx.(ackDue := if rx.ackDue.None? then Some(endT / 2 + k.ackDelay) else rx.ackDue,
        ackSeq := Some((rx.nrs - 1) % SEQ_MOD))
  }

  function ScheduleNak(d: DllState): DllState {
    if d.rx.nakScheduled then d
    else d.(rx := d.rx.(nakScheduled := true), q := [Nak((d.rx.nrs - 1) % SEQ_MOD)] + d.q)
  }

  /** A received TLP: the new state, and the TLP if it was accepted. */
  function OnTlp(k: Knobs, d: DllState, m: Packet, endT: nat, now: int): (DllState, Option<Tlp>)
    requires m.Data?
  {
    var d1 := if d.st == FC_INIT2 then Fi2(k, d, now) else d;
    if d1.st != ACTIVE then (d1, None)
    else if m.edb then
      (if m.lcrc == Inverted then d1 else ScheduleNak(d1), None)
    else if m.lcrc != Good then (ScheduleNak(d1), None)
    else if m.num == d1.rx.nrs then
      var rx := ScheduleAck(k, d1.rx.(nrs := (d1.rx.nrs + 1) % SEQ_MOD, nakScheduled := false), endT);
      (Consume(k, d1.(rx := rx), m.tlp), Some(m.tlp))
    else if (d1.rx.nrs - m.num) % SEQ_MOD <= 2048 then
      (d1.(rx := ScheduleAck(k, d1.rx, endT)), None)
    else (ScheduleNak(d1), None)
  }

  // --------------------------------------------------------------- credits

  function AddMod(c: Credit, h: int, d: int): Credit {
    Credit((c.h + h) % HDR_MOD, (c.d + d) % DATA_MOD)
  }

  /** The optional Receiver Overflow check, one credit kind at a time. */
  function OverflowErrors(fc: FcType, adv: Credit, alloc: Credit, rcvd: Credit): seq<DllError> {
    (if adv.h != 0 && (alloc.h - rcvd.h) % HDR_MOD >= HDR_MOD / 2 then [Overflow(fc, true)] else []) +
    (if adv.d != 0 && (alloc.d - rcvd.d) % DATA_MOD >= DATA_MOD / 2 then [Overflow(fc, false)] else [])
  }

  function Consume(k: Knobs, d: DllState, t: Tlp): DllState {
    var r := AddMod(d.flow.rcvd.Get(t.fc), 1, t.data);
    d.(flow := d.flow.(rcvd := d.flow.rcvd.Put(t.fc, r)),
       errors := d.errors + OverflowErrors(t.fc, k.adv.Get(t.fc), d.flow.alloc.Get(t.fc), r))
  }

  function Release(k: Knobs, d: DllState, t: Tlp): DllState {
    var adv := k.adv.Get(t.fc);
    if Infinite(adv) then d
    else
      var a := d.flow.alloc.Get(t.fc);
      var r := d.flow.rcvd.Get(t.fc);
      var availH := (a.h - r.h + 1) % HDR_MOD;
      var availD := (a.d - r.d + t.data) % DATA_MOD;
      var need := (adv.h != 0 && (availH - 1) % HDR_MOD == 0) ||
                  (adv.d != 0 && (availD - t.data) % DATA_MOD < k.maxPayload / 16);
      var a1 := AddMod(a, if adv.h != 0 then 1 else 0, if adv.d != 0 then t.data else 0);
      d.(flow := d.flow.(alloc := d.flow.alloc.Put(t.fc, a1),
                         updNow := if need || k.updatefcEveryRelease then d.flow.updNow + {t.fc}
                                   else d.flow.updNow))
  }

  /** One component of can_send: an infinite advertisement, or the modular test. */
  predicate Gate(limit: int, infinite: bool, used: int, mod: int)
    requires mod > 0
  {
    (limit == 0 && infinite) || (limit - used) % mod <= mod / 2
  }

  predicate CanSend(f: Flow, t: Tlp) {
    t.fc in f.limit &&
    var lim := f.limit[t.fc];
    var ini := if t.fc in f.recorded then f.recorded[t.fc] else ZERO;
    var c := f.consumed.Get(t.fc);
    Gate(lim.h, ini.h == 0, c.h + 1, HDR_MOD) &&
    (t.data == 0 || Gate(lim.d, ini.d == 0, c.d + t.data, DATA_MOD))
  }

  function Spend(f: Flow, t: Tlp): Flow {
    f.(consumed := f.consumed.Put(t.fc, AddMod(f.consumed.Get(t.fc), 1, t.data)))
  }

  // -------------------------------------------------------------- transmit

  function SendTlp(d: DllState, t: Tlp): DllState { d.(tx := d.tx.(tlpQ := d.tx.tlpQ + [t])) }

  function InitSet(k: Knobs, phase: int): seq<Dllp> {
    [InitFC(phase, P, 0, k.adv.p), InitFC(phase, NP, 0, k.adv.np), InitFC(phase, CPL, 0, k.adv.cpl)]
  }

  function TickInit(k: Knobs, d: DllState, cycle: int): DllState {
    if (d.st == FC_INIT1 || d.st == FC_INIT2) && d.fcNext.Some? && cycle >= d.fcNext.value then
      d.(q := d.q + InitSet(k, if d.st == FC_INIT1 then 1 else 2), fcNext := Some(cycle + k.fcSetPeriod))
    else d
  }

  function DueUpdates(f: Flow, cycle: int): set<FcType> {
    f.updNow + set t: FcType | t in f.updDue && cycle >= f.updDue[t]
  }

  function TickActive(k: Knobs, d: DllState, cycle: int): DllState {
    var d1 := d.(flow := d.flow.(updNow := DueUpdates(d.flow, cycle)));
    if d.tx.replayTimer.Some? && cycle - d.tx.replayTimer.value >= k.replayTimerCycles
    then d1.(tx := StartReplay(d.tx, cycle))
    else d1
  }

  function Tick(k: Knobs, d: DllState, cycle: int): DllState {
    var d1 := TickInit(k, d, cycle);
    if d1.st == ACTIVE then TickActive(k, d1, cycle) else d1
  }

  /** sorted(upd_now)[0]: the names sort as CPL, NP, P. */
  function FirstType(s: set<FcType>): FcType {
    if CPL in s then CPL else if NP in s then NP else P
  }

  function StartTimer(t: Option<int>, cycle: int): Option<int> {
    if t.None? then Some(cycle) else t
  }

  function SendUpdate(k: Knobs, d: DllState, cycle: int): (DllState, Option<Packet>) {
    var t := FirstType(d.flow.updNow);
    (d.(flow := d.flow.(updNow := d.flow.updNow - {t},
                        updDue := d.flow.updDue[t := cycle + k.updatefcPeriod])),
     Some(Control(UpdateFC(t, 0, d.flow.alloc.Get(t)))))
  }

  function SendReplay(d: DllState, cycle: int): (DllState, Option<Packet>)
    requires d.tx.replayQ != []
  {
    var e := d.tx.replayQ[0];
    (d.(tx := d.tx.(replayQ := d.tx.replayQ[1..], replayTimer := StartTimer(d.tx.replayTimer, cycle))),
     Some(Data(e.num, e.tlp, false, Good)))
  }

  function SendNew(d: DllState, cycle: int): (DllState, Option<Packet>)
    requires d.tx.tlpQ != []
  {
    var t := d.tx.tlpQ[0];
    (d.(tx := d.tx.(tlpQ := d.tx.tlpQ[1..], nts := (d.tx.nts + 1) % SEQ_MOD,
                    retry := d.tx.retry + [Entry(d.tx.nts, t)], nullPending := false,
                    replayTimer := StartTimer(d.tx.replayTimer, cycle)),
        flow := Spend(d.flow, t)),
     Some(Data(d.tx.nts, t, false, Good)))
  }

  function SendNull(d: DllState): (DllState, Option<Packet>)
    requires d.tx.tlpQ != [] && d.tx.nullifyLeft > 0
  {
    (d.(tx := d.tx.(nullPending := true, nullifyLeft := d.tx.nullifyLeft - 1)),
     Some(Data(d.tx.nts, d.tx.tlpQ[0], true, Inverted)))
  }

  function PopQueue(d: DllState): (DllState, Option<Packet>)
    requires d.q != []
  {
    (d.(q := d.q[1..]), Some(Control(d.q[0])))
  }

  predicate AckReady(d: DllState, cycle: int) {
    d.rx.ackDue.Some? && d.rx.ackSeq.Some? && cycle >= d.rx.ackDue.value && d.st == ACTIVE
  }

  predicate NewReady(d: DllState) {
    d.tx.tlpQ != [] && CanSend(d.flow, d.tx.tlpQ[0]) && Unacked(d.tx) < 2047
  }

  /** Nak, Ack, other DLLPs, UpdateFC, replay, new TLP, in this order. */
  function NextPacket(k: Knobs, d: DllState, cycle: int): (DllState, Option<Packet>) {
    if d.q != [] && d.q[0].Nak? then PopQueue(d)
    else if AckReady(d, cycle) then
      (d.(rx := d.rx.(ackDue := None)), Some(Control(Ack(d.rx.ackSeq.value))))
    else if d.q != [] then PopQueue(d)
    else if d.st != ACTIVE then (d, None)
    else if d.flow.updNow != {} then SendUpdate(k, d, cycle)
    else if d.tx.replayQ != [] then SendReplay(d, cycle)
    else if NewReady(d) then
      if d.tx.nullifyLeft > 0 && !d.tx.nullPending then SendNull(d) else SendNew(d, cycle)
    else (d, None)
  }
}
