/** Every number the Data Link Layer keeps fits its field and every TLP it holds
    fits a frame, so that whatever next_packet returns can be framed. */
module DllRanges {
  import opened Common
  import opened DllTypes
  import Spec = DllSpec
  import Frames
  import TlpFormat

  /** How long TLPs are, and whether their lengths are even, as those of whole
      Dwords are. */
  datatype Limits = Limits(max: nat, even: bool)

  predicate TlpFits(t: Tlp, m: Limits) {
    t == TlpFormat.TlpOf(t.bytes) && |t.bytes| <= m.max && (m.even ==> |t.bytes| % 2 == 0)
  }

  predicate EntriesFit(q: seq<Entry>, m: Limits) {
    forall e | e in q :: 0 <= e.num < SEQ_MOD && TlpFits(e.tlp, m)
  }

  predicate KnobsFit(k: Knobs) { forall t: FcType :: Frames.CreditFits(k.adv.Get(t)) }

  predicate FlowFits(f: Flow) { forall t: FcType :: Frames.CreditFits(f.alloc.Get(t)) }

  predicate TxFits(tx: Tx, m: Limits) {
    0 <= tx.nts < SEQ_MOD && EntriesFit(tx.retry, m) && EntriesFit(tx.replayQ, m) &&
    forall t | t in tx.tlpQ :: TlpFits(t, m)
  }

  predicate RxFits(rx: Rx) {
    0 <= rx.nrs < SEQ_MOD && (rx.ackSeq.Some? ==> 0 <= rx.ackSeq.value < SEQ_MOD)
  }

  predicate QueueFits(q: seq<Dllp>) { forall x | x in q :: Frames.Sendable(Control(x)) }

  predicate Fits(d: DllState, m: Limits) { TxFits(d.tx, m) && RxFits(d.rx) && FlowFits(d.flow) && QueueFits(d.q) }

  lemma ResetFits(k: Knobs, m: Limits)
    requires KnobsFit(k)
    ensures Fits(Reset(k), m)
  {
  }

  lemma {:induction false} PurgeFits(q: seq<Entry>, ackd: int, dist: int, m: Limits)
    requires EntriesFit(q, m)
    ensures EntriesFit(Spec.Purge(q, ackd, dist), m)
    decreases |q|
  {
    if q != [] && (q[0].num - ackd - 1) % SEQ_MOD < dist { PurgeFits(q[1..], ackd, dist, m); }
  }

  lemma AckNakFits(d: DllState, nak: bool, num: int, now: int, m: Limits)
    requires Fits(d, m)
    ensures Fits(Spec.AckNak(d, nak, num, now), m)
  {
    PurgeFits(d.tx.retry, d.tx.ackd, (num - d.tx.ackd) % SEQ_MOD, m);
  }

  lemma DllpFits(k: Knobs, d: DllState, x: Dllp, now: int, m: Limits)
    requires Fits(d, m)
    ensures Fits(Spec.OnDllp(k, d, x, now), m)
  {
    match x
    case Ack(num) => AckNakFits(d, false, num, now, m);
    case Nak(num) => AckNakFits(d, true, num, now, m);
    case InitFC(_, _, _, _) => ControlFits(k, d, x, now, m);
    case UpdateFC(_, _, _) => ControlFits(k, d, x, now, m);
    case Other =>
  }

  lemma ControlFits(k: Knobs, d: DllState, x: Dllp, now: int, m: Limits)
    requires Fits(d, m) && (x.InitFC? || x.UpdateFC?)
    ensures Fits(Spec.OnDllp(k, d, x, now), m)
  {
    var d1 := Spec.OnDllp(k, d, x, now);
    assert d1.tx == d.tx && d1.rx == d.rx && d1.q == d.q && d1.flow.alloc == d.flow.alloc;
  }

  lemma NakFits(d: DllState, m: Limits)
    requires Fits(d, m)
    ensures Fits(Spec.ScheduleNak(d), m)
  {
  }

  lemma AckFits(k: Knobs, d: DllState, endT: nat, m: Limits)
    requires Fits(d, m)
    ensures Fits(d.(rx := Spec.ScheduleAck(k, d.rx, endT)), m)
  {
  }

  lemma AcceptFits(k: Knobs, d: DllState, t: Tlp, endT: nat, m: Limits)
    requires Fits(d, m)
    ensures var rx := Spec.ScheduleAck(k, d.rx.(nrs := (d.rx.nrs + 1) % SEQ_MOD, nakScheduled := false), endT);
      Fits(Spec.Consume(k, d.(rx := rx), t), m)
  {
    var rx := Spec.ScheduleAck(k, d.rx.(nrs := (d.rx.nrs + 1) % SEQ_MOD, nakScheduled := false), endT);
    assert Spec.Consume(k, d.(rx := rx), t).flow.alloc == d.flow.alloc;
  }

  /** A TLP is refused, Nakked, acknowledged again or accepted. */
  lemma TlpArrivalFits(k: Knobs, d: DllState, x: Packet, endT: nat, now: int, m: Limits)
    requires Fits(d, m) && x.Data?
    ensures Fits(Spec.OnTlp(k, d, x, endT, now).0, m)
  {
    var d1 := if d.st == FC_INIT2 then Spec.Fi2(k, d, now) else d;
    assert d1.flow.alloc == d.flow.alloc;
    NakFits(d1, m);
    AckFits(k, d1, endT, m);
    AcceptFits(k, d1, x.tlp, endT, m);
  }

  lemma PutKeeps(a: Account, t: FcType, u: FcType, c: Credit)
    ensures a.Put(t, c).Get(u) == if t == u then c else a.Get(u)
  {
  }

  lemma ReleaseFits(k: Knobs, d: DllState, t: Tlp, m: Limits)
    requires Fits(d, m)
    ensures Fits(Spec.Release(k, d, t), m)
  {
    var a := Spec.Release(k, d, t).flow.alloc;
    forall u: FcType ensures Frames.CreditFits(a.Get(u)) {
      assert Frames.CreditFits(d.flow.alloc.Get(u));
      PutKeeps(d.flow.alloc, t.fc, u, a.Get(t.fc));
    }
  }

  lemma TickFits(k: Knobs, d: DllState, cycle: int, m: Limits)
    requires Fits(d, m) && KnobsFit(k)
    ensures Fits(Spec.Tick(k, d, cycle), m)
  {
    assert k.adv.Get(P) == k.adv.p && k.adv.Get(NP) == k.adv.np && k.adv.Get(CPL) == k.adv.cpl;
    var d1 := Spec.TickInit(k, d, cycle);
    assert QueueFits(Spec.InitSet(k, 1)) && QueueFits(Spec.InitSet(k, 2));
    assert Fits(d1, m);
  }

  predicate PacketFits(p: Packet, m: Limits) { Frames.Sendable(p) && (p.Data? ==> TlpFits(p.tlp, m)) }

  predicate ResultFits(r: (DllState, Option<Packet>), m: Limits) {
    Fits(r.0, m) && (r.1.Some? ==> PacketFits(r.1.value, m))
  }

  lemma QueueHeadFits(d: DllState, m: Limits)
    requires Fits(d, m) && d.q != []
    ensures ResultFits(Spec.PopQueue(d), m)
  {
    assert d.q[0] in d.q;
  }

  lemma UpdateFits(k: Knobs, d: DllState, cycle: int, m: Limits)
    requires Fits(d, m) && d.flow.updNow != {}
    ensures ResultFits(Spec.SendUpdate(k, d, cycle), m)
  {
  }

  lemma ReplayFits(d: DllState, cycle: int, m: Limits)
    requires Fits(d, m) && m.max <= 4116 && d.tx.replayQ != []
    ensures ResultFits(Spec.SendReplay(d, cycle), m)
  {
    assert d.tx.replayQ[0] in d.tx.replayQ;
  }

  lemma NewFits(d: DllState, cycle: int, m: Limits)
    requires Fits(d, m) && m.max <= 4116 && d.tx.tlpQ != []
    ensures ResultFits(Spec.SendNew(d, cycle), m)
  {
    var t := d.tx.tlpQ[0];
    assert t in d.tx.tlpQ;
    assert EntriesFit(d.tx.retry + [Entry(d.tx.nts, t)], m);
    assert FlowFits(Spec.Spend(d.flow, t));
  }

  lemma NullFits(d: DllState, m: Limits)
    requires Fits(d, m) && m.max <= 4116 && d.tx.tlpQ != [] && d.tx.nullifyLeft > 0
    ensures ResultFits(Spec.SendNull(d), m)
  {
    assert d.tx.tlpQ[0] in d.tx.tlpQ;
  }

  /** Whatever next_packet returns can be framed, and the rest still fits. */
  lemma NextFits(k: Knobs, d: DllState, cycle: int, m: Limits)
    requires Fits(d, m) && m.max <= 4116
    ensures ResultFits(Spec.NextPacket(k, d, cycle), m)
  {
    if d.q != [] { QueueHeadFits(d, m); }
    if d.flow.updNow != {} { UpdateFits(k, d, cycle, m); }
    if d.tx.replayQ != [] { ReplayFits(d, cycle, m); }
    if d.tx.tlpQ != [] {
      NewFits(d, cycle, m);
      if d.tx.nullifyLeft > 0 { NullFits(d, m); }
    }
  }
}
