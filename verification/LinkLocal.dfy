/** What one Data Link Layer keeps whatever its peer and the channels do: the
    retry and replay buffers against everything ever sent, and the receive side
    against everything ever accepted. */
module LinkLocal {
  import opened Common
  import opened DllTypes
  import Spec = DllSpec
  import opened Link

  // -------------------------------------------------- sequence-number algebra

  /** A difference of two numbers, shifted by `z`, may be taken from residues. */
  lemma ModDiff(x: int, y: int, z: int)
    ensures (x % SEQ_MOD - y % SEQ_MOD + z) % SEQ_MOD == (x - y + z) % SEQ_MOD
  {
    var m, n := x / SEQ_MOD, y / SEQ_MOD;
    ModShift(x % SEQ_MOD - y % SEQ_MOD + z, m - n);
  }

  lemma ModShift(r: int, m: int)
    ensures r % SEQ_MOD == (r + SEQ_MOD * m) % SEQ_MOD
  {
  }

  /** `q` is the last |q| TLPs of `sent`, each under its index mod 4096. */
  predicate IsTail(q: seq<Entry>, sent: seq<Tlp>) {
    |q| <= |sent| &&
    forall i | 0 <= i < |q| :: q[i] == Entry((|sent| - |q| + i) % SEQ_MOD, sent[|sent| - |q| + i])
  }

  /** The retry and replay buffers against the list of everything sent. */
  predicate TxRun(tx: Tx, sent: seq<Tlp>) {
    && tx.nts == |sent| % SEQ_MOD
    && IsTail(tx.retry, sent) && |tx.retry| <= 2047
    && tx.ackd == (|sent| - |tx.retry| - 1) % SEQ_MOD
    && IsTail(tx.replayQ, sent) && |tx.replayQ| <= 2047
    && (tx.retry != [] ==> tx.replayTimer.Some?)
  }

  predicate TxOk(e: End) {
    && TxRun(e.d.tx, e.sent)
    && e.offered == e.sent + e.d.tx.tlpQ
    && (e.sent != [] ==> e.d.st == ACTIVE)
  }

  lemma TailRest(q: seq<Entry>, n: nat, sent: seq<Tlp>)
    requires IsTail(q, sent) && n <= |q|
    ensures IsTail(q[n..], sent)
  {
  }

  lemma TailMore(q: seq<Entry>, sent: seq<Tlp>, t: Tlp)
    requires IsTail(q, sent)
    ensures IsTail(q + [Entry(|sent| % SEQ_MOD, t)], sent + [t])
  {
  }

  /** _unacked() counts the retry buffer. */
  lemma UnackedIsRetry(tx: Tx, sent: seq<Tlp>)
    requires TxRun(tx, sent)
    ensures Spec.Unacked(tx) == |tx.retry|
  {
    ModDiff(|sent|, |sent| - |tx.retry| - 1, -1);
  }

  /** Popping by distance pops exactly the entries up to the distance, when the
      buffer starts at distance `j` past `ackd`. */
  lemma {:induction false} PurgePops(q: seq<Entry>, first: int, ackd: int, j: nat, dist: nat)
    requires forall i | 0 <= i < |q| :: q[i].num == (first + i) % SEQ_MOD
    requires ackd == (first - j - 1) % SEQ_MOD
    requires j <= dist <= j + |q| < SEQ_MOD
    ensures Spec.Purge(q, ackd, dist) == q[dist - j..]
    decreases |q|
  {
    if q == [] {
    } else {
      assert q[0].num == first % SEQ_MOD;
      ModDiff(first, first - j - 1, -1);
      assert (q[0].num - ackd - 1) % SEQ_MOD == j;
      if j < dist { PurgePops(q[1..], first + 1, ackd, j + 1, dist); }
    }
  }

  /** An Ack or Nak inside the window purges exactly the entries up to it. */
  lemma TakeAckRun(tx: Tx, sent: seq<Tlp>, num: int, dist: nat, now: int)
    requires TxRun(tx, sent) && 0 <= num < SEQ_MOD
    requires dist == (num - tx.ackd) % SEQ_MOD <= |tx.retry|
    ensures TxRun(Spec.TakeAck(tx, num, dist, now), sent)
    ensures Spec.TakeAck(tx, num, dist, now).retry == tx.retry[dist..]
  {
    if dist != 0 {
      PurgePops(tx.retry, |sent| - |tx.retry|, tx.ackd, 0, dist);
      TailRest(tx.retry, dist, sent);
      AckdAdvances(|sent| - |tx.retry| - 1, num, dist);
    }
  }

  lemma AckdAdvances(base: int, num: int, dist: nat)
    requires 0 <= num < SEQ_MOD && dist == (num - base % SEQ_MOD) % SEQ_MOD
    ensures num == (base + dist) % SEQ_MOD
  {
  }

  /** What _acknak does to the transmit side, for every number it can be given:
      the numbers of ACKD_SEQ and of unacknowledged TLPs purge exactly the
      entries up to them, all others leave everything in place. */
  lemma AckWindowExact(d: DllState, sent: seq<Tlp>, nak: bool, j: int, now: int)
    requires TxRun(d.tx, sent) && 0 <= j < SEQ_MOD
    ensures var num := (|sent| - |d.tx.retry| - 1 + j) % SEQ_MOD; var d1 := Spec.AckNak(d, nak, num, now);
      if j <= |d.tx.retry| then d1.tx.retry == d.tx.retry[j..] && d1.tx.ackd == num && d1.errors == d.errors
      else d1 == d.(errors := d.errors + [BadAckSeq(num)])
  {
    var base := |sent| - |d.tx.retry| - 1;
    var num := (base + j) % SEQ_MOD;
    UnackedIsRetry(d.tx, sent);
    AckDistance(base, j);
    if j <= |d.tx.retry| { TakeAckRun(d.tx, sent, num, j, now); }
  }

  lemma AckDistance(base: int, j: int)
    requires 0 <= j < SEQ_MOD
    ensures ((base + j) % SEQ_MOD - base % SEQ_MOD) % SEQ_MOD == j
  {
    ModDiff(base + j, base, 0);
  }

  lemma StartReplayRun(tx: Tx, sent: seq<Tlp>, now: int)
    requires TxRun(tx, sent)
    ensures TxRun(Spec.StartReplay(tx, now), sent)
  {
  }

  // -------------------------------------------- the transmit side, every step

  /** The sequence number an Ack or Nak carries is 12 bits wide. */
  predicate Carried(m: Dllp) { (m.Ack? || m.Nak?) ==> 0 <= m.num < SEQ_MOD }

  lemma AckNakTx(e: End, nak: bool, num: int, now: int)
    requires TxOk(e) && 0 <= num < SEQ_MOD
    ensures TxOk(e.(d := Spec.AckNak(e.d, nak, num, now)))
  {
    UnackedIsRetry(e.d.tx, e.sent);
    var dist := (num - e.d.tx.ackd) % SEQ_MOD;
    if dist <= |e.d.tx.retry| {
      TakeAckRun(e.d.tx, e.sent, num, dist, now);
      StartReplayRun(Spec.TakeAck(e.d.tx, num, dist, now), e.sent, now);
    }
  }

  lemma DllpTx(k: Knobs, e: End, m: Dllp, n: nat, now: int)
    requires TxOk(e) && Carried(m)
    ensures TxOk(EndDllp(k, e, m, n, now))
  {
    if e.d.st == ACTIVE && (m.Ack? || m.Nak?) {
      AckNakTx(e, m.Nak?, m.num, now);
    }
  }

  lemma TlpKeepsTx(k: Knobs, d: DllState, m: Packet, endT: nat, now: int)
    requires m.Data?
    ensures Spec.OnTlp(k, d, m, endT, now).0.tx == d.tx
    ensures d.st == ACTIVE ==> Spec.OnTlp(k, d, m, endT, now).0.st == ACTIVE
  {
  }

  lemma TlpTx(k: Knobs, e: End, m: Packet, endT: nat, now: int)
    requires TxOk(e) && m.Data?
    ensures TxOk(EndTlp(k, e, m, endT, now))
  {
    TlpKeepsTx(k, e.d, m, endT, now);
  }

  lemma TickTx(k: Knobs, e: End, cycle: int)
    requires TxOk(e)
    ensures TxOk(EndTick(k, e, cycle))
  {
    StartReplayRun(e.d.tx, e.sent, cycle);
  }

  /** The transmit side after next_packet, by what was sent. */
  lemma SendTx(k: Knobs, e: End, cycle: int)
    requires TxOk(e)
    ensures TxOk(EndSend(k, e, cycle).0)
  {
    var d := Spec.NextPacket(k, e.d, cycle).0;
    if d.tx != e.d.tx {
      if e.d.tx.replayQ != [] {
        assert d == Spec.SendReplay(e.d, cycle).0;
        TailRest(e.d.tx.replayQ, 1, e.sent);
      } else if |d.tx.tlpQ| < |e.d.tx.tlpQ| {
        assert d == Spec.SendNew(e.d, cycle).0 && Spec.NewReady(e.d);
        SendNewTx(e, cycle);
      }
    }
  }

  lemma SendNewTx(e: End, cycle: int)
    requires TxOk(e) && e.d.st == ACTIVE && Spec.NewReady(e.d) && e.d.tx.replayQ == []
    ensures TxRun(Spec.SendNew(e.d, cycle).0.tx, e.sent + e.d.tx.tlpQ[..1])
    ensures e.offered == e.sent + e.d.tx.tlpQ[..1] + Spec.SendNew(e.d, cycle).0.tx.tlpQ
  {
    var t := e.d.tx.tlpQ[0];
    UnackedIsRetry(e.d.tx, e.sent);
    TailMore(e.d.tx.retry, e.sent, t);
    ModDiff(|e.sent|, 0, 1);
    assert e.d.tx.tlpQ[..1] == [t];
  }

  // --------------------------------------------------- the receive side

  predicate RxRun(rx: Rx, got: nat) {
    && rx.nrs == got % SEQ_MOD
    && (rx.ackDue.Some? ==> rx.ackSeq == Some((got - 1) % SEQ_MOD))
  }

  /** Every queued Nak names the TLP before the `qn`-th, and no other DLLP than
      Nak and InitFC waits in the queue. */
  predicate QueueRun(q: seq<Dllp>, qn: seq<nat>, got: nat) {
    |q| == |qn| &&
    forall i | 0 <= i < |q| ::
      (q[i].Nak? || q[i].InitFC?) &&
      (q[i].Nak? ==> qn[i] <= got && q[i].num == (qn[i] - 1) % SEQ_MOD)
  }

  predicate Busy(e: End) {
    e.got != [] || e.d.rx.ackDue.Some? || exists i | 0 <= i < |e.d.q| :: e.d.q[i].Nak?
  }

  predicate RxOk(e: End) {
    && RxRun(e.d.rx, |e.got|)
    && QueueRun(e.d.q, e.qn, |e.got|)
    && (Busy(e) ==> e.d.st == ACTIVE)
  }

  lemma DllpRx(k: Knobs, e: End, m: Dllp, n: nat, now: int)
    requires RxOk(e)
    ensures RxOk(EndDllp(k, e, m, n, now))
    ensures EndDllp(k, e, m, n, now).got == e.got && EndDllp(k, e, m, n, now).sent == e.sent
  {
    DllpKeeps(k, e.d, m, now);
  }

  /** A DLLP changes neither the receive side nor the queue, and an ACTIVE end stays so. */
  lemma DllpKeeps(k: Knobs, d: DllState, m: Dllp, now: int)
    ensures var d1 := Spec.OnDllp(k, d, m, now);
      d1.rx == d.rx && d1.q == d.q && (d.st == ACTIVE ==> d1.st == ACTIVE) &&
      d1.flow.alloc == d.flow.alloc && d1.flow.rcvd == d.flow.rcvd && d1.flow.consumed == d.flow.consumed
  {
  }

  /** The receive side after an accepted TLP. */
  function Accepted(k: Knobs, rx: Rx, endT: nat): Rx {
    Spec.ScheduleAck(k, rx.(nrs := (rx.nrs + 1) % SEQ_MOD, nakScheduled := false), endT)
  }

  /** What a received TLP does, in terms of the twin lists. */
  lemma TlpCases(k: Knobs, e: End, m: Packet, endT: nat, now: int)
    requires m.Data?
    ensures var e1 := EndTlp(k, e, m, endT, now);
      var accepted := e1.d.st == ACTIVE && !m.edb && m.lcrc == Good && m.num == e.d.rx.nrs;
      && e1.got == (if accepted then e.got + [m.tlp] else e.got)
      && e1.sent == e.sent && e1.offered == e.offered
      && (accepted ==> e1.d.rx == Accepted(k, e.d.rx, endT))
      && (!accepted ==> e1.d.rx == e.d.rx || e1.d.rx == e.d.rx.(nakScheduled := true)
                        || (e1.d.st == ACTIVE && e1.d.rx == Spec.ScheduleAck(k, e.d.rx, endT)))
      && ((e1.d.q == e.d.q && e1.qn == e.qn) ||
          (!accepted && e1.d.st == ACTIVE && e1.d.q == [Nak((e.d.rx.nrs - 1) % SEQ_MOD)] + e.d.q &&
           e1.qn == [|e.got|] + e.qn))
  {
    OnTlpCases(k, e.d, m, endT, now);
    var (d, t) := Spec.OnTlp(k, e.d, m, endT, now);
    if t.Some? { ReleaseKeeps(k, d, t.value); }
  }

  lemma OnTlpCases(k: Knobs, d: DllState, m: Packet, endT: nat, now: int)
    requires m.Data?
    ensures var (d1, t) := Spec.OnTlp(k, d, m, endT, now);
      && (t.Some? <==> d1.st == ACTIVE && !m.edb && m.lcrc == Good && m.num == d.rx.nrs)
      && (t.Some? ==> t == Some(m.tlp) && d1.rx == Accepted(k, d.rx, endT))
      && (t.None? ==> d1.rx == d.rx || d1.rx == d.rx.(nakScheduled := true)
                      || (d1.st == ACTIVE && d1.rx == Spec.ScheduleAck(k, d.rx, endT)))
      && (d1.q == d.q || (t.None? && d1.st == ACTIVE && d1.q == [Nak((d.rx.nrs - 1) % SEQ_MOD)] + d.q))
  {
  }

  lemma ReleaseKeeps(k: Knobs, d: DllState, t: Tlp)
    ensures Spec.Release(k, d, t).rx == d.rx && Spec.Release(k, d, t).q == d.q && Spec.Release(k, d, t).st == d.st
  {
  }

  lemma TlpRxRun(k: Knobs, e: End, m: Packet, endT: nat, now: int)
    requires RxOk(e) && m.Data?
    ensures RxRun(EndTlp(k, e, m, endT, now).d.rx, |EndTlp(k, e, m, endT, now).got|)
  {
    TlpCases(k, e, m, endT, now);
    ModDiff(|e.got|, 0, 1);
    ModDiff(|e.got|, 0, -1);
  }

  lemma TlpQueueRun(k: Knobs, e: End, m: Packet, endT: nat, now: int)
    requires RxOk(e) && m.Data?
    ensures var e1 := EndTlp(k, e, m, endT, now); QueueRun(e1.d.q, e1.qn, |e1.got|)
  {
    TlpCases(k, e, m, endT, now);
    ModDiff(|e.got|, 0, -1);
    QueueMore(e.d.q, e.qn, |e.got|, (e.d.rx.nrs - 1) % SEQ_MOD);
  }

  lemma TlpRx(k: Knobs, e: End, m: Packet, endT: nat, now: int)
    requires RxOk(e) && m.Data?
    ensures RxOk(EndTlp(k, e, m, endT, now))
  {
    TlpRxRun(k, e, m, endT, now);
    TlpQueueRun(k, e, m, endT, now);
    TlpCases(k, e, m, endT, now);
    TlpKeepsTx(k, e.d, m, endT, now);
  }

  /** The queue, with or without a new Nak in front, after one more TLP or none. */
  lemma QueueMore(q: seq<Dllp>, qn: seq<nat>, got: nat, num: int)
    requires QueueRun(q, qn, got)
    ensures QueueRun(q, qn, got + 1)
    ensures num == (got - 1) % SEQ_MOD ==> QueueRun([Nak(num)] + q, [got] + qn, got)
  {
  }

  lemma TickRx(k: Knobs, e: End, cycle: int)
    requires RxOk(e)
    ensures RxOk(EndTick(k, e, cycle))
  {
    var e1 := EndTick(k, e, cycle);
    var phase := if e.d.st == FC_INIT1 then 1 else 2;
    assert e1.d.q == e.d.q || e1.d.q == e.d.q + Spec.InitSet(k, phase);
    assert QueueRun(e1.d.q, e1.qn, |e1.got|);
  }

  lemma SendRx(k: Knobs, e: End, cycle: int)
    requires RxOk(e)
    ensures RxOk(EndSend(k, e, cycle).0)
    ensures EndSend(k, e, cycle).0.got == e.got
  {
    var e1 := EndSend(k, e, cycle).0;
    assert e1.d.q == e.d.q || (e.d.q != [] && e1.d.q == e.d.q[1..]);
    assert e1.qn == if e1.d.q == e.d.q then e.qn else e.qn[1..];
    assert QueueRun(e1.d.q, e1.qn, |e1.got|);
  }
}
