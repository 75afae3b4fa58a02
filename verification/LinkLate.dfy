/** That a number can be misread, and what comes of it: schedules from reset, with
    losses and damage only, on which Naks that wait too long make TLPs vanish or one
    end accept a TLP in place of an earlier one. */
module LinkLate {
  import opened Common
  import opened DllTypes
  import Spec = DllSpec
  import opened Link
  import opened LinkLocal
  import opened LinkMoves
  import opened LinkInit
  import opened LinkStuck
  import LinkSafety

  // ------------------------------------------------------- the sending end

  /** A posted TLP without data: it needs a header credit only. */
  predicate Small(t: Tlp) { t.fc == P && t.data == 0 }

  /** ACTIVE, free to send posted TLPs, and with nothing else to say. */
  predicate Sender(e: End) {
    && TxOk(e) && e.d.st == ACTIVE && e.d.q == [] && e.qn == [] && e.d.rx.ackDue.None?
    && e.d.flow.updNow == {} && e.d.flow.updDue == map[] && e.d.tx.tlpQ == [] && e.d.tx.nullifyLeft == 0
    && P in e.d.flow.limit && e.d.flow.limit[P] == ZERO && P in e.d.flow.recorded && e.d.flow.recorded[P] == ZERO
  }

  predicate TimerBy(tx: Tx, now: int) {
    (tx.retry != [] ==> tx.replayTimer.Some?) && (tx.replayTimer.Some? ==> tx.replayTimer.value <= now)
  }

  lemma SendsNew(k: Knobs, e: End, t: Tlp, now: int)
    requires Sender(e) && e.d.tx.replayQ == [] && |e.d.tx.retry| < 2047 && Small(t) && TimerBy(e.d.tx, now)
    ensures var (e1, out) := EndSend(k, EndOffer(e, t), now);
      Sender(e1) && e1.sent == e.sent + [t] && |e1.d.tx.retry| == |e.d.tx.retry| + 1 && e1.d.tx.replayQ == [] &&
      TimerBy(e1.d.tx, now) && out == [Wire(Data(|e.sent| % SEQ_MOD, t, false, Good), |e.sent|)]
  {
    var e0 := EndOffer(e, t);
    UnackedIsRetry(e.d.tx, e.sent);
    assert e0.offered == e0.sent + e0.d.tx.tlpQ;
    SendTx(k, e0, now);
    assert Spec.NextPacket(k, e0.d, now) == Spec.SendNew(e0.d, now);
    assert e0.d.tx.tlpQ == [t] && [t][..1] == [t] && [t][1..] == [];
  }

  lemma SendsReplay(k: Knobs, e: End, now: int)
    requires Sender(e) && e.d.tx.replayQ != [] && TimerBy(e.d.tx, now)
    ensures var (e1, out) := EndSend(k, e, now); var i := |e.sent| - |e.d.tx.replayQ|;
      Sender(e1) && e1.sent == e.sent && e1.d.tx.retry == e.d.tx.retry && |e1.d.tx.replayQ| == |e.d.tx.replayQ| - 1 &&
      TimerBy(e1.d.tx, now) && 0 <= i < |e.sent| && out == [Wire(Data(i % SEQ_MOD, e.sent[i], false, Good), i)]
  {
    SendTx(k, e, now);
    assert Spec.NextPacket(k, e.d, now) == Spec.SendReplay(e.d, now);
    assert e.d.tx.replayQ[0] == Entry((|e.sent| - |e.d.tx.replayQ|) % SEQ_MOD, e.sent[|e.sent| - |e.d.tx.replayQ|]);
  }

  /** What a Nak has done: `dist` TLPs purged, the rest in replay. */
  predicate Took(e: End, e1: End, dist: nat, now: int) {
    Sender(e1) && e1.sent == e.sent && |e1.d.tx.retry| == |e.d.tx.retry| - dist && TimerBy(e1.d.tx, now) &&
    e1.d.tx.replayQ == if e1.d.tx.retry == [] then e.d.tx.replayQ else e1.d.tx.retry
  }

  /** A Nak in the window: what it purges, and the replay of the rest. */
  lemma TakesNak(k: Knobs, e: End, n: nat, dist: nat, now: int)
    requires Sender(e) && dist == (n - (|e.sent| - |e.d.tx.retry|)) % SEQ_MOD <= |e.d.tx.retry|
    ensures Took(e, EndReceive(k, e, Wire(Control(Nak((n - 1) % SEQ_MOD)), n), 0, now), dist, now)
  {
    var num := (n - 1) % SEQ_MOD;
    NakDistance(e.d.tx, e.sent, n);
    UnackedIsRetry(e.d.tx, e.sent);
    NakEffect(k, e, num, n, dist, now);
    NakResult(e.d.tx, e.sent, num, dist, now);
  }

  lemma NakResult(tx: Tx, sent: seq<Tlp>, num: int, dist: nat, now: int)
    requires TxRun(tx, sent) && 0 <= num < SEQ_MOD && dist == (num - tx.ackd) % SEQ_MOD <= |tx.retry|
    ensures var tx1 := Spec.StartReplay(Spec.TakeAck(tx, num, dist, now), now);
      TxRun(tx1, sent) && |tx1.retry| == |tx.retry| - dist && TimerBy(tx1, now) && tx1.tlpQ == tx.tlpQ &&
      tx1.nullifyLeft == tx.nullifyLeft && tx1.replayQ == if tx1.retry == [] then tx.replayQ else tx1.retry
  {
    TakeAckRun(tx, sent, num, dist, now);
    StartReplayRun(Spec.TakeAck(tx, num, dist, now), sent, now);
  }

  lemma NakDistance(tx: Tx, sent: seq<Tlp>, n: nat)
    requires TxRun(tx, sent)
    ensures ((n - 1) % SEQ_MOD - tx.ackd) % SEQ_MOD == (n - (|sent| - |tx.retry|)) % SEQ_MOD
  {
    ModDiff(n - 1, |sent| - |tx.retry| - 1, 0);
  }

  lemma NakEffect(k: Knobs, e: End, num: int, n: nat, dist: nat, now: int)
    requires Sender(e) && dist == (num - e.d.tx.ackd) % SEQ_MOD <= Spec.Unacked(e.d.tx)
    ensures var e1 := EndReceive(k, e, Wire(Control(Nak(num)), n), 0, now);
      e1 == e.(d := e.d.(tx := Spec.StartReplay(Spec.TakeAck(e.d.tx, num, dist, now), now)))
  {
  }

  /** The REPLAY_TIMER runs out. */
  lemma Expires(k: Knobs, e: End, now: int, later: int)
    requires Sender(e) && e.d.tx.retry != [] && TimerBy(e.d.tx, now)
    requires later >= now && later >= now + k.replayTimerCycles
    ensures var e1 := EndTick(k, e, later);
      Sender(e1) && e1.sent == e.sent && e1.d.tx.retry == e.d.tx.retry && e1.d.tx.replayQ == e.d.tx.retry &&
      TimerBy(e1.d.tx, later)
  {
    TickTx(k, e, later);
    assert Spec.DueUpdates(e.d.flow, later) == {};
  }

  // ----------------------------------------------------- the receiving end

  /** ACTIVE, with nothing but Naks queued, those of the TLP numbers in `qn`. */
  predicate Receiver(k: Knobs, e: End) {
    && e.d.st == ACTIVE && e.d.rx.nrs == |e.got| % SEQ_MOD && Infinite(k.adv.p) && |e.qn| == |e.d.q|
    && forall i | 0 <= i < |e.d.q| :: e.d.q[i] == Nak((e.qn[i] - 1) % SEQ_MOD)
  }

  lemma Accepts(k: Knobs, e: End, num: int, t: Tlp, n: nat, now: int)
    requires Receiver(k, e) && Small(t) && num == e.d.rx.nrs
    ensures var e1 := EndReceive(k, e, Wire(Data(num, t, false, Good), n), 0, now);
      Receiver(k, e1) && e1.got == e.got + [t] && e1.qn == e.qn && !e1.d.rx.nakScheduled
  {
    ModDiff(|e.got|, 0, 1);
  }

  lemma Refuses(k: Knobs, e: End, num: int, t: Tlp, n: nat, now: int)
    requires Receiver(k, e) && !e.d.rx.nakScheduled
    ensures var e1 := EndReceive(k, e, Wire(Data(num, t, false, Bad), n), 0, now);
      Receiver(k, e1) && e1.got == e.got && e1.qn == [|e.got|] + e.qn && e1.d.rx.nakScheduled
  {
    ModDiff(|e.got|, 0, -1);
  }

  lemma Ignores(k: Knobs, e: End, i: nat, t: Tlp, n: nat, now: int)
    requires Receiver(k, e) && i < |e.got| <= i + 2048
    ensures var e1 := EndReceive(k, e, Wire(Data(i % SEQ_MOD, t, false, Good), n), 0, now);
      Receiver(k, e1) && e1.got == e.got && e1.qn == e.qn && e1.d.rx.nakScheduled == e.d.rx.nakScheduled
  {
    ModDiff(|e.got|, i, 0);
  }

  lemma SendsNak(k: Knobs, e: End, now: int)
    requires Receiver(k, e) && e.qn != []
    ensures var (e1, out) := EndSend(k, e, now);
      Receiver(k, e1) && e1.got == e.got && e1.qn == e.qn[1..] && e1.d.rx.nakScheduled == e.d.rx.nakScheduled &&
      out == [Wire(Control(Nak((e.qn[0] - 1) % SEQ_MOD)), e.qn[0])]
  {
    assert Spec.NextPacket(k, e.d, now) == Spec.PopQueue(e.d);
  }

  // --------------------------------------------------- strokes of both ends

  /** What matters of a moment with nothing under way: TLPs sent and accepted,
      lengths of the retry buffer and of the replay queue, the numbers of the
      queued Naks, and NAK_SCHEDULED. */
  datatype View = View(sent: nat, got: nat, retry: nat, replay: nat, kept: seq<nat>, flag: bool)

  predicate Shows(kb: Knobs, n: Net, v: View, t: Tlp, now: int) {
    && n.ab == [] && n.ba == [] && Sender(n.a) && Receiver(kb, n.b) && TimerBy(n.a.d.tx, now)
    && |n.a.sent| == v.sent && |n.b.got| == v.got && |n.a.d.tx.retry| == v.retry && |n.a.d.tx.replayQ| == v.replay
    && n.b.qn == v.kept && n.b.d.rx.nakScheduled == v.flag && forall x | x in n.a.sent :: x == t
  }

  lemma SendLeft(ka: Knobs, kb: Knobs, n: Net, now: int)
    requires n.ab == []
    ensures var (e, out) := EndSend(ka, n.a, now); Run(ka, kb, n, [Left(Transmit(now))]) == n.(a := e, ab := out)
  {
    RunOne(ka, kb, n, Left(Transmit(now)));
    assert [] + EndSend(ka, n.a, now).1 == EndSend(ka, n.a, now).1;
  }

  lemma OfferLeft(ka: Knobs, kb: Knobs, n: Net, t: Tlp, now: int)
    requires n.ab == []
    ensures var (e, out) := EndSend(ka, EndOffer(n.a, t), now); Run(ka, kb, n, NewTlp(t, now)) == n.(a := e, ab := out)
  {
    RunTwo(ka, kb, n, Left(Offer(t)), Left(Transmit(now)));
    assert [] + EndSend(ka, EndOffer(n.a, t), now).1 == EndSend(ka, EndOffer(n.a, t), now).1;
  }

  function Spoil(now: int): seq<Move> { [Left(Damage(0)), Right(Receive(0, now))] }

  lemma SpoilRight(ka: Knobs, kb: Knobs, n: Net, w: Wire, now: int)
    requires n.ab == [w]
    ensures Run(ka, kb, n, Spoil(now)) == n.(b := EndReceive(kb, n.b, Damaged(w), 0, now), ab := [])
  {
    RunTwo(ka, kb, n, Left(Damage(0)), Right(Receive(0, now)));
    assert n.ab[0 := Damaged(w)] == [Damaged(w)] && [Damaged(w)][1..] == [];
  }

  lemma TakeRight(ka: Knobs, kb: Knobs, n: Net, w: Wire, now: int)
    requires n.ab == [w]
    ensures Run(ka, kb, n, [Right(Receive(0, now))]) == n.(b := EndReceive(kb, n.b, w, 0, now), ab := [])
  {
    RunOne(ka, kb, n, Right(Receive(0, now)));
    assert [w][1..] == [];
  }

  function NewTlp(t: Tlp, now: int): seq<Move> { [Left(Offer(t)), Left(Transmit(now))] }

  lemma FiresNew(ka: Knobs, kb: Knobs, n: Net, v: View, t: Tlp, u: Tlp, now: int)
    requires Shows(kb, n, v, t, now) && v.replay == 0 && v.retry < 2047 && Small(u)
    ensures var n1 := Run(ka, kb, n, NewTlp(u, now));
      n1 == n.(a := n1.a, ab := [Wire(Data(v.sent % SEQ_MOD, u, false, Good), v.sent)]) &&
      Sender(n1.a) && n1.a.sent == n.a.sent + [u] && |n1.a.d.tx.retry| == v.retry + 1 && n1.a.d.tx.replayQ == [] &&
      TimerBy(n1.a.d.tx, now)
  {
    OfferLeft(ka, kb, n, u, now);
    SendsNew(ka, n.a, u, now);
  }

  lemma FiresReplay(ka: Knobs, kb: Knobs, n: Net, v: View, t: Tlp, now: int)
    requires Shows(kb, n, v, t, now) && v.replay > 0
    ensures var n1 := Run(ka, kb, n, [Left(Transmit(now))]); var i := v.sent - v.replay;
      0 <= i < v.sent && n1 == n.(a := n1.a, ab := [Wire(Data(i % SEQ_MOD, t, false, Good), i)]) &&
      Shows(kb, n1.(ab := []), v.(replay := v.replay - 1), t, now)
  {
    SendLeft(ka, kb, n, now);
    SendsReplay(ka, n.a, now);
    assert n.a.sent[v.sent - v.replay] in n.a.sent;
  }

  /** A new TLP is lost. */
  lemma LosesNew(ka: Knobs, kb: Knobs, n: Net, v: View, t: Tlp, now: int) returns (moves: seq<Move>)
    requires Shows(kb, n, v, t, now) && v.replay == 0 && v.retry < 2047 && Small(t)
    ensures Shows(kb, Run(ka, kb, n, moves), v.(sent := v.sent + 1, retry := v.retry + 1), t, now)
  {
    moves := NewTlp(t, now) + [Left(Lose(0))];
    FiresNew(ka, kb, n, v, t, t, now);
    RunConcat(ka, kb, n, NewTlp(t, now), [Left(Lose(0))]);
    RunOne(ka, kb, Run(ka, kb, n, NewTlp(t, now)), Left(Lose(0)));
  }

  /** A new TLP is damaged: the receiver queues a Nak in front of the others. */
  lemma SpoilsNew(ka: Knobs, kb: Knobs, n: Net, v: View, t: Tlp, now: int) returns (moves: seq<Move>)
    requires Shows(kb, n, v, t, now) && v.replay == 0 && v.retry < 2047 && !v.flag && Small(t)
    ensures Shows(kb, Run(ka, kb, n, moves),
                  v.(sent := v.sent + 1, retry := v.retry + 1, kept := [v.got] + v.kept, flag := true), t, now)
  {
    moves := NewTlp(t, now) + Spoil(now);
    FiresNew(ka, kb, n, v, t, t, now);
    RunConcat(ka, kb, n, NewTlp(t, now), Spoil(now));
    SpoilRight(ka, kb, Run(ka, kb, n, NewTlp(t, now)), Wire(Data(v.sent % SEQ_MOD, t, false, Good), v.sent), now);
    Refuses(kb, n.b, v.sent % SEQ_MOD, t, v.sent, now);
  }

  /** The oldest TLP of the replay queue is lost, accepted, or a duplicate. */
  lemma LosesReplay(ka: Knobs, kb: Knobs, n: Net, v: View, t: Tlp, now: int) returns (moves: seq<Move>)
    requires Shows(kb, n, v, t, now) && v.replay > 0
    ensures Shows(kb, Run(ka, kb, n, moves), v.(replay := v.replay - 1), t, now)
  {
    moves := [Left(Transmit(now))] + [Left(Lose(0))];
    FiresReplay(ka, kb, n, v, t, now);
    RunConcat(ka, kb, n, [Left(Transmit(now))], [Left(Lose(0))]);
    RunOne(ka, kb, Run(ka, kb, n, [Left(Transmit(now))]), Left(Lose(0)));
  }

  lemma DeliversReplay(ka: Knobs, kb: Knobs, n: Net, v: View, t: Tlp, now: int) returns (moves: seq<Move>)
    requires Shows(kb, n, v, t, now) && v.replay > 0 && v.sent - v.replay == v.got && Small(t)
    ensures Shows(kb, Run(ka, kb, n, moves), v.(got := v.got + 1, replay := v.replay - 1, flag := false), t, now)
  {
    var last := [Right(Receive(0, now))];
    moves := [Left(Transmit(now))] + last;
    FiresReplay(ka, kb, n, v, t, now);
    RunConcat(ka, kb, n, [Left(Transmit(now))], last);
    TakeRight(ka, kb, Run(ka, kb, n, [Left(Transmit(now))]), Wire(Data(v.got % SEQ_MOD, t, false, Good), v.got), now);
    Accepts(kb, n.b, v.got % SEQ_MOD, t, v.got, now);
  }

  lemma RepeatsReplay(ka: Knobs, kb: Knobs, n: Net, v: View, t: Tlp, now: int) returns (moves: seq<Move>)
    requires Shows(kb, n, v, t, now) && 0 < v.replay <= v.sent < v.got + v.replay <= v.sent + 2048
    ensures Shows(kb, Run(ka, kb, n, moves), v.(replay := v.replay - 1), t, now)
  {
    var last := [Right(Receive(0, now))];
    moves := [Left(Transmit(now))] + last;
    FiresReplay(ka, kb, n, v, t, now);
    RunConcat(ka, kb, n, [Left(Transmit(now))], last);
    var i := v.sent - v.replay;
    TakeRight(ka, kb, Run(ka, kb, n, [Left(Transmit(now))]), Wire(Data(i % SEQ_MOD, t, false, Good), i), now);
    Ignores(kb, n.b, i, t, i, now);
  }

  /** The Nak numbered `m` names the TLP `gap` past the last acknowledged one, when
      its 12 bits are read `turns` wraps later than they were meant. */
  predicate Names(v: View, m: nat, gap: nat, turns: nat) {
    m + SEQ_MOD * turns == v.sent - v.retry + gap && gap <= v.retry < SEQ_MOD
  }

  lemma NamesDistance(m: nat, acked: int, gap: nat, turns: nat)
    requires m + SEQ_MOD * turns == acked + gap && gap < SEQ_MOD
    ensures (m - acked) % SEQ_MOD == gap
  {
  }

  /** The frontmost Nak leaves and arrives, with its number in the window. */
  lemma NakArrives(ka: Knobs, kb: Knobs, n: Net, v: View, t: Tlp, now: int, gap: nat, turns: nat)
    returns (moves: seq<Move>)
    requires Shows(kb, n, v, t, now) && v.kept != [] && Names(v, v.kept[0], gap, turns)
    ensures var left := v.retry - gap;
      Shows(kb, Run(ka, kb, n, moves),
            v.(retry := left, replay := if left == 0 then v.replay else left, kept := v.kept[1..]), t, now)
  {
    var n1;
    moves, n1 := NakPasses(ka, kb, n, v.kept[0], gap, turns, now);
  }

  function NakWire(m: nat): Wire { Wire(Control(Nak((m - 1) % SEQ_MOD)), m) }

  lemma NakLeaves(ka: Knobs, kb: Knobs, n: Net, now: int) returns (n1: Net)
    requires n.ba == [] && Receiver(kb, n.b) && n.b.qn != []
    ensures n1 == Run(ka, kb, n, [Right(Transmit(now))]) && n1 == n.(b := n1.b, ba := [NakWire(n.b.qn[0])])
    ensures Receiver(kb, n1.b) && n1.b.got == n.b.got && n1.b.qn == n.b.qn[1..]
    ensures n1.b.d.rx.nakScheduled == n.b.d.rx.nakScheduled
  {
    n1 := Run(ka, kb, n, [Right(Transmit(now))]);
    RunOne(ka, kb, n, Right(Transmit(now)));
    SendRight(ka, kb, n, now);
    SendsNak(kb, n.b, now);
  }

  lemma NakTaken(ka: Knobs, kb: Knobs, n: Net, m: nat, gap: nat, turns: nat, now: int) returns (n1: Net)
    requires n.ba == [NakWire(m)] && Sender(n.a)
    requires m + SEQ_MOD * turns == |n.a.sent| - |n.a.d.tx.retry| + gap && gap <= |n.a.d.tx.retry| < SEQ_MOD
    ensures n1 == Run(ka, kb, n, [Left(Receive(0, now))]) && n1 == n.(a := n1.a, ba := []) && Took(n.a, n1.a, gap, now)
  {
    n1 := Run(ka, kb, n, [Left(Receive(0, now))]);
    RunOne(ka, kb, n, Left(Receive(0, now)));
    TakeLeft(ka, kb, n, 0, now);
    NamesDistance(m, |n.a.sent| - |n.a.d.tx.retry|, gap, turns);
    TakesNak(ka, n.a, m, gap, now);
  }

  /** A Nak from end to end, seen from both. */
  lemma NakPasses(ka: Knobs, kb: Knobs, n: Net, m: nat, gap: nat, turns: nat, now: int)
    returns (moves: seq<Move>, n1: Net)
    requires n.ab == [] && n.ba == [] && Sender(n.a) && Receiver(kb, n.b) && n.b.qn != [] && n.b.qn[0] == m
    requires m + SEQ_MOD * turns == |n.a.sent| - |n.a.d.tx.retry| + gap && gap <= |n.a.d.tx.retry| < SEQ_MOD
    ensures n1 == Run(ka, kb, n, moves) && n1.ab == [] && n1.ba == [] && Took(n.a, n1.a, gap, now)
    ensures Receiver(kb, n1.b) && n1.b.got == n.b.got && n1.b.qn == n.b.qn[1..]
    ensures n1.b.d.rx.nakScheduled == n.b.d.rx.nakScheduled
  {
    var n0 := NakLeaves(ka, kb, n, now);
    n1 := NakTaken(ka, kb, n0, m, gap, turns, now);
    RunConcat(ka, kb, n, [Right(Transmit(now))], [Left(Receive(0, now))]);
    moves := [Right(Transmit(now))] + [Left(Receive(0, now))];
  }

  /** The REPLAY_TIMER runs out. */
  lemma TimerFires(ka: Knobs, kb: Knobs, n: Net, v: View, t: Tlp, now: int) returns (moves: seq<Move>, later: int)
    requires Shows(kb, n, v, t, now) && v.retry > 0
    ensures later >= now && Shows(kb, Run(ka, kb, n, moves), v.(replay := v.retry), t, later)
  {
    later := now + if ka.replayTimerCycles > 0 then ka.replayTimerCycles else 0;
    moves := [Left(Clock(later))];
    RunOne(ka, kb, n, moves[0]);
    Expires(ka, n.a, now, later);
  }

  // ------------------------------------------------------------- long rallies

  /** One TLP behind, with the next one about to be replayed. */
  predicate Behind(v: View) { v.replay == 1 && v.sent == v.got + 1 && v.flag && 1 <= v.retry <= 2 }

  /** The replay arrives, the next TLP is damaged, and the Nak for that leaves at
      once: one TLP further, and the Naks kept before are still kept. */
  lemma Rally(ka: Knobs, kb: Knobs, n: Net, v: View, t: Tlp, now: int) returns (moves: seq<Move>)
    requires Shows(kb, n, v, t, now) && Behind(v) && Small(t)
    ensures Shows(kb, Run(ka, kb, n, moves), v.(sent := v.sent + 1, got := v.got + 1, retry := 1), t, now)
  {
    var x := DeliversReplay(ka, kb, n, v, t, now);
    var n1 := Run(ka, kb, n, x);
    var v1 := v.(got := v.got + 1, replay := 0, flag := false);
    var y := SpoilsNew(ka, kb, n1, v1, t, now);
    var n2 := Run(ka, kb, n1, y);
    var v2 := v1.(sent := v.sent + 1, retry := v.retry + 1, kept := [v.got + 1] + v.kept, flag := true);
    var z := NakArrives(ka, kb, n2, v2, t, now, v.retry, 0);
    assert v2.kept[1..] == v.kept;
    RunConcat(ka, kb, n1, y, z);
    RunConcat(ka, kb, n, x, y + z);
    moves := x + (y + z);
  }

  lemma {:induction false} Rallies(ka: Knobs, kb: Knobs, n: Net, v: View, t: Tlp, now: int, count: nat)
    returns (moves: seq<Move>)
    requires Shows(kb, n, v, t, now) && Behind(v) && Small(t) && count > 0
    ensures Shows(kb, Run(ka, kb, n, moves), v.(sent := v.sent + count, got := v.got + count, retry := 1), t, now)
    decreases count
  {
    moves := Rally(ka, kb, n, v, t, now);
    if count > 1 {
      var v1 := v.(sent := v.sent + 1, got := v.got + 1, retry := 1);
      var rest := Rallies(ka, kb, Run(ka, kb, n, moves), v1, t, now, count - 1);
      RunConcat(ka, kb, n, moves, rest);
      moves := moves + rest;
    }
  }

  /** The same with the new Nak kept: the REPLAY_TIMER brings the replay instead. */
  lemma KeepsNak(ka: Knobs, kb: Knobs, n: Net, v: View, t: Tlp, now: int) returns (moves: seq<Move>, later: int)
    requires Shows(kb, n, v, t, now) && Behind(v) && v.retry == 1 && Small(t)
    ensures later >= now
    ensures Shows(kb, Run(ka, kb, n, moves),
                  v.(sent := v.sent + 1, got := v.got + 1, retry := 2, kept := [v.got + 1] + v.kept), t, later)
  {
    var w := DeliversReplay(ka, kb, n, v, t, now);
    var n1 := Run(ka, kb, n, w);
    var v1 := v.(got := v.got + 1, replay := 0, flag := false);
    var x := SpoilsNew(ka, kb, n1, v1, t, now);
    var n2 := Run(ka, kb, n1, x);
    var v2 := v1.(sent := v.sent + 1, retry := 2, kept := [v.got + 1] + v.kept, flag := true);
    var y;
    y, later := TimerFires(ka, kb, n2, v2, t, now);
    var z := RepeatsReplay(ka, kb, Run(ka, kb, n2, y), v2.(replay := 2), t, later);
    RunConcat(ka, kb, n2, y, z);
    RunConcat(ka, kb, n1, x, y + z);
    RunConcat(ka, kb, n, w, x + (y + z));
    moves := w + (x + (y + z));
  }

  lemma {:induction false} Losses(ka: Knobs, kb: Knobs, n: Net, v: View, t: Tlp, now: int, count: nat)
    returns (moves: seq<Move>)
    requires Shows(kb, n, v, t, now) && v.replay == 0 && v.retry + count <= 2047 && Small(t)
    ensures Shows(kb, Run(ka, kb, n, moves), v.(sent := v.sent + count, retry := v.retry + count), t, now)
    decreases count
  {
    moves := [];
    if count > 0 {
      var x := LosesNew(ka, kb, n, v, t, now);
      var v1 := v.(sent := v.sent + 1, retry := v.retry + 1);
      var rest := Losses(ka, kb, Run(ka, kb, n, x), v1, t, now, count - 1);
      RunConcat(ka, kb, n, x, rest);
      moves := x + rest;
    }
  }

  /** The window is filled with TLPs that get lost; then a Nak that lags by 2049
      arrives, and purges them all. */
  lemma Strike(ka: Knobs, kb: Knobs, n: Net, v: View, t: Tlp, now: int, count: nat, turns: nat)
    returns (moves: seq<Move>)
    requires Shows(kb, n, v, t, now) && v.replay == 0 && v.retry + count == 2047 && Small(t)
    requires v.kept != [] && Names(v.(sent := v.sent + count, retry := 2047), v.kept[0], 2047, turns)
    ensures Shows(kb, Run(ka, kb, n, moves), v.(sent := v.sent + count, retry := 0, kept := v.kept[1..]), t, now)
  {
    var x := Losses(ka, kb, n, v, t, now, count);
    var v1 := v.(sent := v.sent + count, retry := 2047);
    var y := NakArrives(ka, kb, Run(ka, kb, n, x), v1, t, now, 2047, turns);
    RunConcat(ka, kb, n, x, y);
    moves := x + y;
  }

  // -------------------------------------------------------------- from reset

  /** Nothing but infinite credits on the way from left to right, no UpdateFCs
      back, and no nullified TLPs. */
  predicate Plain(ka: Knobs, kb: Knobs) { !HasFinite(ka) && Infinite(kb.adv.p) && ka.nullifyCount == 0 }

  lemma OpensSender(ka: Knobs, kb: Knobs, n: Net)
    requires Plain(ka, kb) && Stuck(n) && Opened(ka, kb, n)
    ensures Sender(n.a) && TimerBy(n.a.d.tx, 0) && n.a.d.tx.retry == [] && n.a.d.tx.replayQ == []
  {
    assert ZERO == kb.adv.p;
  }

  /** A damaged TLP takes an end out of FC_INIT2 and leaves a Nak. */
  lemma FirstRefused(ka: Knobs, kb: Knobs, n: Net, t: Tlp)
    requires Plain(ka, kb) && Stuck(n) && Opened(ka, kb, n)
    ensures var e1 := EndReceive(kb, n.b, Wire(Data(0, t, false, Bad), 0), 0, 0);
      Receiver(kb, e1) && e1.got == [] && e1.qn == [0] && e1.d.rx.nakScheduled
  {
  }

  /** The first TLP of all is damaged; its Nak is kept. */
  lemma FirstSpoiled(ka: Knobs, kb: Knobs, n: Net, t: Tlp) returns (moves: seq<Move>)
    requires Plain(ka, kb) && Stuck(n) && Opened(ka, kb, n) && Small(t)
    ensures Shows(kb, Run(ka, kb, n, moves), View(1, 0, 1, 0, [0], true), t, 0)
  {
    moves := NewTlp(t, 0) + Spoil(0);
    OpensSender(ka, kb, n);
    OfferLeft(ka, kb, n, t, 0);
    SendsNew(ka, n.a, t, 0);
    RunConcat(ka, kb, n, NewTlp(t, 0), Spoil(0));
    SpoilRight(ka, kb, Run(ka, kb, n, NewTlp(t, 0)), Wire(Data(0, t, false, Good), 0), 0);
    FirstRefused(ka, kb, n, t);
  }

  lemma Opening(ka: Knobs, kb: Knobs, t: Tlp) returns (moves: seq<Move>, now: int)
    requires Plain(ka, kb) && Small(t)
    ensures Shows(kb, Run(ka, kb, Boot(ka, kb), moves), View(1, 0, 1, 1, [0], true), t, now)
  {
    var w := ReachStuck(ka, kb);
    var n := Run(ka, kb, Boot(ka, kb), w);
    var x := FirstSpoiled(ka, kb, n, t);
    var y;
    y, now := TimerFires(ka, kb, Run(ka, kb, n, x), View(1, 0, 1, 0, [0], true), t, 0);
    RunConcat(ka, kb, n, x, y);
    RunConcat(ka, kb, Boot(ka, kb), w, x + y);
    moves := w + (x + y);
  }

  /** One Nak kept too long: both ends are ACTIVE, the sender believes that all
      its TLPs have arrived, and 2047 of them never have. */
  lemma KeptNakLosesTlps(ka: Knobs, kb: Knobs, t: Tlp) returns (moves: seq<Move>)
    requires Plain(ka, kb) && Small(t)
    ensures var n := Run(ka, kb, Boot(ka, kb), moves);
      n.a.d.st == ACTIVE && n.b.d.st == ACTIVE && n.ab == [] && n.ba == [] && n.b.d.q == [] &&
      n.a.d.tx.retry == [] && n.a.d.tx.replayQ == [] && |n.a.sent| == 4096 && |n.b.got| == 2049
    ensures !LinkSafety.Reads(ka, kb, Boot(ka, kb), moves, true)
  {
    var w, now := Opening(ka, kb, t);
    var n := Run(ka, kb, Boot(ka, kb), w);
    var x := Rallies(ka, kb, n, View(1, 0, 1, 1, [0], true), t, now, 2049);
    var n1 := Run(ka, kb, n, x);
    var y := LosesReplay(ka, kb, n1, View(2050, 2049, 1, 1, [0], true), t, now);
    var z := Strike(ka, kb, Run(ka, kb, n1, y), View(2050, 2049, 1, 0, [0], true), t, now, 2046, 1);
    RunConcat(ka, kb, n1, y, z);
    RunConcat(ka, kb, n, x, y + z);
    RunConcat(ka, kb, Boot(ka, kb), w, x + (y + z));
    moves := w + (x + (y + z));
    LinkSafety.ExactlyOnceInOrder(ka, kb, moves, true);
  }

  /** A new TLP whose number happens to be the one that is due. */
  lemma Misdelivers(ka: Knobs, kb: Knobs, n: Net, v: View, t: Tlp, u: Tlp, now: int) returns (moves: seq<Move>)
    requires Shows(kb, n, v, t, now) && v.replay == 0 && v.retry < 2047 && Small(u) && u != t
    requires v.got < v.sent && v.sent % SEQ_MOD == v.got % SEQ_MOD
    ensures var n1 := Run(ka, kb, n, moves);
      n1.a.d.st == ACTIVE && n1.b.d.st == ACTIVE && n1.b.got == n.b.got + [u] && |n1.a.sent| == v.sent + 1 &&
      !(n1.b.got <= n1.a.sent)
  {
    var last := [Right(Receive(0, now))];
    moves := NewTlp(u, now) + last;
    FiresNew(ka, kb, n, v, t, u, now);
    RunConcat(ka, kb, n, NewTlp(u, now), last);
    TakeRight(ka, kb, Run(ka, kb, n, NewTlp(u, now)), Wire(Data(v.sent % SEQ_MOD, u, false, Good), v.sent), now);
    Accepts(kb, n.b, v.sent % SEQ_MOD, u, v.sent, now);
    var n1 := Run(ka, kb, n, moves);
    assert n1.b.got[v.got] == u && n1.a.sent[v.got] == n.a.sent[v.got] && n.a.sent[v.got] in n.a.sent;
  }

  /** Two Naks queued 2049 TLPs apart, both kept. */
  lemma KeepsTwo(ka: Knobs, kb: Knobs, t: Tlp) returns (moves: seq<Move>, now: int)
    requires Plain(ka, kb) && Small(t)
    ensures Shows(kb, Run(ka, kb, Boot(ka, kb), moves), View(4099, 4098, 1, 1, [2049, 0], true), t, now)
  {
    var early;
    var w, x, y, z;
    w, early := Opening(ka, kb, t);
    var n := Run(ka, kb, Boot(ka, kb), w);
    x := Rallies(ka, kb, n, View(1, 0, 1, 1, [0], true), t, early, 2048);
    var n1 := Run(ka, kb, n, x);
    y, now := KeepsNak(ka, kb, n1, View(2049, 2048, 1, 1, [0], true), t, early);
    assert [2049] + [0] == [2049, 0];
    z := Rallies(ka, kb, Run(ka, kb, n1, y), View(2050, 2049, 2, 1, [2049, 0], true), t, now, 2049);
    RunConcat(ka, kb, n1, y, z);
    RunConcat(ka, kb, n, x, y + z);
    RunConcat(ka, kb, Boot(ka, kb), w, x + (y + z));
    moves := w + (x + (y + z));
  }

  /** They leave newest first, each after 2047 losses. */
  lemma FirstStrike(ka: Knobs, kb: Knobs, n: Net, t: Tlp, now: int) returns (moves: seq<Move>)
    requires Shows(kb, n, View(4099, 4098, 1, 1, [2049, 0], true), t, now) && Small(t)
    ensures Shows(kb, Run(ka, kb, n, moves), View(6145, 4098, 0, 0, [0], true), t, now)
  {
    var x := LosesReplay(ka, kb, n, View(4099, 4098, 1, 1, [2049, 0], true), t, now);
    var v := View(4099, 4098, 1, 0, [2049, 0], true);
    assert v.kept[1..] == [0];
    var y := Strike(ka, kb, Run(ka, kb, n, x), v, t, now, 2046, 1);
    RunConcat(ka, kb, n, x, y);
    moves := x + y;
  }

  lemma SecondStrike(ka: Knobs, kb: Knobs, n: Net, t: Tlp, now: int) returns (moves: seq<Move>)
    requires Shows(kb, n, View(6145, 4098, 0, 0, [0], true), t, now) && Small(t)
    ensures Shows(kb, Run(ka, kb, n, moves), View(8194, 4098, 2, 0, [], true), t, now)
  {
    var v := View(6145, 4098, 0, 0, [0], true);
    assert v.kept[1..] == [];
    var x := Strike(ka, kb, n, v, t, now, 2047, 2);
    var y := Losses(ka, kb, Run(ka, kb, n, x), View(8192, 4098, 0, 0, [], true), t, now, 2);
    RunConcat(ka, kb, n, x, y);
    moves := x + y;
  }

  /** Exactly-once delivery is false of the code on schedules that misread a number:
      one from reset, with losses and damage only, on which the right end accepts
      TLP number 8194 of its peer as number 4098. */
  lemma PromptNeeded(ka: Knobs, kb: Knobs, t: Tlp, u: Tlp) returns (moves: seq<Move>)
    requires Plain(ka, kb) && Small(t) && Small(u) && t != u
    ensures var n := Run(ka, kb, Boot(ka, kb), moves);
      n.a.d.st == ACTIVE && n.b.d.st == ACTIVE && |n.b.got| == 4099 && |n.a.sent| == 8195 && !(n.b.got <= n.a.sent)
    ensures !LinkSafety.Reads(ka, kb, Boot(ka, kb), moves, true)
  {
    var x, now := KeepsTwo(ka, kb, t);
    var n := Run(ka, kb, Boot(ka, kb), x);
    var y := FirstStrike(ka, kb, n, t, now);
    var n1 := Run(ka, kb, n, y);
    var z := SecondStrike(ka, kb, n1, t, now);
    var last := Misdelivers(ka, kb, Run(ka, kb, n1, z), View(8194, 4098, 2, 0, [], true), t, u, now);
    RunConcat(ka, kb, n1, z, last);
    RunConcat(ka, kb, n, y, z + last);
    RunConcat(ka, kb, Boot(ka, kb), x, y + (z + last));
    moves := x + (y + (z + last));
    LinkSafety.ExactlyOnceInOrder(ka, kb, moves, true);
  }
}
