/** Recovery of lost TLPs and lost Acks: from any state that a schedule with
    losses can reach, one REPLAY_TIMER expiry, the delivery of the replay and of
    one Ack bring transmitter and receiver to the same sequence number. */
module LinkRecovery {
  import opened Common
  import opened DllTypes
  import Spec = DllSpec
  import opened Link
  import opened LinkMoves
  import opened LinkLocal
  import opened LinkSafety

  // ------------------------------------------------- reads along a schedule

  lemma {:induction false} ReadsConcat(ka: Knobs, kb: Knobs, n: Net, xs: seq<Move>, ys: seq<Move>, left: bool)
    requires Reads(ka, kb, n, xs, left) && Reads(ka, kb, Run(ka, kb, n, xs), ys, left)
    ensures Reads(ka, kb, n, xs + ys, left)
    decreases |ys|
  {
    if ys == [] {
      assert xs + ys == xs;
    } else {
      var last := |ys| - 1;
      assert (xs + ys)[..|xs + ys| - 1] == xs + ys[..last];
      ReadsConcat(ka, kb, n, xs, ys[..last], left);
      RunConcat(ka, kb, n, xs, ys[..last]);
    }
  }

  lemma FromSwap(n: Net, left: bool)
    ensures From(Swap(n), !left) == From(n, left)
  {
  }

  lemma {:induction false} ReadsFlip(ka: Knobs, kb: Knobs, n: Net, moves: seq<Move>, left: bool)
    requires Reads(ka, kb, n, moves, left)
    ensures Reads(kb, ka, Swap(n), Flip(moves), !left)
    decreases |moves|
  {
    if moves == [] {
    } else {
      var before, m := moves[..|moves| - 1], moves[|moves| - 1];
      FlipRun(ka, kb, n, before);
      ReadsFlip(ka, kb, n, before, left);
      var at := Run(ka, kb, n, before);
      FromSwap(at, left);
      assert Run(kb, ka, Swap(n), Flip(before)) == Swap(at) && (IsRead(m, left) ==> ReadOk(From(at, left)));
      ReadsMore(kb, ka, Swap(n), Flip(before), FlipOne(m), !left);
      assert Flip(moves) == Flip(before) + [FlipOne(m)];
    }
  }

  lemma ReadsMore(ka: Knobs, kb: Knobs, n: Net, xs: seq<Move>, y: Move, left: bool)
    requires Reads(ka, kb, n, xs, left)
    requires IsRead(y, left) ==> ReadOk(From(Run(ka, kb, n, xs), left))
    ensures Reads(ka, kb, n, xs + [y], left)
  {
    assert (xs + [y])[..|xs|] == xs;
  }

  lemma ReadsOne(ka: Knobs, kb: Knobs, n: Net, x: Move, left: bool)
    requires IsRead(x, left) ==> ReadOk(From(n, left))
    ensures Reads(ka, kb, n, [x], left)
  {
    ReadsMore(ka, kb, n, [], x, left);
    assert [] + [x] == [x];
  }

  lemma ReadsTwo(ka: Knobs, kb: Knobs, n: Net, x: Move, y: Move, left: bool)
    requires IsRead(x, left) ==> ReadOk(From(n, left))
    requires IsRead(y, left) ==> ReadOk(From(Play(ka, kb, n, x), left))
    ensures Reads(ka, kb, n, [x, y], left)
  {
    ReadsOne(ka, kb, n, x, left);
    RunOne(ka, kb, n, x);
    ReadsMore(ka, kb, n, [x], y, left);
    assert [x] + [y] == [x, y];
  }

  // ----------------------------------------------------------- a calm link

  /** Both ends ACTIVE, nothing under way, delivery from right to left intact. */
  predicate Calm(n: Net) {
    Intact(Swap(n)) && n.a.d.st == ACTIVE && n.b.d.st == ACTIVE && n.ab == [] && n.ba == []
  }

  /** No Nak queued at the right end names a TLP it has still to accept. */
  predicate NoneStale(n: Net) {
    forall i | 0 <= i < |n.b.d.q| && n.b.d.q[i].Nak? :: !Names(n.b.d.q[i].num, |n.b.got|, |n.a.sent|)
  }

  /** Delivery from left to right is intact as well, and no such Nak waits. */
  predicate Clear(n: Net) { Intact(n) && NoneStale(n) }

  /** Nothing new is sent, and the right end accepts nothing. */
  predicate Quiet(n: Net, n1: Net) {
    && n1.a.sent == n.a.sent && n1.b.sent == n.b.sent && n1.b.got == n.b.got && n.a.got <= n1.a.got
    && |n1.a.d.tx.retry| <= |n.a.d.tx.retry|
  }

  /** A loss-free schedule between calm states on which the right end misreads
      nothing, and the left end nothing either unless it was bound to. */
  predicate Heals(ka: Knobs, kb: Knobs, n: Net, moves: seq<Move>) {
    var n1 := Run(ka, kb, n, moves);
    && Calm(n1) && Quiet(n, n1) && LossFree(moves) && Reads(ka, kb, n, moves, false)
    && (Clear(n) ==> Clear(n1) && Reads(ka, kb, n, moves, true))
  }

  lemma HealsConcat(ka: Knobs, kb: Knobs, n: Net, xs: seq<Move>, ys: seq<Move>)
    requires Heals(ka, kb, n, xs) && Heals(ka, kb, Run(ka, kb, n, xs), ys)
    ensures Heals(ka, kb, n, xs + ys) && Run(ka, kb, n, xs + ys) == Run(ka, kb, Run(ka, kb, n, xs), ys)
  {
    RunConcat(ka, kb, n, xs, ys);
    ReadsConcat(ka, kb, n, xs, ys, false);
    if Clear(n) { ReadsConcat(ka, kb, n, xs, ys, true); }
  }

  /** Nothing but transmissions and receptions from `now` on. */
  predicate Passes(moves: seq<Move>, now: int) {
    forall m | m in moves :: (m.act.Transmit? && m.act.cycle >= now) || (m.act.Receive? && m.act.now >= now)
  }

  // ----------------------------------------------- one packet right to left

  lemma SendState(k: Knobs, e: End, cycle: int)
    ensures var e1 := EndSend(k, e, cycle).0;
      e1.d.st == e.d.st && e1.got == e.got && (e1.d.q == e.d.q || (e.d.q != [] && e1.d.q == e.d.q[1..]))
  {
  }

  /** What a reception leaves alone. */
  lemma ReceiveState(k: Knobs, e: End, w: Wire, endT: nat, now: int)
    requires TxOk(e) && RxOk(e) && e.d.st == ACTIVE && (w.p.Control? ==> Carried(w.p.dllp))
    ensures var e1 := EndReceive(k, e, w, endT, now);
      && e1.d.st == ACTIVE && e1.sent == e.sent && e.got <= e1.got && |e1.d.tx.retry| <= |e.d.tx.retry|
      && (!w.p.Data? ==> e1.got == e.got && e1.d.q == e.d.q && e1.d.rx == e.d.rx)
  {
    match w.p
    case Control(m) =>
      DllpKeeps(k, e.d, m, now);
      if m.Ack? || m.Nak? { AckShrinks(e, m.Nak?, m.num, now); }
    case Data(_, _, _, _) =>
      TlpCases(k, e, w.p, endT, now);
      TlpKeepsTx(k, e.d, w.p, endT, now);
    case Junk =>
  }

  lemma AckShrinks(e: End, nak: bool, num: int, now: int)
    requires TxOk(e) && 0 <= num < SEQ_MOD
    ensures |Spec.AckNak(e.d, nak, num, now).tx.retry| <= |e.d.tx.retry|
  {
    var j := (num - e.d.tx.ackd) % SEQ_MOD;
    AckdAdvances(Acked(e) - 1, num, j);
    AckWindowExact(e.d, e.sent, nak, j, now);
  }

  /** The packet a calm right end sends. */
  lemma Sent(k: Knobs, e: End, cycle: int)
    requires TxOk(e) && RxOk(e)
    ensures var (e1, out) := EndSend(k, e, cycle); forall w | w in out && w.p.Control? :: Carried(w.p.dllp)
  {
    SendOut(k, e, cycle);
    forall w | w in EndSend(k, e, cycle).1 && w.p.Control? ensures Carried(w.p.dllp) {
      if IsAck(w) { assert AckFits(w, |e.got|); }
    }
  }

  /** The right end, silent or not, sends one packet, which the left end receives. */
  lemma PassHeals(ka: Knobs, kb: Knobs, n: Net, cycle: int)
    requires Calm(n) && EndSend(kb, n.b, cycle).0.sent == n.b.sent
    ensures Heals(ka, kb, n, Pass(cycle, 0))
  {
    var x, y := Right(Transmit(cycle)), Left(Receive(0, cycle));
    PassRight(ka, kb, n, cycle, 0);
    RunTwo(ka, kb, n, x, y);
    SendState(kb, n.b, cycle);
    Sent(kb, n.b, cycle);
    var out := EndSend(kb, n.b, cycle).1;
    if out != [] { ReceiveState(ka, n.a, out[0], 0, cycle); }
    MoveExact(ka, kb, n, x, false);
    SendRight(ka, kb, n, cycle);
    MoveExact(ka, kb, Play(ka, kb, n, x), y, false);
    ReadsTwo(ka, kb, n, x, y, false);
    if Clear(n) { PassClear(ka, kb, n, cycle); }
  }

  lemma PassClear(ka: Knobs, kb: Knobs, n: Net, cycle: int)
    requires Calm(n) && Clear(n)
    ensures Reads(ka, kb, n, Pass(cycle, 0), true) && Clear(Run(ka, kb, n, Pass(cycle, 0)))
  {
    var x, y := Right(Transmit(cycle)), Left(Receive(0, cycle));
    var n0 := Play(ka, kb, n, x);
    RunTwo(ka, kb, n, x, y);
    SendRight(ka, kb, n, cycle);
    SentClear(ka, kb, n, cycle);
    PassIntact(ka, kb, n, x, y);
    ReadsTwo(ka, kb, n, x, y, true);
    StaleLeave(kb, n, n0, Run(ka, kb, n, Pass(cycle, 0)), cycle);
  }

  lemma PassIntact(ka: Knobs, kb: Knobs, n: Net, x: Move, y: Move)
    requires Intact(n) && x.Right? && y.Left? && y.act.Receive? && ReadOk(Play(ka, kb, n, x))
    ensures var n0 := Play(ka, kb, n, x); var n1 := Play(ka, kb, n0, y);
      Intact(n1) && n1.a.sent == n0.a.sent && n1.b == n0.b
  {
    var n0 := Play(ka, kb, n, x);
    MoveExact(ka, kb, n, x, true);
    MoveExact(ka, kb, n0, y, true);
    ReadExact(ka, n0, y.act.endT, y.act.now);
  }

  lemma StaleLeave(kb: Knobs, n: Net, n0: Net, n1: Net, cycle: int)
    requires NoneStale(n) && n0.b == EndSend(kb, n.b, cycle).0 && n1.b == n0.b && n1.a.sent == n.a.sent
    ensures NoneStale(n1)
  {
    SendState(kb, n.b, cycle);
  }

  /** What the right end sends in a clear state is read rightly. */
  lemma SentClear(ka: Knobs, kb: Knobs, n: Net, cycle: int)
    requires Calm(n) && Clear(n)
    ensures ReadOk(Play(ka, kb, n, Right(Transmit(cycle))))
  {
    SendRight(ka, kb, n, cycle);
    SendOut(kb, n.b, cycle);
    SendState(kb, n.b, cycle);
    var out := EndSend(kb, n.b, cycle).1;
    if out != [] && IsAck(out[0]) {
      var w := out[0];
      assert AckFits(w, |n.b.got|);
      if w.n == |n.b.got| {
        OldNumber(w.n, |n.b.got|, |n.a.sent|, w.p.dllp.num);
      } else {
        assert NakNumber(n.b, w.n);
      }
    }
  }

  // ---------------------------------------------------------------- replay

  /** The right end is replaying up to its newest TLP and the left end misses none
      before the one that comes next. */
  predicate Replaying(n: Net) { Calm(n) && |n.b.sent| - |n.b.d.tx.replayQ| <= |n.a.got| }

  /** A replayed TLP is either the one expected next or a duplicate. */
  lemma ReplayArrives(k: Knobs, e: End, w: Wire, sent: seq<Tlp>, cycle: int)
    requires RxOk(e) && e.d.st == ACTIVE && GoodTlp(w) && TlpFits(w, sent, |e.got|) && w.n <= |e.got|
    ensures var e1 := EndReceive(k, e, w, 0, cycle);
      && e1.d.st == ACTIVE && e1.d.q == e.d.q && e1.qn == e.qn && e1.d.rx.ackDue.Some?
      && e1.got == (if w.n == |e.got| then e.got + [sent[w.n]] else e.got)
  {
    SeqDecides(w.p.num, w.n, |e.got|);
    TlpCases(k, e, w.p, 0, cycle);
  }

  /** What still has to leave before the replay is over. */
  function ReplayLeft(e: End): nat {
    |e.d.q| + (if e.d.rx.ackDue.Some? then 1 else 0) + |e.d.flow.updNow| + |e.d.tx.replayQ|
  }

  /** One transmission of an end that has a replay to send. */
  lemma ReplaySends(k: Knobs, e: End, cycle: int)
    requires TxOk(e) && RxOk(e) && e.d.st == ACTIVE && e.d.tx.replayQ != []
    ensures var (e1, out) := EndSend(k, e, cycle);
      && |out| == 1 && e1.sent == e.sent && e1.d.tx.retry == e.d.tx.retry && ReplayLeft(e1) < ReplayLeft(e)
      && ((out[0].p.Control? && e1.d.tx.replayQ == e.d.tx.replayQ) ||
          (GoodTlp(out[0]) && out[0].n == |e.sent| - |e.d.tx.replayQ| && |e1.d.tx.replayQ| == |e.d.tx.replayQ| - 1))
  {
    ReplayShrinks(k, e, cycle);
  }

  lemma ReplayShrinks(k: Knobs, e: End, cycle: int)
    requires e.d.st == ACTIVE && e.d.tx.replayQ != []
    ensures ReplayLeft(EndSend(k, e, cycle).0) < ReplayLeft(e)
  {
    if e.d.q != [] || Spec.AckReady(e.d, cycle) {
    } else if e.d.flow.updNow != {} {
      var t := Spec.FirstType(e.d.flow.updNow);
      FirstIsMember(e.d.flow.updNow);
      assert Spec.NextPacket(k, e.d, cycle) == Spec.SendUpdate(k, e.d, cycle);
      assert (e.d.flow.updNow - {t}) + {t} == e.d.flow.updNow;
    } else {
      assert Spec.NextPacket(k, e.d, cycle) == Spec.SendReplay(e.d, cycle);
    }
  }

  lemma FirstIsMember(s: set<FcType>)
    requires s != {}
    ensures Spec.FirstType(s) in s
  {
    var t :| t in s;
    match t case P => case NP => case CPL =>
  }

  lemma ReplayOne(ka: Knobs, kb: Knobs, n: Net, cycle: int)
    requires Replaying(n) && n.b.d.tx.replayQ != []
    ensures var n1 := Run(ka, kb, n, Pass(cycle, 0));
      && Heals(ka, kb, n, Pass(cycle, 0)) && Replaying(n1) && n1.b.d.tx.retry == n.b.d.tx.retry
      && ReplayLeft(n1.b) < ReplayLeft(n.b)
      && (|n1.b.d.tx.replayQ| < |n.b.d.tx.replayQ| || n.a.d.rx.ackDue.Some? ==> n1.a.d.rx.ackDue.Some?)
      && |n1.b.d.tx.replayQ| <= |n.b.d.tx.replayQ|
  {
    PassRight(ka, kb, n, cycle, 0);
    ReplaySends(kb, n.b, cycle);
    PassHeals(ka, kb, n, cycle);
    SendOut(kb, n.b, cycle);
    Sent(kb, n.b, cycle);
    var w := EndSend(kb, n.b, cycle).1[0];
    if w.p.Control? {
      ReceiveState(ka, n.a, w, 0, cycle);
    } else {
      assert TlpFits(w, n.b.sent, |n.b.sent|);
      ReplayArrives(ka, n.a, w, n.b.sent, cycle);
    }
  }

  /** The whole replay reaches the left end, which then has every TLP sent. */
  lemma {:induction false} Replay(ka: Knobs, kb: Knobs, n: Net, cycle: int) returns (moves: seq<Move>)
    requires Replaying(n)
    ensures Passes(moves, cycle) && Heals(ka, kb, n, moves)
    ensures var n1 := Run(ka, kb, n, moves);
      && n1.a.got == n.b.sent && n1.b.d.tx.retry == n.b.d.tx.retry
      && (n.b.d.tx.replayQ != [] || n.a.d.rx.ackDue.Some? ==> n1.a.d.rx.ackDue.Some?)
    decreases ReplayLeft(n.b)
  {
    if n.b.d.tx.replayQ == [] {
      moves := [];
      assert n.a.got <= n.b.sent;
    } else {
      var step := Pass(cycle, 0);
      ReplayOne(ka, kb, n, cycle);
      var rest := Replay(ka, kb, Run(ka, kb, n, step), cycle);
      HealsConcat(ka, kb, n, step, rest);
      moves := step + rest;
    }
  }

  // ------------------------------------------------------ what comes back

  /** The left end has every TLP sent and an Ack due. */
  predicate Owes(n: Net, at: int) {
    Calm(n) && n.a.got == n.b.sent && n.a.d.rx.ackDue.Some? && at >= n.a.d.rx.ackDue.value
  }

  /** Such an end sends its queued Naks one by one, then the Ack. */
  lemma OwedSends(k: Knobs, e: End, at: int)
    requires RxOk(e) && e.d.st == ACTIVE && e.d.rx.ackDue.Some? && at >= e.d.rx.ackDue.value
    ensures var (e1, out) := EndSend(k, e, at);
      && |out| == 1 && out[0].p.Control? && e1.sent == e.sent && e1.got == e.got && e1.d.tx == e.d.tx
      && ((e.d.q != [] && e1.d.q == e.d.q[1..] && e1.d.rx == e.d.rx) ||
          out[0] == Wire(Control(Ack((|e.got| - 1) % SEQ_MOD)), |e.got|))
  {
  }

  /** An Ack of everything sent empties the retry buffer. */
  lemma AckEffect(k: Knobs, e: End, cycle: int)
    requires TxOk(e) && e.d.st == ACTIVE
    ensures var n := |e.sent|;
      EndReceive(k, e, Wire(Control(Ack((n - 1) % SEQ_MOD)), n), 0, cycle).d.tx.retry == []
  {
    AckMoves(e, false, (|e.sent| - 1) % SEQ_MOD, |e.sent|, cycle);
  }

  function Return(at: int): seq<Move> { [Left(Transmit(at)), Right(Receive(0, at))] }

  lemma ReturnStates(ka: Knobs, kb: Knobs, n: Net, at: int)
    requires n.ab == [] && |EndSend(ka, n.a, at).1| == 1
    ensures var (a1, out) := EndSend(ka, n.a, at); var n0 := Play(ka, kb, n, Left(Transmit(at)));
      && n0 == n.(a := a1, ab := out)
      && Run(ka, kb, n, Return(at)) == Play(ka, kb, n0, Right(Receive(0, at)))
      && Run(ka, kb, n, Return(at)) == n.(a := a1, b := EndReceive(kb, n.b, out[0], 0, at))
      && LossFree(Return(at)) && Passes(Return(at), at)
  {
    RunTwo(ka, kb, n, Left(Transmit(at)), Right(Receive(0, at)));
    assert [] + EndSend(ka, n.a, at).1 == EndSend(ka, n.a, at).1;
    assert EndSend(ka, n.a, at).1[1..] == [];
  }

  /** No number can be misread when nothing is missing. */
  lemma ReturnHeals(ka: Knobs, kb: Knobs, n: Net, at: int)
    requires Owes(n, at)
    ensures Heals(ka, kb, n, Return(at)) && Passes(Return(at), at)
  {
    var x, y := Left(Transmit(at)), Right(Receive(0, at));
    OwedSends(ka, n.a, at);
    ReturnStates(ka, kb, n, at);
    Sent(ka, n.a, at);
    SendState(ka, n.a, at);
    ReceiveState(kb, n.b, EndSend(ka, n.a, at).1[0], 0, at);
    var n0 := Play(ka, kb, n, x);
    assert ReadOk(Swap(n0));
    MoveExact(ka, kb, n, x, false);
    MoveExact(ka, kb, n0, y, false);
    ReadsTwo(ka, kb, n, x, y, false);
    if Clear(n) {
      MoveExact(ka, kb, n, x, true);
      MoveExact(ka, kb, n0, y, true);
      ReadsTwo(ka, kb, n, x, y, true);
    }
  }

  lemma {:induction false} ReturnAll(ka: Knobs, kb: Knobs, n: Net, at: int) returns (moves: seq<Move>)
    requires Owes(n, at)
    ensures Passes(moves, at) && Heals(ka, kb, n, moves) && Run(ka, kb, n, moves).b.d.tx.retry == []
    decreases |n.a.d.q|
  {
    ReturnHeals(ka, kb, n, at);
    OwedSends(ka, n.a, at);
    ReturnStates(ka, kb, n, at);
    moves := Return(at);
    if EndSend(ka, n.a, at).1[0] == Wire(Control(Ack((|n.a.got| - 1) % SEQ_MOD)), |n.a.got|) {
      AckEffect(kb, n.b, at);
    } else {
      assert n.b.sent == Run(ka, kb, n, moves).b.sent;
      var rest := ReturnAll(ka, kb, Run(ka, kb, n, moves), at);
      HealsConcat(ka, kb, n, moves, rest);
      moves := moves + rest;
    }
  }

  // ----------------------------------------------------------- the theorem

  /** The cycle at which a running REPLAY_TIMER has expired. */
  function Expiry(k: Knobs, e: End, now: int): int {
    var t := if e.d.tx.replayTimer.Some? then e.d.tx.replayTimer.value + k.replayTimerCycles else now;
    if t < now then now else t
  }

  /** In every state of every schedule, whatever was lost or misread, the timer of an
      end with unacknowledged TLPs runs, and its expiry queues every one of them for
      replay, numbered and unchanged. */
  lemma TimerReplays(ka: Knobs, kb: Knobs, past: seq<Move>, now: int)
    requires Run(ka, kb, Boot(ka, kb), past).b.d.tx.retry != []
    ensures var n := Run(ka, kb, Boot(ka, kb), past);
      var b1 := Run(ka, kb, Boot(ka, kb), past + [Right(Clock(Expiry(kb, n.b, now)))]).b;
      && n.b.d.tx.replayTimer.Some? && b1.sent == n.b.sent && IsTail(b1.d.tx.replayQ, b1.sent)
      && b1.d.tx.replayQ == b1.d.tx.retry == n.b.d.tx.retry
  {
    BootInv(ka, kb);
    RunSound(ka, kb, Boot(ka, kb), past);
    var n := Run(ka, kb, Boot(ka, kb), past);
    var m := Right(Clock(Expiry(kb, n.b, now)));
    RunConcat(ka, kb, Boot(ka, kb), past, [m]);
    RunOne(ka, kb, n, m);
  }

  /** Expiry on a calm link. */
  lemma Expire(ka: Knobs, kb: Knobs, n: Net, now: int)
    requires Calm(n) && n.b.d.tx.retry != []
    ensures var moves := [Right(Clock(Expiry(kb, n.b, now)))]; var n1 := Run(ka, kb, n, moves);
      && Heals(ka, kb, n, moves) && Replaying(n1) && n1.b.d.tx.retry == n.b.d.tx.retry
      && n1.b.d.tx.replayQ == n.b.d.tx.retry
  {
    var m := Right(Clock(Expiry(kb, n.b, now)));
    RunOne(ka, kb, n, m);
    MoveExact(ka, kb, n, m, false);
    ReadsOne(ka, kb, n, m, false);
    if Clear(n) {
      MoveExact(ka, kb, n, m, true);
      ReadsOne(ka, kb, n, m, true);
    }
  }

  function Later(x: int, t: Option<int>): int { if t.Some? && t.value > x then t.value else x }

  /** The left end has every TLP the right end ever took, the right end knows it,
      and the two sequence numbers agree. */
  predicate Recovered(n: Net) {
    n.a.got == n.b.sent && n.b.d.tx.retry == [] && n.a.d.rx.nrs == n.b.d.tx.nts
  }

  lemma KnownIsRecovered(n: Net)
    requires Calm(n) && n.b.d.tx.retry == []
    ensures Recovered(n)
  {
  }

  /** One expiry of the right end's timer; then the replay; then what the left end
      has queued, and one Ack. */
  predicate OneExpiry(moves: seq<Move>, cycle: int, replay: seq<Move>, at: int, back: seq<Move>, now: int) {
    && now <= cycle <= at && Passes(replay, cycle) && Passes(back, at)
    && moves == [Right(Clock(cycle))] + (replay + back)
  }

  /** Recovery on a calm link. */
  lemma Recover(ka: Knobs, kb: Knobs, n: Net, now: int) returns (moves: seq<Move>)
    requires Calm(n)
    ensures moves == [] || exists cycle, replay, at, back :: OneExpiry(moves, cycle, replay, at, back, now)
    ensures Heals(ka, kb, n, moves) && Recovered(Run(ka, kb, n, moves))
  {
    if n.b.d.tx.retry == [] {
      moves := [];
    } else {
      var cycle := Expiry(kb, n.b, now);
      var tick := [Right(Clock(cycle))];
      Expire(ka, kb, n, now);
      var n1 := Run(ka, kb, n, tick);
      var replay := Replay(ka, kb, n1, cycle);
      var n2 := Run(ka, kb, n1, replay);
      var at := Later(cycle, n2.a.d.rx.ackDue);
      var back := ReturnAll(ka, kb, n2, at);
      HealsConcat(ka, kb, n1, replay, back);
      HealsConcat(ka, kb, n, tick, replay + back);
      moves := tick + (replay + back);
      assert OneExpiry(moves, cycle, replay, at, back, now);
    }
    KnownIsRecovered(Run(ka, kb, n, moves));
  }

  /** One packet under way is lost. */
  lemma LoseOne(ka: Knobs, kb: Knobs, n: Net) returns (m: Move)
    requires n.ab != [] || n.ba != []
    ensures m.act.Lose?
    ensures var n1 := Play(ka, kb, n, m); n1.a == n.a && n1.b == n.b && |n1.ab| + |n1.ba| < |n.ab| + |n.ba|
  {
    m := if n.ab != [] then Left(Lose(0)) else Right(Lose(0));
  }

  /** Everything under way is lost. */
  lemma {:induction false} LoseAll(ka: Knobs, kb: Knobs, n: Net) returns (moves: seq<Move>)
    ensures Run(ka, kb, n, moves) == n.(ab := [], ba := [])
    ensures Reads(ka, kb, n, moves, true) && Reads(ka, kb, n, moves, false) && forall m | m in moves :: m.act.Lose?
    decreases |n.ab| + |n.ba|
  {
    if n.ab == [] && n.ba == [] {
      moves := [];
    } else {
      var m := LoseOne(ka, kb, n);
      var n1 := Play(ka, kb, n, m);
      RunOne(ka, kb, n, m);
      ReadsOne(ka, kb, n, m, true);
      ReadsOne(ka, kb, n, m, false);
      var rest := LoseAll(ka, kb, n1);
      RunConcat(ka, kb, n, [m], rest);
      ReadsConcat(ka, kb, n, [m], rest, true);
      ReadsConcat(ka, kb, n, [m], rest, false);
      moves := [m] + rest;
    }
  }

  /** The calm state behind the losses. */
  lemma Calmed(ka: Knobs, kb: Knobs, past: seq<Move>) returns (lost: seq<Move>)
    requires Reads(ka, kb, Boot(ka, kb), past, false)
    requires var n := Run(ka, kb, Boot(ka, kb), past); n.a.d.st == ACTIVE && n.b.d.st == ACTIVE
    ensures forall m | m in lost :: m.act.Lose?
    ensures var n := Run(ka, kb, Boot(ka, kb), past); var n1 := n.(ab := [], ba := []);
      && Run(ka, kb, Boot(ka, kb), past + lost) == n1 && Calm(n1)
      && Reads(ka, kb, Boot(ka, kb), past + lost, false)
      && (Reads(ka, kb, Boot(ka, kb), past, true) ==> Reads(ka, kb, Boot(ka, kb), past + lost, true) && Intact(n1))
  {
    var boot := Boot(ka, kb);
    BootInv(ka, kb);
    var n := Run(ka, kb, boot, past);
    lost := LoseAll(ka, kb, n);
    RunConcat(ka, kb, boot, past, lost);
    ReadsConcat(ka, kb, boot, past, lost, false);
    RunExact(ka, kb, boot, past + lost, false);
    if Reads(ka, kb, boot, past, true) {
      ReadsConcat(ka, kb, boot, past, lost, true);
      RunExact(ka, kb, boot, past + lost, true);
    }
  }

  /** From every state with both ends ACTIVE that a schedule reaches without the
      right end misreading a number, even when everything under way is lost on top
      of whatever was lost before, the right end's TLPs all reach the left end after
      at most one REPLAY_TIMER expiry, and the right end's retry buffer drains, with
      no number misread by it. The left end misreads none either if it has not so
      far and no Nak queued for it names a TLP that is still missing. By Flip the
      same holds with the ends exchanged. */
  lemma RecoveryFromAnyLoss(ka: Knobs, kb: Knobs, past: seq<Move>, now: int)
    returns (lost: seq<Move>, rest: seq<Move>)
    requires Reads(ka, kb, Boot(ka, kb), past, false)
    requires var n := Run(ka, kb, Boot(ka, kb), past); n.a.d.st == ACTIVE && n.b.d.st == ACTIVE
    ensures forall m | m in lost :: m.act.Lose?
    ensures var n := Run(ka, kb, Boot(ka, kb), past); Run(ka, kb, Boot(ka, kb), past + lost) == n.(ab := [], ba := [])
    ensures LossFree(rest)
    ensures rest == [] || exists cycle, replay, at, back :: OneExpiry(rest, cycle, replay, at, back, now)
    ensures Reads(ka, kb, Boot(ka, kb), past + lost + rest, false)
    ensures Reads(ka, kb, Boot(ka, kb), past, true) && NoneStale(Run(ka, kb, Boot(ka, kb), past)) ==>
      Reads(ka, kb, Boot(ka, kb), past + lost + rest, true)
    ensures var n, n1 := Run(ka, kb, Boot(ka, kb), past), Run(ka, kb, Boot(ka, kb), past + lost + rest);
      Quiet(n, n1) && Recovered(n1)
  {
    var boot := Boot(ka, kb);
    lost := Calmed(ka, kb, past);
    var n := Run(ka, kb, boot, past + lost);
    rest := Recover(ka, kb, n, now);
    RunConcat(ka, kb, boot, past + lost, rest);
    ReadsConcat(ka, kb, boot, past + lost, rest, false);
    if Reads(ka, kb, boot, past, true) && NoneStale(n) { ReadsConcat(ka, kb, boot, past + lost, rest, true); }
  }

  /** The second direction after the first, the ends exchanged. */
  lemma RecoverOther(ka: Knobs, kb: Knobs, n: Net, now: int) returns (moves: seq<Move>)
    requires Calm(n) && Intact(n) && Recovered(n)
    ensures LossFree(moves) && ReadsOk(ka, kb, n, moves)
    ensures var n1 := Run(ka, kb, n, moves); Recovered(n1) && Recovered(Swap(n1)) && Quiet(Swap(n), Swap(n1))
  {
    var s := Swap(n);
    var xs := Recover(kb, ka, s, now);
    moves := Flip(xs);
    FlipRun(kb, ka, s, xs);
    ReadsFlip(kb, ka, s, xs, false);
    assert Clear(s);
    ReadsFlip(kb, ka, s, xs, true);
    assert Swap(s) == n;
    KnownIsRecovered(Run(ka, kb, n, moves));
  }

  /** Both directions recover, one after the other, if no Nak waiting at the right
      end (or, by Flip, at the left end) names a TLP that is still missing. */
  lemma BothRecover(ka: Knobs, kb: Knobs, past: seq<Move>, now: int)
    returns (lost: seq<Move>, rest: seq<Move>)
    requires ReadsOk(ka, kb, Boot(ka, kb), past) && NoneStale(Run(ka, kb, Boot(ka, kb), past))
    requires var n := Run(ka, kb, Boot(ka, kb), past); n.a.d.st == ACTIVE && n.b.d.st == ACTIVE
    ensures forall m | m in lost :: m.act.Lose?
    ensures var n := Run(ka, kb, Boot(ka, kb), past); Run(ka, kb, Boot(ka, kb), past + lost) == n.(ab := [], ba := [])
    ensures LossFree(rest) && ReadsOk(ka, kb, Boot(ka, kb), past + lost + rest)
    ensures var n, n1 := Run(ka, kb, Boot(ka, kb), past), Run(ka, kb, Boot(ka, kb), past + lost + rest);
      Recovered(n1) && Recovered(Swap(n1)) && n1.a.sent == n.a.sent && n1.b.sent == n.b.sent
  {
    var boot := Boot(ka, kb);
    lost := Calmed(ka, kb, past);
    var n := Run(ka, kb, boot, past + lost);
    var xs := Recover(ka, kb, n, now);
    var n1 := Run(ka, kb, n, xs);
    assert Clear(n);
    var ys := RecoverOther(ka, kb, n1, now);
    rest := xs + ys;
    RunConcat(ka, kb, n, xs, ys);
    RunConcat(ka, kb, boot, past + lost, rest);
    BothReads(ka, kb, n, xs, ys);
    BothReads(ka, kb, boot, past + lost, rest);
  }

  lemma BothReads(ka: Knobs, kb: Knobs, n: Net, xs: seq<Move>, ys: seq<Move>)
    requires ReadsOk(ka, kb, n, xs) && ReadsOk(ka, kb, Run(ka, kb, n, xs), ys)
    ensures ReadsOk(ka, kb, n, xs + ys)
  {
    ReadsConcat(ka, kb, n, xs, ys, true);
    ReadsConcat(ka, kb, n, xs, ys, false);
  }
}
