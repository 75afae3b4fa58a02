/** Exactly-once delivery between two Data Link Layers: on every schedule of the
    two ends and of a channel that loses and damages packets, what an end has
    accepted is a prefix of what its peer was given to send, and nothing leaves
    the peer's retry buffer before it was accepted, exactly as long as no Ack or
    Nak is read that names a TLP not accepted yet. */
module LinkSafety {
  import opened DllTypes
  import Spec = DllSpec
  import opened Link
  import opened LinkLocal

  predicate GoodTlp(w: Wire) { w.p.Data? && !w.p.edb && w.p.lcrc == Good }

  predicate IsAck(w: Wire) { w.p.Control? && (w.p.dllp.Ack? || w.p.dllp.Nak?) }

  /** The number of TLPs the transmit side knows to be acknowledged. */
  function Acked(e: End): int { |e.sent| - |e.d.tx.retry| }

  /** TLPs under way from `tx` to `rx`: each carries the TLP of its index, and
      no index lags the receiver, or a TLP ahead of it, by half the number space. */
  predicate DataOk(tx: End, rx: End, fwd: seq<Wire>) {
    && rx.got <= tx.sent
    && Acked(tx) <= |rx.got|
    && (forall i | 0 <= i < |fwd| && GoodTlp(fwd[i]) :: TlpFits(fwd[i], tx.sent, |rx.got|))
    && (forall i, j | 0 <= i < j < |fwd| && GoodTlp(fwd[i]) && GoodTlp(fwd[j]) :: fwd[i].n <= fwd[j].n + 2046)
  }

  predicate TlpFits(w: Wire, sent: seq<Tlp>, got: nat)
    requires w.p.Data?
  {
    w.n < |sent| && w.p.num == w.n % SEQ_MOD && w.p.tlp == sent[w.n] && got <= w.n + 2047
  }

  /** Acks and Naks under way from `rx`: each names the last TLP accepted when it
      was made, whatever its reader makes of it. */
  predicate AcksOk(rx: End, back: seq<Wire>) {
    forall i | 0 <= i < |back| && IsAck(back[i]) :: AckFits(back[i], |rx.got|)
  }

  predicate AckFits(w: Wire, got: nat)
    requires IsAck(w)
  {
    w.n <= got && w.p.dllp.num == (w.n - 1) % SEQ_MOD
  }

  /** What holds on every schedule whatever. */
  predicate Sound(n: Net) {
    TxOk(n.a) && RxOk(n.a) && TxOk(n.b) && RxOk(n.b) && AcksOk(n.b, n.ba) && AcksOk(n.a, n.ab)
  }

  /** Delivery from left to right is intact. */
  predicate Intact(n: Net) { Sound(n) && DataOk(n.a, n.b, n.ab) }

  predicate Inv(n: Net) { Intact(n) && Intact(Swap(n)) }

  /** `num` is the number of a TLP sent but not accepted yet: with fewer than half
      the numbers outstanding the window test of _acknak would take it. */
  predicate Names(num: int, got: nat, sent: nat) { (num - got) % SEQ_MOD < sent - got }

  predicate NumberOf(num: int, i: nat) { num == i % SEQ_MOD }

  lemma NamesMeans(num: int, got: nat, sent: nat)
    requires 0 <= num < SEQ_MOD && got <= sent
    ensures Names(num, got, sent) <==> exists i: nat :: got <= i < sent && NumberOf(num, i)
  {
    var d := (num - got) % SEQ_MOD;
    AckdAdvances(got, num, d);
    if Names(num, got, sent) { assert NumberOf(num, got + d); }
    forall i: nat | got <= i < sent && NumberOf(num, i) ensures Names(num, got, sent) { ModDiff(i, got, 0); }
  }

  /** A number made earlier names no later TLP while fewer than 4096 lie between. */
  lemma OldNumber(n: nat, got: nat, sent: nat, num: int)
    requires n <= got <= sent <= n + 4095 && num == (n - 1) % SEQ_MOD
    ensures !Names(num, got, sent)
  {
    ModDiff(num, got, 0);
    ModDiff(n - 1, got, 0);
  }

  /** The packet the left end would receive next, if it is an Ack or Nak that is
      looked at, names no TLP that the right end has still to accept. */
  predicate ReadOk(n: Net) {
    n.ba != [] && IsAck(n.ba[0]) && n.a.d.st == ACTIVE ==> !Names(n.ba[0].p.dllp.num, |n.b.got|, |n.a.sent|)
  }

  // ------------------------------------------------------------ transmitting

  /** What an end puts on the wire, by its twin number. */
  lemma SendOut(k: Knobs, e: End, cycle: int)
    requires TxOk(e) && RxOk(e)
    ensures var (e1, out) := EndSend(k, e, cycle);
      && |out| <= 1 && e.sent <= e1.sent && Acked(e1) == Acked(e)
      && (forall w | w in out && GoodTlp(w) :: TlpFits(w, e1.sent, |e.sent|) && e1.d.st == ACTIVE)
      && (forall w | w in out && IsAck(w) :: AckFits(w, |e.got|) && (w.n == |e.got| || NakNumber(e, w.n)))
  {
    var (d, p) := Spec.NextPacket(k, e.d, cycle);
    ModDiff(|e.sent|, 0, 1);
    if e.d.q != [] && |d.q| < |e.d.q| {
    } else if Spec.AckReady(e.d, cycle) {
    } else if e.d.st == ACTIVE && e.d.flow.updNow == {} && e.d.tx.replayQ != [] {
      assert (d, p) == Spec.SendReplay(e.d, cycle);
    } else if |d.tx.tlpQ| < |e.d.tx.tlpQ| {
      assert (d, p) == Spec.SendNew(e.d, cycle);
      SendNewTx(e, cycle);
    }
  }

  predicate NakNumber(e: End, n: nat) {
    |e.qn| == |e.d.q| && exists i | 0 <= i < |e.d.q| :: e.d.q[i].Nak? && e.qn[i] == n
  }

  lemma DataSend(k: Knobs, tx: End, rx: End, fwd: seq<Wire>, cycle: int)
    requires TxOk(tx) && RxOk(tx) && DataOk(tx, rx, fwd)
    ensures var (tx1, out) := EndSend(k, tx, cycle); DataOk(tx1, rx, fwd + out)
  {
    SendOut(k, tx, cycle);
  }

  // --------------------------------------------------------------- receiving

  /** The window test on twin numbers: an Ack or Nak made when `n` TLPs were
      accepted is taken when it names ACKD_SEQ or an unacknowledged TLP, and
      rejected when it lags by at most 2048. */
  lemma AckWindow(tx: Tx, sent: seq<Tlp>, num: int, n: nat)
    requires TxRun(tx, sent) && num == (n - 1) % SEQ_MOD && n <= |sent|
    requires |sent| - |tx.retry| <= n + 2048
    ensures var acked := |sent| - |tx.retry|;
      (num - tx.ackd) % SEQ_MOD == (if acked <= n then n - acked else SEQ_MOD - (acked - n))
    ensures Spec.Unacked(tx) == |tx.retry|
  {
    UnackedIsRetry(tx, sent);
    ModDiff(n - 1, |sent| - |tx.retry| - 1, 0);
  }

  /** Where an Ack or Nak takes the transmit side. */
  lemma AckMoves(e: End, nak: bool, num: int, n: nat, now: int)
    requires TxOk(e) && num == (n - 1) % SEQ_MOD && n <= |e.sent| && Acked(e) <= n + 2048
    ensures var d := Spec.AckNak(e.d, nak, num, now);
      |d.tx.retry| == if Acked(e) <= n then |e.sent| - n else |e.d.tx.retry|
  {
    AckWindow(e.d.tx, e.sent, num, n);
    if Acked(e) <= n { TakeAckRun(e.d.tx, e.sent, num, n - Acked(e), now); }
  }

  /** A number at distance `j` past ACKD_SEQ, against the accepted TLPs. */
  lemma NamesByDistance(base: int, j: nat, got: int, sent: int)
    requires base < got <= sent <= base + 2048 && j < SEQ_MOD
    ensures (((base + j) % SEQ_MOD - got) % SEQ_MOD < sent - got) <==> got <= base + j < sent
  {
    ModDiff(base + j, got, 0);
    ModDiff((base + j) % SEQ_MOD, got, 0);
  }

  /** The number read against what the peer has accepted: the TLPs that leave the
      retry buffer are all accepted ones exactly unless it names another. */
  lemma AckExact(e: End, got: nat, nak: bool, num: int, now: int)
    requires TxOk(e) && 0 <= num < SEQ_MOD && Acked(e) <= got <= |e.sent|
    ensures Acked(e.(d := Spec.AckNak(e.d, nak, num, now))) <= got <==> !Names(num, got, |e.sent|)
  {
    var base := Acked(e) - 1;
    var j := (num - e.d.tx.ackd) % SEQ_MOD;
    AckdAdvances(base, num, j);
    AckWindowExact(e.d, e.sent, nak, j, now);
    NamesByDistance(base, j, got, |e.sent|);
  }

  /** What one received packet does to the transmit side, exactly. */
  lemma ReadExact(k: Knobs, n: Net, endT: nat, now: int)
    requires Intact(n)
    ensures var a1 := Step(k, n, Receive(endT, now)).a;
      a1.sent == n.a.sent && (Acked(a1) <= |n.b.got| <==> ReadOk(n))
  {
    if n.ba != [] {
      var w := n.ba[0];
      match w.p
      case Control(m) => if n.a.d.st == ACTIVE && IsAck(w) { AckExact(n.a, |n.b.got|, m.Nak?, m.num, now); }
      case Data(_, _, _, _) => TlpKeepsTx(k, n.a.d, w.p, endT, now);
      case Junk =>
    }
  }

  /** The mod-4096 comparisons of on_tlp decide as the unbounded numbers do. */
  lemma SeqDecides(num: int, n: nat, got: nat)
    requires num == n % SEQ_MOD && n < got + 2047 && got <= n + 2047
    ensures num == got % SEQ_MOD <==> n == got
    ensures (got % SEQ_MOD - num) % SEQ_MOD <= 2048 <==> n <= got
  {
    ModDiff(got, n, 0);
    ModGap(got, n);
  }

  lemma ModGap(x: int, y: int)
    requires -SEQ_MOD < x - y < SEQ_MOD
    ensures x % SEQ_MOD == y % SEQ_MOD <==> x == y
  {
    ModDiff(x, y, 0);
  }

  lemma ReceiveAsRx(k: Knobs, tx: End, rx: End, fwd: seq<Wire>, endT: nat, now: int)
    requires TxOk(tx) && RxOk(rx) && DataOk(tx, rx, fwd) && fwd != []
    ensures DataOk(tx, EndReceive(k, rx, fwd[0], endT, now), fwd[1..])
  {
    var w := fwd[0];
    var rx1 := EndReceive(k, rx, w, endT, now);
    if w.p.Data? {
      TlpCases(k, rx, w.p, endT, now);
      if GoodTlp(w) {
        assert TlpFits(w, tx.sent, |rx.got|);
        SeqDecides(w.p.num, w.n, |rx.got|);
        assert rx1.got == rx.got || (w.n == |rx.got| && rx1.got == rx.got + [tx.sent[w.n]]);
      }
    }
    assert rx1.got <= tx.sent;
    assert |rx1.got| <= |rx.got| + 1;
  }

  // ----------------------------------------------------------- single steps

  lemma LocalStep(k: Knobs, e: End, act: Act)
    requires TxOk(e) && RxOk(e) && IsLocal(act)
    ensures var e1 := EndLocal(k, e, act);
      TxOk(e1) && RxOk(e1) && e1.sent == e.sent && e1.got == e.got && Acked(e1) == Acked(e)
  {
    if act.Clock? {
      TickTx(k, e, act.cycle);
      TickRx(k, e, act.cycle);
    }
  }

  lemma ReceiveLocal(k: Knobs, e: End, w: Wire, endT: nat, now: int)
    requires TxOk(e) && RxOk(e) && (w.p.Control? ==> Carried(w.p.dllp))
    ensures var e1 := EndReceive(k, e, w, endT, now); TxOk(e1) && RxOk(e1) && |e.got| <= |e1.got|
  {
    match w.p
    case Control(m) => DllpTx(k, e, m, w.n, now); DllpRx(k, e, m, w.n, now);
    case Data(_, _, _, _) => TlpTx(k, e, w.p, endT, now); TlpRx(k, e, w.p, endT, now); TlpCases(k, e, w.p, endT, now);
    case Junk =>
  }

  /** Lost and damaged packets, one channel at a time. */
  lemma Faults(k: Knobs, n: Net, act: Act)
    requires act.Lose? || act.Damage?
    ensures var ab := Step(k, n, act).ab;
      && (AcksOk(n.a, n.ab) ==> AcksOk(n.a, ab))
      && (DataOk(n.a, n.b, n.ab) ==> DataOk(n.a, n.b, ab))
  {
    var ab := Step(k, n, act).ab;
    if act.Lose? && act.i < |n.ab| {
      assert forall j | 0 <= j < |ab| :: ab[j] == n.ab[if j < act.i then j else j + 1];
    } else if act.Damage? && act.i < |n.ab| {
      assert !GoodTlp(ab[act.i]) && !IsAck(ab[act.i]);
      assert forall j | 0 <= j < |ab| && j != act.i :: ab[j] == n.ab[j];
    }
  }

  /** Retry buffer, replay queue, receive side and the numbers under way agree
      with the twins after every step, whatever is read. */
  lemma SoundStep(k: Knobs, n: Net, act: Act)
    requires Sound(n)
    ensures Sound(Step(k, n, act))
  {
    match act
    case Transmit(cycle) =>
      SendTx(k, n.a, cycle);
      SendRx(k, n.a, cycle);
      SendOut(k, n.a, cycle);
    case Receive(endT, now) =>
      if n.ba != [] {
        if IsAck(n.ba[0]) { assert AckFits(n.ba[0], |n.b.got|); }
        ReceiveLocal(k, n.a, n.ba[0], endT, now);
      }
    case Lose(_) => Faults(k, n, act);
    case Damage(_) => Faults(k, n, act);
    case _ => LocalStep(k, n.a, act);
  }

  /** A step of the sending end keeps delivery intact exactly unless it reads the
      number of a TLP not accepted yet. */
  lemma SenderStep(k: Knobs, n: Net, act: Act)
    requires Intact(n)
    ensures Intact(Step(k, n, act)) <==> (act.Receive? ==> ReadOk(n))
    ensures Acked(Step(k, n, act).a) <= |n.b.got| <==> (act.Receive? ==> ReadOk(n))
    ensures Step(k, n, act).b == n.b
  {
    SoundStep(k, n, act);
    match act
    case Transmit(cycle) => DataSend(k, n.a, n.b, n.ab, cycle); SendOut(k, n.a, cycle);
    case Receive(endT, now) => ReadExact(k, n, endT, now);
    case Lose(_) => Faults(k, n, act);
    case Damage(_) => Faults(k, n, act);
    case _ => LocalStep(k, n.a, act);
  }

  /** A step of the receiving end, the left one here, always does. */
  lemma ReceiverStep(k: Knobs, n: Net, act: Act)
    requires Intact(Swap(n))
    ensures Intact(Swap(Step(k, n, act)))
    ensures |n.a.got| <= |Step(k, n, act).a.got|
  {
    SoundStep(k, n, act);
    match act
    case Transmit(cycle) => SendRx(k, n.a, cycle);
    case Receive(endT, now) =>
      if n.ba != [] {
        if IsAck(n.ba[0]) { assert AckFits(n.ba[0], |n.b.got|); }
        ReceiveAsRx(k, n.b, n.a, n.ba, endT, now);
        ReceiveLocal(k, n.a, n.ba[0], endT, now);
      }
    case Lose(_) =>
    case Damage(_) =>
    case _ => LocalStep(k, n.a, act);
  }

  /** Both directions at once: every offer, tick, transmission, reception, loss and
      damage keeps the invariant, exactly unless a reception misreads a number. */
  lemma StepInv(k: Knobs, n: Net, act: Act)
    requires Inv(n)
    ensures Inv(Step(k, n, act)) <==> (act.Receive? ==> ReadOk(n))
  {
    SenderStep(k, n, act);
    ReceiverStep(k, n, act);
  }

  // ------------------------------------------------------- whole schedules

  /** The net with the sender of a direction on the left. */
  function From(n: Net, left: bool): Net { if left then n else Swap(n) }

  predicate IsRead(m: Move, left: bool) { m.Left? == left && m.act.Receive? }

  /** Whenever the sender of the direction reads an Ack or Nak, it names no TLP
      still to be accepted. */
  predicate Reads(ka: Knobs, kb: Knobs, n: Net, moves: seq<Move>, left: bool)
    decreases |moves|
  {
    moves == [] ||
    var before, m := moves[..|moves| - 1], moves[|moves| - 1];
    Reads(ka, kb, n, before, left) && (IsRead(m, left) ==> ReadOk(From(Run(ka, kb, n, before), left)))
  }

  predicate ReadsOk(ka: Knobs, kb: Knobs, n: Net, moves: seq<Move>) {
    Reads(ka, kb, n, moves, true) && Reads(ka, kb, n, moves, false)
  }

  /** No TLP of the left end has left its retry buffer without being accepted. */
  predicate Kept(n: Net) { Acked(n.a) <= |n.b.got| }

  predicate AlwaysKept(ka: Knobs, kb: Knobs, n: Net, moves: seq<Move>, left: bool)
    decreases |moves|
  {
    Kept(From(Run(ka, kb, n, moves), left)) &&
    (moves != [] ==> AlwaysKept(ka, kb, n, moves[..|moves| - 1], left))
  }

  lemma MoveSound(ka: Knobs, kb: Knobs, n: Net, m: Move)
    requires Sound(n)
    ensures Sound(Play(ka, kb, n, m))
  {
    match m
    case Left(act) => SoundStep(ka, n, act);
    case Right(act) => SoundStep(kb, Swap(n), act);
  }

  lemma MoveExact(ka: Knobs, kb: Knobs, n: Net, m: Move, left: bool)
    requires Intact(From(n, left))
    ensures var n1 := From(Play(ka, kb, n, m), left);
      && (Intact(n1) <==> (IsRead(m, left) ==> ReadOk(From(n, left))))
      && (Kept(n1) <==> (IsRead(m, left) ==> ReadOk(From(n, left))))
  {
    match m
    case Left(act) => if left { SenderStep(ka, n, act); } else { ReceiverStep(ka, n, act); }
    case Right(act) => if left { ReceiverStep(kb, Swap(n), act); } else { SenderStep(kb, Swap(n), act); }
  }

  lemma {:induction false} RunSound(ka: Knobs, kb: Knobs, n: Net, moves: seq<Move>)
    requires Sound(n)
    ensures Sound(Run(ka, kb, n, moves))
    decreases |moves|
  {
    if moves == [] {
    } else {
      RunSound(ka, kb, n, moves[..|moves| - 1]);
      MoveSound(ka, kb, Run(ka, kb, n, moves[..|moves| - 1]), moves[|moves| - 1]);
    }
  }

  /** One direction on one schedule: nothing is ever forgotten exactly when nothing
      is ever misread, and delivery is then intact. */
  lemma {:induction false} RunExact(ka: Knobs, kb: Knobs, n: Net, moves: seq<Move>, left: bool)
    requires Intact(From(n, left))
    ensures Reads(ka, kb, n, moves, left) <==> AlwaysKept(ka, kb, n, moves, left)
    ensures Reads(ka, kb, n, moves, left) ==> Intact(From(Run(ka, kb, n, moves), left))
    decreases |moves|
  {
    if moves == [] {
    } else {
      var before := moves[..|moves| - 1];
      RunExact(ka, kb, n, before, left);
      if Reads(ka, kb, n, before, left) {
        MoveExact(ka, kb, Run(ka, kb, n, before), moves[|moves| - 1], left);
      }
    }
  }

  lemma RunInv(ka: Knobs, kb: Knobs, n: Net, moves: seq<Move>)
    requires Inv(n) && ReadsOk(ka, kb, n, moves)
    ensures Inv(Run(ka, kb, n, moves))
  {
    RunExact(ka, kb, n, moves, true);
    RunExact(ka, kb, n, moves, false);
  }

  lemma BootInv(ka: Knobs, kb: Knobs)
    ensures Inv(Boot(ka, kb))
  {
  }

  /** Accepted is a prefix of sent, sent one of offered, and what is not accepted
      is still in the retry buffer. */
  predicate Delivers(n: Net) { n.b.got <= n.a.sent <= n.a.offered && Kept(n) }

  /** Exactly once and in order, and nothing forgotten: on every schedule from
      reset, through any number of wraps of the 12-bit numbers and for each
      direction by itself, no TLP leaves the sender's retry buffer before it was
      accepted if and only if the sender never reads an Ack or Nak that names a TLP
      still to be accepted; and then what the receiver has accepted is a prefix of
      what was sent, which is a prefix of what was offered. */
  lemma ExactlyOnceInOrder(ka: Knobs, kb: Knobs, moves: seq<Move>, left: bool)
    ensures var boot := Boot(ka, kb);
      && (Reads(ka, kb, boot, moves, left) <==> AlwaysKept(ka, kb, boot, moves, left))
      && (Reads(ka, kb, boot, moves, left) ==> Delivers(From(Run(ka, kb, boot, moves), left)))
  {
    BootInv(ka, kb);
    RunExact(ka, kb, Boot(ka, kb), moves, left);
  }
}
