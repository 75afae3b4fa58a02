/** Conditions under which no Ack or Nak is ever misread. A queued Nak that
    leaves before 2048 further TLPs are accepted is enough; and for that it is
    enough that no Nak is queued behind another and that an end transmits at least
    once in 2048 receptions. */
module LinkPrompt {
  import opened DllTypes
  import Spec = DllSpec
  import opened Link
  import opened LinkLocal
  import opened LinkSafety
  import opened LinkCredits
  import LinkRecovery

  // ------------------------------------------------------------ prompt Naks

  /** Every queued Nak names a TLP at most 2048 behind the newest accepted one. */
  predicate Prompt(e: End) {
    |e.qn| == |e.d.q| && forall i | 0 <= i < |e.d.q| && e.d.q[i].Nak? :: |e.got| <= e.qn[i] + 2048
  }

  predicate PromptRun(ka: Knobs, kb: Knobs, n: Net, moves: seq<Move>)
    decreases |moves|
  {
    Prompt(Run(ka, kb, n, moves).a) && Prompt(Run(ka, kb, n, moves).b) &&
    (moves != [] ==> PromptRun(ka, kb, n, moves[..|moves| - 1]))
  }

  /** No Ack or Nak under way to `tx` lags ACKD_SEQ, or one behind it, by more
      than half the number space. */
  predicate Timely(tx: End, back: seq<Wire>) {
    && (forall i | 0 <= i < |back| && IsAck(back[i]) :: Acked(tx) <= back[i].n + 2048)
    && (forall i, j | 0 <= i < j < |back| && IsAck(back[i]) && IsAck(back[j]) :: back[i].n <= back[j].n + 2048)
  }

  predicate AllTimely(n: Net) { Timely(n.a, n.ba) && Timely(n.b, n.ab) }

  lemma TimelyRead(n: Net)
    requires Intact(n) && Timely(n.a, n.ba)
    ensures ReadOk(n)
  {
    if n.ba != [] && IsAck(n.ba[0]) {
      var w := n.ba[0];
      assert AckFits(w, |n.b.got|);
      ModDiff(w.n - 1, |n.b.got|, 0);
      OldNumber(w.n, |n.b.got|, |n.a.sent|, w.p.dllp.num);
    }
  }

  lemma TimelySend(k: Knobs, rx: End, tx: End, back: seq<Wire>, cycle: int)
    requires TxOk(rx) && RxOk(rx) && Prompt(rx) && Acked(tx) <= |rx.got|
    requires AcksOk(rx, back) && Timely(tx, back)
    ensures Timely(tx, back + EndSend(k, rx, cycle).1)
  {
    SendOut(k, rx, cycle);
    var out := EndSend(k, rx, cycle).1;
    forall w | w in out && IsAck(w) ensures |rx.got| <= w.n + 2048 {}
    assert forall i | 0 <= i < |back| && IsAck(back[i]) :: AckFits(back[i], |rx.got|);
  }

  lemma TimelyReceive(k: Knobs, n: Net, endT: nat, now: int)
    requires Inv(n) && AllTimely(n)
    ensures AllTimely(Step(k, n, Receive(endT, now)))
  {
    if n.ba != [] {
      var w := n.ba[0];
      var a1 := EndReceive(k, n.a, w, endT, now);
      match w.p
      case Control(m) =>
        if n.a.d.st == ACTIVE && IsAck(w) {
          assert AckFits(w, |n.b.got|);
          AckMoves(n.a, m.Nak?, m.num, w.n, now);
          assert Acked(a1) == Acked(n.a) || Acked(a1) == w.n;
        }
      case Data(_, _, _, _) => TlpKeepsTx(k, n.a.d, w.p, endT, now);
      case Junk =>
    }
  }

  lemma TimelyFaults(k: Knobs, n: Net, act: Act)
    requires AllTimely(n) && (act.Lose? || act.Damage?)
    ensures AllTimely(Step(k, n, act))
  {
    var ab := Step(k, n, act).ab;
    if act.Lose? && act.i < |n.ab| {
      assert forall j | 0 <= j < |ab| :: ab[j] == n.ab[if j < act.i then j else j + 1];
    } else if act.Damage? && act.i < |n.ab| {
      assert !IsAck(ab[act.i]);
      assert forall j | 0 <= j < |ab| && j != act.i :: ab[j] == n.ab[j];
    }
  }

  lemma TimelyStep(k: Knobs, n: Net, act: Act)
    requires Inv(n) && AllTimely(n) && Prompt(n.a)
    ensures AllTimely(Step(k, n, act)) && Inv(Step(k, n, act)) && ReadOk(n)
  {
    TimelyRead(n);
    StepInv(k, n, act);
    match act
    case Transmit(cycle) => TimelySend(k, n.a, n.b, n.ab, cycle); SendOut(k, n.a, cycle);
    case Receive(endT, now) => TimelyReceive(k, n, endT, now);
    case Lose(_) => TimelyFaults(k, n, act);
    case Damage(_) => TimelyFaults(k, n, act);
    case _ => LocalStep(k, n.a, act);
  }

  /** Prompt Naks are never misread, nor is any Ack. */
  lemma {:induction false} PromptReads(ka: Knobs, kb: Knobs, moves: seq<Move>)
    requires PromptRun(ka, kb, Boot(ka, kb), moves)
    ensures ReadsOk(ka, kb, Boot(ka, kb), moves)
    ensures Inv(Run(ka, kb, Boot(ka, kb), moves)) && AllTimely(Run(ka, kb, Boot(ka, kb), moves))
    decreases |moves|
  {
    BootInv(ka, kb);
    if moves == [] {
    } else {
      var before := moves[..|moves| - 1];
      PromptReads(ka, kb, before);
      var n := Run(ka, kb, Boot(ka, kb), before);
      match moves[|moves| - 1]
      case Left(act) => TimelyStep(ka, n, act);
      case Right(act) => TimelyStep(kb, Swap(n), act);
    }
  }

  /** Nor do the queued ones name a missing TLP: after such a past both directions
      recover (LinkRecovery.BothRecover). */
  lemma PromptNoneStale(n: Net)
    requires Inv(n) && Prompt(n.b)
    ensures LinkRecovery.NoneStale(n)
  {
    forall i | 0 <= i < |n.b.d.q| && n.b.d.q[i].Nak?
      ensures !Names(n.b.d.q[i].num, |n.b.got|, |n.a.sent|)
    {
      OldNumber(n.b.qn[i], |n.b.got|, |n.a.sent|, n.b.d.q[i].num);
    }
  }

  // ------------------------------------------------------------------- pace

  /** Receptions of an end since it last transmitted. */
  function Since(moves: seq<Move>, left: bool): nat
    decreases |moves|
  {
    if moves == [] then 0
    else
      var m, n := moves[|moves| - 1], Since(moves[..|moves| - 1], left);
      if m.Left? != left then n else if m.act.Receive? then n + 1 else if m.act.Transmit? then 0 else n
  }

  predicate NakWaits(e: End) { exists i | 0 <= i < |e.d.q| :: e.d.q[i].Nak? }

  /** The left end queues a Nak in this step. */
  predicate QueuesNak(k: Knobs, n: Net, act: Act) { act.Receive? && |Step(k, n, act).a.d.q| > |n.a.d.q| }

  predicate PacedMove(k: Knobs, n: Net, act: Act, since: nat) {
    act.Receive? ==> since < 2048 && (QueuesNak(k, n, act) ==> !NakWaits(n.a))
  }

  /** No Nak is queued while an earlier one waits, and no end receives more than
      2048 packets without a chance to transmit. In L0 the transmit scheduler meets
      the second part by itself: it turns to the Data Link Layer after at most one
      TLP, and 2048 received packets take 16384 Symbols or more. The first part only
      asks that errors do not strike twice, with a TLP accepted in between, while
      one packet leaves. */
  predicate Paced(ka: Knobs, kb: Knobs, n: Net, moves: seq<Move>)
    decreases |moves|
  {
    moves == [] ||
    var before, m := moves[..|moves| - 1], moves[|moves| - 1];
    Paced(ka, kb, n, before) &&
    PacedMove(if m.Left? then ka else kb, From(Run(ka, kb, n, before), m.Left?), m.act, Since(before, m.Left?))
  }

  /** No Nak is queued, or one, in front. */
  predicate FreshNaks(e: End, since: nat) {
    since <= 2048 && |e.qn| == |e.d.q| &&
    forall i | 0 <= i < |e.d.q| && e.d.q[i].Nak? :: since > 0 && i == 0 && |e.got| <= e.qn[i] + since
  }

  predicate BothFresh(n: Net, moves: seq<Move>) {
    FreshNaks(n.a, Since(moves, true)) && FreshNaks(n.b, Since(moves, false))
  }

  lemma ReceiveFresh(k: Knobs, e: End, w: Wire, endT: nat, now: int, since: nat)
    requires FreshNaks(e, since) && since < 2048
    requires |EndReceive(k, e, w, endT, now).d.q| > |e.d.q| ==> !NakWaits(e)
    ensures FreshNaks(EndReceive(k, e, w, endT, now), since + 1)
  {
    match w.p
    case Control(m) => DllpKeeps(k, e.d, m, now);
    case Data(_, _, _, _) => TlpCases(k, e, w.p, endT, now);
    case Junk =>
  }

  lemma SendFresh(k: Knobs, e: End, cycle: int, since: nat)
    requires RxOk(e) && FreshNaks(e, since)
    ensures FreshNaks(EndSend(k, e, cycle).0, 0) && !NakWaits(EndSend(k, e, cycle).0)
  {
  }

  function Next(act: Act, since: nat): nat {
    if act.Receive? then since + 1 else if act.Transmit? then 0 else since
  }

  lemma StepFresh(k: Knobs, n: Net, act: Act, since: nat)
    requires RxOk(n.a) && FreshNaks(n.a, since) && PacedMove(k, n, act, since)
    ensures FreshNaks(Step(k, n, act).a, Next(act, since)) && Step(k, n, act).b == n.b
  {
    match act
    case Transmit(cycle) => SendFresh(k, n.a, cycle, since);
    case Receive(endT, now) => if n.ba != [] { ReceiveFresh(k, n.a, n.ba[0], endT, now, since); }
    case Lose(_) =>
    case Damage(_) =>
    case _ =>
  }

  lemma FreshIsPrompt(e: End, since: nat)
    requires FreshNaks(e, since)
    ensures Prompt(e)
  {
  }

  /** A paced schedule keeps every Nak prompt, from reset on. */
  lemma {:induction false} PacedIsPrompt(ka: Knobs, kb: Knobs, moves: seq<Move>)
    requires Paced(ka, kb, Boot(ka, kb), moves)
    ensures PromptRun(ka, kb, Boot(ka, kb), moves) && BothFresh(Run(ka, kb, Boot(ka, kb), moves), moves)
    decreases |moves|
  {
    if moves == [] {
      assert BothFresh(Boot(ka, kb), []);
    } else {
      var before, m := moves[..|moves| - 1], moves[|moves| - 1];
      PacedIsPrompt(ka, kb, before);
      BootInv(ka, kb);
      RunSound(ka, kb, Boot(ka, kb), before);
      var n := Run(ka, kb, Boot(ka, kb), before);
      match m
      case Left(act) => StepFresh(ka, n, act, Since(before, true));
      case Right(act) => StepFresh(kb, Swap(n), act, Since(before, false));
    }
    FreshIsPrompt(Run(ka, kb, Boot(ka, kb), moves).a, Since(moves, true));
    FreshIsPrompt(Run(ka, kb, Boot(ka, kb), moves).b, Since(moves, false));
  }

  // ------------------------------------------- a condition on schedules alone

  /** An end transmits at least once in two receptions. */
  predicate TwoPerTurn(moves: seq<Move>)
    decreases |moves|
  {
    moves == [] ||
    var before, m := moves[..|moves| - 1], moves[|moves| - 1];
    TwoPerTurn(before) && (m.act.Receive? ==> Since(before, m.Left?) < 2)
  }

  /** A Nak queued by the last reception has set NAK_SCHEDULED. */
  predicate Scheduled(e: End, since: nat) { since <= 1 && NakWaits(e) ==> e.d.rx.nakScheduled }

  lemma StepScheduled(k: Knobs, n: Net, act: Act, since: nat)
    requires RxOk(n.a) && FreshNaks(n.a, since) && Scheduled(n.a, since) && (act.Receive? ==> since < 2)
    ensures PacedMove(k, n, act, since) && Scheduled(Step(k, n, act).a, Next(act, since)) && Step(k, n, act).b == n.b
  {
    if act.Receive? {
      if n.ba != [] { ReceiveScheduled(k, n.a, n.ba[0], act.endT, act.now); }
    } else if act.Transmit? {
      SendFresh(k, n.a, act.cycle, since);
    }
  }

  lemma ReceiveScheduled(k: Knobs, e: End, w: Wire, endT: nat, now: int)
    ensures var e1 := EndReceive(k, e, w, endT, now);
      |e1.d.q| > |e.d.q| ==> !e.d.rx.nakScheduled && e1.d.rx.nakScheduled
    ensures var e1 := EndReceive(k, e, w, endT, now); e1.d.q == e.d.q || |e1.d.q| > |e.d.q|
  {
    match w.p
    case Control(m) => DllpKeeps(k, e.d, m, now);
    case Data(_, _, _, _) => TlpQueues(k, e.d, w.p, endT, now);
    case Junk =>
  }

  lemma TlpQueues(k: Knobs, d: DllState, m: Packet, endT: nat, now: int)
    requires m.Data?
    ensures var d1 := Spec.OnTlp(k, d, m, endT, now).0;
      d1.q == d.q ||
      (|d1.q| > |d.q| && !d.rx.nakScheduled && d1.rx.nakScheduled && Spec.OnTlp(k, d, m, endT, now).1.None?)
  {
  }

  lemma {:induction false} TwoPerTurnIsPaced(ka: Knobs, kb: Knobs, moves: seq<Move>)
    requires TwoPerTurn(moves)
    ensures Paced(ka, kb, Boot(ka, kb), moves)
    ensures BothScheduled(Run(ka, kb, Boot(ka, kb), moves), moves)
    decreases |moves|
  {
    if moves == [] {
    } else {
      var before := moves[..|moves| - 1];
      TwoPerTurnIsPaced(ka, kb, before);
      PacedIsPrompt(ka, kb, before);
      BootInv(ka, kb);
      RunSound(ka, kb, Boot(ka, kb), before);
      MoveScheduled(ka, kb, Run(ka, kb, Boot(ka, kb), before), moves);
    }
  }

  predicate BothScheduled(n: Net, moves: seq<Move>) {
    Scheduled(n.a, Since(moves, true)) && Scheduled(n.b, Since(moves, false))
  }

  lemma MoveScheduled(ka: Knobs, kb: Knobs, n: Net, moves: seq<Move>)
    requires RxOk(n.a) && RxOk(n.b) && moves != [] && TwoPerTurn(moves)
    requires BothFresh(n, moves[..|moves| - 1]) && BothScheduled(n, moves[..|moves| - 1])
    ensures var before, m := moves[..|moves| - 1], moves[|moves| - 1];
      PacedMove(if m.Left? then ka else kb, From(n, m.Left?), m.act, Since(before, m.Left?)) &&
      BothScheduled(Play(ka, kb, n, m), moves)
  {
    var before := moves[..|moves| - 1];
    match moves[|moves| - 1]
    case Left(act) => StepScheduled(ka, n, act, Since(before, true));
    case Right(act) => StepScheduled(kb, Swap(n), act, Since(before, false));
  }

  /** So paced schedules deliver, exactly once and in order, with nothing forgotten,
      in both directions. */
  lemma PacedDelivers(ka: Knobs, kb: Knobs, moves: seq<Move>, left: bool)
    requires Paced(ka, kb, Boot(ka, kb), moves)
    ensures Delivers(From(Run(ka, kb, Boot(ka, kb), moves), left))
  {
    PacedIsPrompt(ka, kb, moves);
    PromptReads(ka, kb, moves);
    ExactlyOnceInOrder(ka, kb, moves, left);
  }

  /** Credit safety likewise. */
  lemma PacedCredits(ka: Knobs, kb: Knobs, moves: seq<Move>)
    requires LegalAdv(ka) && LegalAdv(kb) && Paced(ka, kb, Boot(ka, kb), moves)
    ensures var n := Run(ka, kb, Boot(ka, kb), moves);
      CreditInv(ka, kb, n) && CreditSafe(kb, n.a, n.b) && CreditSafe(ka, n.b, n.a) && NoOverflow(n.a) && NoOverflow(n.b)
  {
    PacedIsPrompt(ka, kb, moves);
    PromptReads(ka, kb, moves);
    CreditSafety(ka, kb, moves);
  }
}
