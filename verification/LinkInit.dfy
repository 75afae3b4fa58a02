/** Flow-control initialisation between two Data Link Layers: what each state
    tells about the peer, and that a link that is up always can become ACTIVE at
    both ends when nothing more is lost. */
module LinkInit {
  import opened Common
  import opened DllTypes
  import Spec = DllSpec
  import opened Link
  import opened LinkMoves

  predicate Early(e: End) { e.d.st == INACTIVE || e.d.st == FC_INIT1 }

  /** Past FC_INIT1: an InitFC2, an UpdateFC or a TLP. */
  predicate IsLate(w: Wire) {
    w.p.Data? || (w.p.Control? && (w.p.dllp.UpdateFC? || (w.p.dllp.InitFC? && w.p.dllp.phase == 2)))
  }

  /** An InitFC as the layer builds it. */
  predicate OwnInit(k: Knobs, m: Dllp) {
    m.InitFC? ==> m.vc == 0 && m.credit == k.adv.Get(m.fc) && (m.phase == 1 || m.phase == 2)
  }

  predicate AllRecorded(r: map<FcType, Credit>) { P in r && NP in r && CPL in r }

  /** What initialisation keeps true of one end. */
  predicate EndInit(k: Knobs, e: End) {
    && ((e.d.st == FC_INIT1 || e.d.st == FC_INIT2) ==> e.d.fcNext.Some?)
    && (Early(e) <==> !AllRecorded(e.d.flow.recorded))
    && (forall i | 0 <= i < |e.d.q| :: OwnInit(k, e.d.q[i]) && (e.d.q[i].InitFC? || e.d.q[i].Nak?) &&
          (Early(e) ==> !(e.d.q[i].InitFC? && e.d.q[i].phase == 2)))
    && (e.d.st == ACTIVE ==> forall t: FcType :: !Infinite(k.adv.Get(t)) ==> t in e.d.flow.updDue)
  }

  /** What it keeps true of the packets from `rx` to `tx`. */
  predicate WireInit(kr: Knobs, tx: End, rx: End, back: seq<Wire>) {
    && (Early(rx) ==> tx.d.st != ACTIVE)
    && (forall i | 0 <= i < |back| ::
          (Early(rx) ==> !IsLate(back[i])) && (back[i].p.Control? ==> OwnInit(kr, back[i].p.dllp)))
    && (forall t | t in tx.d.flow.recorded :: tx.d.flow.recorded[t] == kr.adv.Get(t))
  }

  predicate InitInv(ka: Knobs, kb: Knobs, n: Net) {
    EndInit(ka, n.a) && EndInit(kb, n.b) && WireInit(kb, n.a, n.b, n.ba) && WireInit(ka, n.b, n.a, n.ab)
  }

  // ------------------------------------------------------------ every step

  lemma EndInitLocal(k: Knobs, e: End, act: Act)
    requires EndInit(k, e) && IsLocal(act)
    ensures var e1 := EndLocal(k, e, act);
      EndInit(k, e1) && (Early(e1) <==> Early(e)) && (e1.d.st == ACTIVE <==> e.d.st == ACTIVE) &&
      e1.d.flow.recorded == e.d.flow.recorded
  {
    if act.Clock? {
      var q1 := EndTick(k, e, act.cycle).d.q;
      var phase := if e.d.st == FC_INIT1 then 1 else 2;
      assert q1 == e.d.q || (e.d.st != INACTIVE && q1 == e.d.q + Spec.InitSet(k, phase));
    }
  }

  lemma InitLocal(ka: Knobs, kb: Knobs, n: Net, act: Act)
    requires InitInv(ka, kb, n) && IsLocal(act)
    ensures InitInv(ka, kb, n.(a := EndLocal(ka, n.a, act)))
  {
    EndInitLocal(ka, n.a, act);
  }

  /** What sending leaves alone, and when a late packet is sent. */
  lemma SendInit(k: Knobs, e: End, cycle: int)
    requires EndInit(k, e)
    ensures var (e1, out) := EndSend(k, e, cycle);
      EndInit(k, e1) && e1.d.st == e.d.st && e1.d.flow.recorded == e.d.flow.recorded &&
      |out| <= 1 && forall w | w in out :: (Early(e) ==> !IsLate(w)) && (w.p.Control? ==> OwnInit(k, w.p.dllp))
  {
    var (d, p) := Spec.NextPacket(k, e.d, cycle);
    assert d.q == e.d.q || (e.d.q != [] && d.q == e.d.q[1..] && p == Some(Control(e.d.q[0])));
    assert d.st == e.d.st && d.flow.recorded == e.d.flow.recorded;
  }

  lemma InitTransmit(ka: Knobs, kb: Knobs, n: Net, cycle: int)
    requires InitInv(ka, kb, n)
    ensures InitInv(ka, kb, Step(ka, n, Transmit(cycle)))
  {
    SendInit(ka, n.a, cycle);
  }

  /** What a received packet does to the initialisation state. */
  lemma DllpInit(k: Knobs, kp: Knobs, e: End, m: Dllp, num: nat, now: int)
    requires EndInit(k, e) && OwnInit(kp, m)
    requires forall t | t in e.d.flow.recorded :: e.d.flow.recorded[t] == kp.adv.Get(t)
    ensures var e1 := EndDllp(k, e, m, num, now);
      && EndInit(k, e1) && (Early(e1) ==> Early(e))
      && (e1.d.st == ACTIVE ==> e.d.st == ACTIVE || (e.d.st == FC_INIT2 && IsLate(Wire(Control(m), num))))
      && (forall t | t in e1.d.flow.recorded :: e1.d.flow.recorded[t] == kp.adv.Get(t))
  {
    var d1 := Spec.OnDllp(k, e.d, m, now);
    assert d1.q == e.d.q;
  }

  lemma OnTlpInit(k: Knobs, d: DllState, m: Packet, endT: nat, now: int)
    requires m.Data?
    ensures var d1 := Spec.OnTlp(k, d, m, endT, now).0;
      && (d1.st == d.st || (d.st == FC_INIT2 && d1.st == ACTIVE)) && d1.flow.recorded == d.flow.recorded
      && (d1.q == d.q || (d1.st == ACTIVE && d1.q == [Nak((d.rx.nrs - 1) % SEQ_MOD)] + d.q))
  {
  }

  lemma TlpInit(k: Knobs, e: End, m: Packet, endT: nat, now: int)
    requires EndInit(k, e) && m.Data?
    ensures var e1 := EndTlp(k, e, m, endT, now);
      && EndInit(k, e1) && (Early(e1) ==> Early(e))
      && (e1.d.st == ACTIVE ==> e.d.st == ACTIVE || e.d.st == FC_INIT2)
      && e1.d.flow.recorded == e.d.flow.recorded
  {
    var e1 := EndTlp(k, e, m, endT, now);
    OnTlpInit(k, e.d, m, endT, now);
    TlpRest(k, e, m, endT, now);
  }

  lemma TlpRest(k: Knobs, e: End, m: Packet, endT: nat, now: int)
    requires m.Data?
    ensures var e1 := EndTlp(k, e, m, endT, now); var d1 := Spec.OnTlp(k, e.d, m, endT, now).0;
      e1.d.st == d1.st && e1.d.q == d1.q && e1.d.flow.recorded == d1.flow.recorded && e1.d.fcNext == e.d.fcNext &&
      e1.d.flow.updDue == d1.flow.updDue
  {
  }

  lemma InitReceive(ka: Knobs, kb: Knobs, n: Net, endT: nat, now: int)
    requires InitInv(ka, kb, n) && n.ba != []
    ensures InitInv(ka, kb, Step(ka, n, Receive(endT, now)))
  {
    var w := n.ba[0];
    match w.p
    case Control(m) => DllpInit(ka, kb, n.a, m, w.n, now);
    case Data(_, _, _, _) => TlpInit(ka, n.a, w.p, endT, now);
    case Junk =>
  }

  lemma InitFaults(ka: Knobs, kb: Knobs, n: Net, act: Act)
    requires InitInv(ka, kb, n) && (act.Lose? || act.Damage?)
    ensures InitInv(ka, kb, Step(ka, n, act))
  {
    var ab := Step(ka, n, act).ab;
    if act.Lose? && act.i < |n.ab| {
      assert forall j | 0 <= j < |ab| :: ab[j] == n.ab[if j < act.i then j else j + 1];
    } else if act.Damage? && act.i < |n.ab| {
      assert forall j | 0 <= j < |ab| && j != act.i :: ab[j] == n.ab[j];
    }
  }

  lemma InitStep(ka: Knobs, kb: Knobs, n: Net, act: Act)
    requires InitInv(ka, kb, n)
    ensures InitInv(ka, kb, Step(ka, n, act))
  {
    match act
    case Transmit(cycle) => InitTransmit(ka, kb, n, cycle);
    case Receive(endT, now) => if n.ba != [] { InitReceive(ka, kb, n, endT, now); }
    case Lose(_) => InitFaults(ka, kb, n, act);
    case Damage(_) => InitFaults(ka, kb, n, act);
    case _ => InitLocal(ka, kb, n, act);
  }

  lemma {:induction false} RunInit(ka: Knobs, kb: Knobs, n: Net, moves: seq<Move>)
    requires InitInv(ka, kb, n)
    ensures InitInv(ka, kb, Run(ka, kb, n, moves))
    decreases |moves|
  {
    if moves == [] {
    } else {
      var before := moves[..|moves| - 1];
      RunInit(ka, kb, n, before);
      var m := Run(ka, kb, n, before);
      match moves[|moves| - 1]
      case Left(act) => InitStep(ka, kb, m, act);
      case Right(act) => InitStep(kb, ka, Swap(m), act);
    }
  }

  lemma BootInit(ka: Knobs, kb: Knobs)
    ensures InitInv(ka, kb, Boot(ka, kb))
  {
  }

  /** The handshake's promise to one end about its peer. */
  predicate HandshakeSafe(kp: Knobs, e: End, peer: End) {
    && (e.d.st == ACTIVE ==> !Early(peer))
    && (!Early(e) <==> AllRecorded(e.d.flow.recorded))
    && (forall t | t in e.d.flow.recorded :: e.d.flow.recorded[t] == kp.adv.Get(t))
  }

  /** On every schedule whatever is lost: an ACTIVE end's peer has left FC_INIT1,
      and an end has left FC_INIT1 exactly when it has recorded its peer's own
      advertisement for P, NP and Cpl. */
  lemma HandshakeSafety(ka: Knobs, kb: Knobs, moves: seq<Move>)
    ensures var n := Run(ka, kb, Boot(ka, kb), moves); HandshakeSafe(kb, n.a, n.b) && HandshakeSafe(ka, n.b, n.a)
  {
    BootInit(ka, kb);
    RunInit(ka, kb, Boot(ka, kb), moves);
  }

  // --------------------------------------------------------------- liveness

  predicate Up(n: Net) { n.a.d.st != INACTIVE && n.b.d.st != INACTIVE }

  /** Neither end goes back. */
  predicate Forward(e: End, e1: End) {
    (e.d.st != INACTIVE ==> e1.d.st != INACTIVE) && (!Early(e) ==> !Early(e1)) &&
    (e.d.st == ACTIVE ==> e1.d.st == ACTIVE)
  }

  predicate Quiet(n: Net) { n.ab == [] && n.ba == [] }

  lemma ReceiveForward(k: Knobs, kp: Knobs, e: End, w: Wire, endT: nat, now: int)
    requires EndInit(k, e) && (w.p.Control? ==> OwnInit(kp, w.p.dllp))
    requires forall t | t in e.d.flow.recorded :: e.d.flow.recorded[t] == kp.adv.Get(t)
    ensures Forward(e, EndReceive(k, e, w, endT, now))
  {
    match w.p
    case Control(m) => DllpInit(k, kp, e, m, w.n, now);
    case Data(_, _, _, _) => TlpInit(k, e, w.p, endT, now);
    case Junk =>
  }

  /** Everything on its way to the left end is delivered. */
  lemma {:induction false} DeliverLeft(ka: Knobs, kb: Knobs, n: Net) returns (moves: seq<Move>)
    requires InitInv(ka, kb, n)
    ensures LossFree(moves)
    ensures var n1 := Run(ka, kb, n, moves);
      InitInv(ka, kb, n1) && n1.b == n.b && n1.ab == n.ab && n1.ba == [] && Forward(n.a, n1.a)
    decreases |n.ba|
  {
    if n.ba == [] {
      moves := [];
    } else {
      var m := Left(Receive(0, 0));
      var n0 := Play(ka, kb, n, m);
      InitReceive(ka, kb, n, 0, 0);
      ReceiveForward(ka, kb, n.a, n.ba[0], 0, 0);
      var rest := DeliverLeft(ka, kb, n0);
      RunOne(ka, kb, n, m);
      RunConcat(ka, kb, n, [m], rest);
      moves := [m] + rest;
    }
  }

  /** What one packet of initialisation does to its receiver. */
  lemma TakeInit(k: Knobs, kp: Knobs, e: End, m: Dllp, num: nat, endT: nat, now: int)
    requires EndInit(k, e) && OwnInit(kp, m) && e.d.st != INACTIVE
    requires forall t | t in e.d.flow.recorded :: e.d.flow.recorded[t] == kp.adv.Get(t)
    ensures var e1 := EndReceive(k, e, Wire(Control(m), num), endT, now);
      && (Early(e1) ==> e.d.flow.recorded.Keys <= e1.d.flow.recorded.Keys)
      && (Early(e1) && m.InitFC? ==> m.fc in e1.d.flow.recorded)
      && (!Early(e) && (m.UpdateFC? || (m.InitFC? && m.phase == 2)) ==> e1.d.st == ACTIVE)
  {
  }

  predicate Contains(q: seq<Dllp>, t: FcType) { exists i | 0 <= i < |q| :: q[i].InitFC? && q[i].fc == t }

  predicate HasInit2(q: seq<Dllp>) { exists i | 0 <= i < |q| :: q[i].InitFC? && q[i].phase == 2 }

  /** The right end, not yet ACTIVE, sends its whole queue. */
  lemma {:induction false} PumpQueue(ka: Knobs, kb: Knobs, n: Net) returns (moves: seq<Move>)
    requires InitInv(ka, kb, n) && Up(n) && n.b.d.st != ACTIVE && n.ba == []
    ensures LossFree(moves)
    ensures var n1 := Run(ka, kb, n, moves);
      && InitInv(ka, kb, n1) && n1.ba == [] && n1.ab == n.ab && Forward(n.a, n1.a)
      && n1.b.d.st == n.b.d.st
      && (Early(n1.a) ==> n.a.d.flow.recorded.Keys <= n1.a.d.flow.recorded.Keys)
      && (Early(n1.a) ==> forall t: FcType :: Contains(n.b.d.q, t) ==> t in n1.a.d.flow.recorded)
      && (!Early(n.a) && HasInit2(n.b.d.q) ==> n1.a.d.st == ACTIVE)
    decreases |n.b.d.q|
  {
    if n.b.d.q == [] {
      moves := [];
    } else {
      var step := Pass(0, 0);
      var n0 := Run(ka, kb, n, step);
      PassRight(ka, kb, n, 0, 0);
      RunInit(ka, kb, n, step);
      PopHead(ka, kb, n, n0);
      var rest := PumpQueue(ka, kb, n0);
      RunConcat(ka, kb, n, step, rest);
      moves := step + rest;
      HeadOrRest(n.b.d.q);
    }
  }

  lemma HeadOrRest(q: seq<Dllp>)
    requires q != []
    ensures forall t: FcType :: Contains(q, t) ==> (q[0].InitFC? && q[0].fc == t) || Contains(q[1..], t)
    ensures HasInit2(q) ==> (q[0].InitFC? && q[0].phase == 2) || HasInit2(q[1..])
  {
    assert forall i | 1 <= i < |q| :: q[i] == q[1..][i - 1];
  }

  /** One packet of that queue. */
  lemma PopHead(ka: Knobs, kb: Knobs, n: Net, n0: Net)
    requires InitInv(ka, kb, n) && Up(n) && n.b.d.st != ACTIVE && n.ba == [] && n.b.d.q != []
    requires n0 == (var (b1, out) := EndSend(kb, n.b, 0);
                    Net(if out == [] then n.a else EndReceive(ka, n.a, out[0], 0, 0), b1, n.ab, []))
    ensures n0.b.d.q == n.b.d.q[1..] && n0.b.d.st == n.b.d.st && Forward(n.a, n0.a)
    ensures var m := n.b.d.q[0];
      && (Early(n0.a) ==> n.a.d.flow.recorded.Keys <= n0.a.d.flow.recorded.Keys)
      && (Early(n0.a) && m.InitFC? ==> m.fc in n0.a.d.flow.recorded)
      && (!Early(n.a) && m.InitFC? && m.phase == 2 ==> n0.a.d.st == ACTIVE)
  {
    var (b1, out) := EndSend(kb, n.b, 0);
    assert b1.d == n.b.d.(q := n.b.d.q[1..]) && |out| == 1 && out[0].p == Control(n.b.d.q[0]);
    TakeInit(ka, kb, n.a, n.b.d.q[0], out[0].n, 0, 0);
    ReceiveForward(ka, kb, n.a, out[0], 0, 0);
  }

  /** The right end's clock reaches its next InitFC set. */
  lemma NextSet(ka: Knobs, kb: Knobs, n: Net) returns (cycle: int)
    requires InitInv(ka, kb, n) && Up(n) && n.b.d.st != ACTIVE
    ensures var n1 := Run(ka, kb, n, [Right(Clock(cycle))]);
      && InitInv(ka, kb, n1) && n1.a == n.a && n1.ab == n.ab && n1.ba == n.ba && n1.b.d.st == n.b.d.st
      && (forall t: FcType :: Contains(n1.b.d.q, t))
      && (n.b.d.st == FC_INIT2 ==> HasInit2(n1.b.d.q))
  {
    cycle := n.b.d.fcNext.value;
    var m := Right(Clock(cycle));
    RunOne(ka, kb, n, m);
    InitStep(kb, ka, Swap(n), Clock(cycle));
    var q, q1 := n.b.d.q, Play(ka, kb, n, m).b.d.q;
    var phase := if n.b.d.st == FC_INIT1 then 1 else 2;
    assert q1 == q + Spec.InitSet(kb, phase);
    assert q1[|q|].fc == P && q1[|q| + 1].fc == NP && q1[|q| + 2].fc == CPL;
    assert q1[|q|].phase == phase;
    forall t: FcType ensures Contains(q1, t) {
      match t case P => case NP => case CPL =>
    }
  }

  /** The left end leaves FC_INIT1 once its peer sends one whole InitFC set. */
  lemma LeaveInit1(ka: Knobs, kb: Knobs, n: Net) returns (moves: seq<Move>)
    requires InitInv(ka, kb, n) && Up(n) && n.ba == []
    ensures LossFree(moves)
    ensures var n1 := Run(ka, kb, n, moves);
      InitInv(ka, kb, n1) && n1.ba == [] && n1.ab == n.ab && Forward(n.a, n1.a) && Forward(n.b, n1.b) && !Early(n1.a)
  {
    if !Early(n.a) { return []; }
    var cycle := NextSet(ka, kb, n);
    var tick := [Right(Clock(cycle))];
    var n0 := Run(ka, kb, n, tick);
    var pump := PumpQueue(ka, kb, n0);
    RunConcat(ka, kb, n, tick, pump);
    moves := tick + pump;
    var n1 := Run(ka, kb, n, moves);
    assert Contains(n0.b.d.q, P) && Contains(n0.b.d.q, NP) && Contains(n0.b.d.q, CPL);
    assert Early(n1.a) ==> AllRecorded(n1.a.d.flow.recorded);
  }

  predicate HasFinite(k: Knobs) { exists t: FcType :: !Infinite(k.adv.Get(t)) }

  /** An ACTIVE right end with an UpdateFC due sends what comes before it, then
      the UpdateFC. */
  lemma {:induction false} PumpUpdate(ka: Knobs, kb: Knobs, n: Net, cycle: int) returns (moves: seq<Move>)
    requires InitInv(ka, kb, n) && n.ba == [] && n.b.d.st == ACTIVE && n.b.d.flow.updNow != {}
    requires !Early(n.a)
    ensures LossFree(moves)
    ensures var n1 := Run(ka, kb, n, moves);
      InitInv(ka, kb, n1) && n1.ba == [] && n1.ab == n.ab && n1.a.d.st == ACTIVE && n1.b.d.st == ACTIVE
    decreases |n.b.d.q| + (if n.b.d.rx.ackDue.Some? then 1 else 0)
  {
    var step := Pass(cycle, 0);
    var n0 := Run(ka, kb, n, step);
    PumpOne(ka, kb, n, cycle);
    RunInit(ka, kb, n, step);
    if n0.a.d.st == ACTIVE {
      moves := step;
    } else {
      var rest := PumpUpdate(ka, kb, n0, cycle);
      RunConcat(ka, kb, n, step, rest);
      moves := step + rest;
    }
  }

  /** One packet of that end: an UpdateFC, or one of those before it. */
  lemma PumpOne(ka: Knobs, kb: Knobs, n: Net, cycle: int)
    requires InitInv(ka, kb, n) && n.ba == [] && n.b.d.st == ACTIVE && n.b.d.flow.updNow != {} && !Early(n.a)
    ensures LossFree(Pass(cycle, 0))
    ensures var n1 := Run(ka, kb, n, Pass(cycle, 0));
      n1.ba == [] && n1.ab == n.ab && !Early(n1.a) && n1.b.d.st == ACTIVE &&
      (n1.a.d.st == ACTIVE ||
       (n1.b.d.flow.updNow == n.b.d.flow.updNow &&
        |n1.b.d.q| + (if n1.b.d.rx.ackDue.Some? then 1 else 0) < |n.b.d.q| + (if n.b.d.rx.ackDue.Some? then 1 else 0)))
  {
    PassRight(ka, kb, n, cycle, 0);
    var out := EndSend(kb, n.b, cycle).1;
    SendInit(kb, n.b, cycle);
    assert |out| == 1;
    ReceiveForward(ka, kb, n.a, out[0], 0, cycle);
    if out[0].p.Control? && out[0].p.dllp.UpdateFC? {
      TakeInit(ka, kb, n.a, out[0].p.dllp, out[0].n, 0, cycle);
    }
  }

  /** The left end becomes ACTIVE once both have left FC_INIT1. */
  lemma BecomeActive(ka: Knobs, kb: Knobs, n: Net) returns (moves: seq<Move>)
    requires InitInv(ka, kb, n) && !Early(n.a) && !Early(n.b) && n.ba == [] && HasFinite(kb)
    ensures LossFree(moves)
    ensures var n1 := Run(ka, kb, n, moves);
      InitInv(ka, kb, n1) && n1.ba == [] && n1.ab == n.ab && n1.a.d.st == ACTIVE && Forward(n.b, n1.b)
  {
    if n.a.d.st == ACTIVE { return []; }
    var tick, rest;
    if n.b.d.st == FC_INIT2 {
      var cycle := NextSet(ka, kb, n);
      tick := [Right(Clock(cycle))];
      rest := PumpQueue(ka, kb, Run(ka, kb, n, tick));
    } else {
      var t: FcType :| !Infinite(kb.adv.Get(t));
      var cycle := n.b.d.flow.updDue[t];
      tick := [Right(Clock(cycle))];
      RunOne(ka, kb, n, tick[0]);
      InitStep(kb, ka, Swap(n), Clock(cycle));
      assert t in Run(ka, kb, n, tick).b.d.flow.updNow;
      rest := PumpUpdate(ka, kb, Run(ka, kb, n, tick), cycle);
    }
    RunConcat(ka, kb, n, tick, rest);
    moves := tick + rest;
  }

  /** Both directions are emptied, then the left end is brought up as far as the
      right end's own state allows. */
  lemma Settle(ka: Knobs, kb: Knobs, n: Net) returns (moves: seq<Move>)
    requires InitInv(ka, kb, n) && Up(n)
    ensures LossFree(moves)
    ensures var n1 := Run(ka, kb, n, moves);
      InitInv(ka, kb, n1) && n1.ba == [] && n1.ab == n.ab && Forward(n.a, n1.a) && Forward(n.b, n1.b) && !Early(n1.a)
  {
    var xs := DeliverLeft(ka, kb, n);
    var ys := LeaveInit1(ka, kb, Run(ka, kb, n, xs));
    RunConcat(ka, kb, n, xs, ys);
    moves := xs + ys;
  }

  /** The same for the right end, by exchanging the ends. */
  lemma SettleRight(ka: Knobs, kb: Knobs, n: Net) returns (moves: seq<Move>)
    requires InitInv(ka, kb, n) && Up(n)
    ensures LossFree(moves)
    ensures var n1 := Run(ka, kb, n, moves);
      InitInv(ka, kb, n1) && n1.ab == [] && n1.ba == n.ba && Forward(n.a, n1.a) && Forward(n.b, n1.b) && !Early(n1.b)
  {
    var xs := Settle(kb, ka, Swap(n));
    FlipRun(kb, ka, Swap(n), xs);
    moves := Flip(xs);
  }

  lemma BecomeActiveRight(ka: Knobs, kb: Knobs, n: Net) returns (moves: seq<Move>)
    requires InitInv(ka, kb, n) && !Early(n.a) && !Early(n.b) && n.ab == [] && HasFinite(ka)
    ensures LossFree(moves)
    ensures var n1 := Run(ka, kb, n, moves);
      InitInv(ka, kb, n1) && n1.ab == [] && n1.ba == n.ba && n1.b.d.st == ACTIVE && Forward(n.a, n1.a)
  {
    var xs := BecomeActive(kb, ka, Swap(n));
    FlipRun(kb, ka, Swap(n), xs);
    moves := Flip(xs);
  }

  /** From every reachable state with the link up at both ends, whatever was
      lost before, some loss-free continuation makes both ends ACTIVE, provided
      each end advertises at least one finite credit type. */
  lemma HandshakeCompletes(ka: Knobs, kb: Knobs, past: seq<Move>) returns (moves: seq<Move>)
    requires Up(Run(ka, kb, Boot(ka, kb), past)) && HasFinite(ka) && HasFinite(kb)
    ensures LossFree(moves)
    ensures var n := Run(ka, kb, Boot(ka, kb), past + moves); n.a.d.st == ACTIVE && n.b.d.st == ACTIVE
  {
    var boot := Boot(ka, kb);
    BootInit(ka, kb);
    RunInit(ka, kb, boot, past);
    var n := Run(ka, kb, boot, past);
    var s1 := Settle(ka, kb, n);
    var n1 := Run(ka, kb, n, s1);
    var s2 := SettleRight(ka, kb, n1);
    var n2 := Run(ka, kb, n1, s2);
    var s3 := BecomeActive(ka, kb, n2);
    var n3 := Run(ka, kb, n2, s3);
    var s4 := BecomeActiveRight(ka, kb, n3);
    RunConcat(ka, kb, n2, s3, s4);
    RunConcat(ka, kb, n1, s2, s3 + s4);
    RunConcat(ka, kb, n, s1, s2 + (s3 + s4));
    moves := s1 + (s2 + (s3 + s4));
    RunConcat(ka, kb, boot, past, moves);
  }
}
