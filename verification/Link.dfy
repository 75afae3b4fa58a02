/** Two Data Link Layers joined by two channels that keep order but may lose or
    damage any packet. Every modular counter has an unbounded twin here; the
    layers themselves never read a twin.

    Twins. `sent` lists every TLP ever taken from tlp_q, so |sent| is
    NEXT_TRANSMIT_SEQ; `got` lists every TLP ever accepted, so |got| is
    NEXT_RCV_SEQ. A packet travels with a number `n`: for a TLP its index in the
    sender's `sent`, for a DLLP the sender's |got| when the DLLP was made. `qn`
    holds that number for each DLLP still queued, `limN` the one of the last
    credit limit taken, per type. */
module Link {
  import opened Common
  import opened DllTypes
  import Spec = DllSpec

  datatype Wire = Wire(p: Packet, n: nat)

  datatype End = End(
    d: DllState,
    offered: seq<Tlp>,
    sent: seq<Tlp>,
    got: seq<Tlp>,
    qn: seq<nat>,
    limN: map<FcType, nat>)

  datatype Net = Net(a: End, b: End, ab: seq<Wire>, ba: seq<Wire>)

  function Fresh(k: Knobs): End { End(Reset(k), [], [], [], [], map[]) }

  function Boot(ka: Knobs, kb: Knobs): Net { Net(Fresh(ka), Fresh(kb), [], []) }

  // ------------------------------------------------------- steps of one end

  function EndOffer(e: End, t: Tlp): End {
    e.(d := Spec.SendTlp(e.d, t), offered := e.offered + [t])
  }

  function EndTick(k: Knobs, e: End, cycle: int): End {
    var d := Spec.Tick(k, e.d, cycle);
    e.(d := d, qn := if |d.q| > |e.d.q| then e.qn + [0, 0, 0] else e.qn)
  }

  /** The number of the last limit taken for type `t`; the limits recorded
      during initialisation count as number 0. */
  function LimitNumber(e: End, t: FcType): nat { if t in e.limN then e.limN[t] else 0 }

  function EndDllp(k: Knobs, e: End, m: Dllp, n: nat, now: int): End {
    var d := Spec.OnDllp(k, e.d, m, now);
    e.(d := d, limN := if m.UpdateFC? && m.vc == 0 && d.st == ACTIVE then e.limN[m.fc := n] else e.limN)
  }

  /** on_tlp, then release at once if the TLP was accepted (lr1_farend.py). */
  function EndTlp(k: Knobs, e: End, m: Packet, endT: nat, now: int): End
    requires m.Data?
  {
    var (d, t) := Spec.OnTlp(k, e.d, m, endT, now);
    e.(d := if t.Some? then Spec.Release(k, d, t.value) else d,
       got := if t.Some? then e.got + [t.value] else e.got,
       qn := if |d.q| > |e.d.q| then [|e.got|] + e.qn else e.qn)
  }

  function EndReceive(k: Knobs, e: End, w: Wire, endT: nat, now: int): End {
    match w.p
    case Control(m) => EndDllp(k, e, m, w.n, now)
    case Data(_, _, _, _) => EndTlp(k, e, w.p, endT, now)
    case Junk => e
  }

  function Rest(qn: seq<nat>): seq<nat> { if qn == [] then [] else qn[1..] }

  /** The twin number of the packet `p` that `e` is about to send. */
  function Number(e: End, p: Packet, popped: bool): nat {
    if p.Control? then (if popped && e.qn != [] then e.qn[0] else |e.got|)
    else if e.d.tx.replayQ != [] && |e.d.tx.replayQ| <= |e.sent| then |e.sent| - |e.d.tx.replayQ|
    else |e.sent|
  }

  function EndSend(k: Knobs, e: End, cycle: int): (End, seq<Wire>) {
    var (d, p) := Spec.NextPacket(k, e.d, cycle);
    var popped := |d.q| < |e.d.q|;
    (e.(d := d,
        sent := if |d.tx.tlpQ| < |e.d.tx.tlpQ| then e.sent + e.d.tx.tlpQ[..1] else e.sent,
        qn := if popped then Rest(e.qn) else e.qn),
     if p.Some? then [Wire(p.value, Number(e, p.value, popped))] else [])
  }

  // ---------------------------------------------------- steps of the network

  /** What the end on the left can do, and what can befall its outgoing channel. */
  datatype Act =
    | GoUp(now: int)
    | Offer(tlp: Tlp)
    | Clock(cycle: int)
    | Transmit(cycle: int)
    | Receive(endT: nat, now: int)
    | Lose(i: nat)
    | Damage(i: nat)

  predicate IsLocal(act: Act) { act.GoUp? || act.Offer? || act.Clock? }

  /** The acts that touch no channel. */
  function EndLocal(k: Knobs, e: End, act: Act): End {
    match act
    case GoUp(now) => e.(d := Spec.LinkUp(k, e.d, now))
    case Offer(t) => EndOffer(e, t)
    case Clock(cycle) => EndTick(k, e, cycle)
    case _ => e
  }

  function Damaged(w: Wire): Wire {
    match w.p
    case Data(num, tlp, edb, _) => w.(p := w.p.(lcrc := Bad))
    case _ => w.(p := Junk)
  }

  function Step(k: Knobs, n: Net, act: Act): Net {
    match act
    case Transmit(cycle) => var (e, out) := EndSend(k, n.a, cycle); n.(a := e, ab := n.ab + out)
    case Receive(endT, now) =>
      if n.ba == [] then n else n.(a := EndReceive(k, n.a, n.ba[0], endT, now), ba := n.ba[1..])
    case Lose(i) => if i < |n.ab| then n.(ab := n.ab[..i] + n.ab[i + 1..]) else n
    case Damage(i) => if i < |n.ab| then n.(ab := n.ab[i := Damaged(n.ab[i])]) else n
    case _ => n.(a := EndLocal(k, n.a, act))
  }

  function Swap(n: Net): Net { Net(n.b, n.a, n.ba, n.ab) }

  /** One move of a schedule: an act of either end. */
  datatype Move = Left(act: Act) | Right(act: Act)

  function Play(ka: Knobs, kb: Knobs, n: Net, m: Move): Net {
    match m
    case Left(act) => Step(ka, n, act)
    case Right(act) => Swap(Step(kb, Swap(n), act))
  }

  function Run(ka: Knobs, kb: Knobs, n: Net, moves: seq<Move>): Net
    decreases |moves|
  {
    if moves == [] then n
    else Play(ka, kb, Run(ka, kb, n, moves[..|moves| - 1]), moves[|moves| - 1])
  }

  lemma {:induction false} RunConcat(ka: Knobs, kb: Knobs, n: Net, xs: seq<Move>, ys: seq<Move>)
    ensures Run(ka, kb, n, xs + ys) == Run(ka, kb, Run(ka, kb, n, xs), ys)
    decreases |ys|
  {
    if ys == [] {
      assert xs + ys == xs;
    } else {
      var last := |ys| - 1;
      assert (xs + ys)[..|xs + ys| - 1] == xs + ys[..last];
      RunConcat(ka, kb, n, xs, ys[..last]);
    }
  }
}
