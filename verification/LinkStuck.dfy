/** Why the handshake needs a finite advertisement: an end that advertises only
    infinite credits can leave its peer in FC_INIT2 for ever, with nothing lost. */
module LinkStuck {
  import opened Common
  import opened DllTypes
  import Spec = DllSpec
  import opened Link
  import opened LinkMoves
  import opened LinkInit

  // ------------------------------------------------- one whole InitFC set

  /** The right end's clock, then its three InitFCs, each received at once. */
  function SetMoves(cycle: int): seq<Move> {
    [Right(Clock(cycle))] + (Pass(cycle, 0) + (Pass(cycle, 0) + Pass(cycle, 0)))
  }

  /** Nothing but InitFCs has ever been queued, and all of them have left. */
  predicate Sent(e: End) { (e.d.st == FC_INIT1 || e.d.st == FC_INIT2) && e.d.q == [] && e.qn == [] }

  function TakeSet(k: Knobs, e: End, set3: seq<Dllp>, now: int): End
    requires |set3| == 3
  {
    EndDllp(k, EndDllp(k, EndDllp(k, e, set3[0], 0, now), set3[1], 0, now), set3[2], 0, now)
  }

  lemma PassInit(ka: Knobs, kb: Knobs, n: Net, cycle: int)
    requires n.ba == [] && n.b.d.q != [] && n.b.d.q[0].InitFC? && n.b.d.st != ACTIVE && n.b.qn != [] && n.b.qn[0] == 0
    ensures Run(ka, kb, n, Pass(cycle, 0)) ==
            n.(a := EndDllp(ka, n.a, n.b.d.q[0], 0, cycle),
               b := n.b.(d := n.b.d.(q := n.b.d.q[1..]), qn := n.b.qn[1..]))
  {
    PassRight(ka, kb, n, cycle, 0);
  }

  /** A run of four parts, part by part. */
  lemma RunParts(ka: Knobs, kb: Knobs, n: Net, tick: Move, pass: seq<Move>)
    ensures Run(ka, kb, n, [tick] + (pass + (pass + pass))) ==
            Run(ka, kb, Run(ka, kb, Run(ka, kb, Play(ka, kb, n, tick), pass), pass), pass)
  {
    RunOne(ka, kb, n, tick);
    var n0 := Play(ka, kb, n, tick);
    RunConcat(ka, kb, Run(ka, kb, n0, pass), pass, pass);
    RunConcat(ka, kb, n0, pass, pass + pass);
    RunConcat(ka, kb, n, [tick], pass + (pass + pass));
  }

  lemma ThreePasses(ka: Knobs, kb: Knobs, n: Net, cycle: int)
    requires n.ba == [] && |n.b.d.q| == 3 && n.b.qn == [0, 0, 0] && n.b.d.st != ACTIVE && OnlyInit(n.b.d.q)
    ensures Run(ka, kb, Run(ka, kb, Run(ka, kb, n, Pass(cycle, 0)), Pass(cycle, 0)), Pass(cycle, 0)) ==
            n.(a := TakeSet(ka, n.a, n.b.d.q, cycle), b := n.b.(d := n.b.d.(q := []), qn := []))
  {
    var q := n.b.d.q;
    assert q[0] in q && q[1] in q && q[2] in q;
    assert q[1..][0] == q[1] && q[1..][1..][0] == q[2] && q[1..][1..][1..] == [];
    assert n.b.qn[1..] == [0, 0] && [0, 0][1..] == [0] && [0][1..] == [];
    PassInit(ka, kb, n, cycle);
    var n1 := Run(ka, kb, n, Pass(cycle, 0));
    PassInit(ka, kb, n1, cycle);
    PassInit(ka, kb, Run(ka, kb, n1, Pass(cycle, 0)), cycle);
  }

  lemma SetQueued(ka: Knobs, kb: Knobs, n: Net, cycle: int)
    requires Sent(n.b) && n.b.d.fcNext.Some? && cycle >= n.b.d.fcNext.value
    ensures Play(ka, kb, n, Right(Clock(cycle))) ==
            n.(b := n.b.(d := n.b.d.(q := Spec.InitSet(kb, if n.b.d.st == FC_INIT1 then 1 else 2),
                                     fcNext := Some(cycle + kb.fcSetPeriod)),
                         qn := [0, 0, 0]))
  {
  }

  lemma SetLossFree(cycle: int)
    ensures LossFree(SetMoves(cycle))
  {
  }

  lemma SetDelivered(ka: Knobs, kb: Knobs, n: Net, cycle: int)
    requires n.ba == [] && Sent(n.b) && n.b.d.fcNext.Some? && cycle >= n.b.d.fcNext.value
    ensures Run(ka, kb, n, SetMoves(cycle)) ==
            n.(a := TakeSet(ka, n.a, Spec.InitSet(kb, if n.b.d.st == FC_INIT1 then 1 else 2), cycle),
               b := n.b.(d := n.b.d.(fcNext := Some(cycle + kb.fcSetPeriod))))
  {
    SetQueued(ka, kb, n, cycle);
    var n0 := Play(ka, kb, n, Right(Clock(cycle)));
    ThreePasses(ka, kb, n0, cycle);
    RunParts(ka, kb, n, Right(Clock(cycle)), Pass(cycle, 0));
  }

  // ------------------------------------------------------ what a set does

  /** Nothing to send, and nothing that will ever have to be sent. */
  predicate Silent(e: End) {
    e.d.q == [] && e.qn == [] && e.d.flow.updNow == {} && e.d.flow.updDue == map[] && e.d.tx.tlpQ == [] &&
    e.d.tx.retry == [] && e.d.tx.replayQ == [] && e.d.rx.ackDue.None?
  }

  /** Nothing sent, accepted or offered yet. */
  predicate Unused(k: Knobs, e: End) {
    e.d.tx == Reset(k).tx && e.d.rx == Reset(k).rx && e.sent == [] && e.got == [] && e.offered == []
  }

  function Advertised(k: Knobs): map<FcType, Credit> { map[P := k.adv.p, NP := k.adv.np, CPL := k.adv.cpl] }

  /** In FC_INIT1 a whole set, of either phase, is recorded and ends the state. */
  lemma FirstSet(k: Knobs, e: End, kp: Knobs, phase: int, now: int)
    requires e.d.st == FC_INIT1 && e.d.flow.recorded == map[] && Silent(e) && Unused(k, e)
    ensures var e1 := TakeSet(k, e, Spec.InitSet(kp, phase), now);
      e1.d.st == FC_INIT2 && e1.d.fcNext == Some(now + k.fc2FirstDelay) && Silent(e1) && Unused(k, e1)
    ensures var f := TakeSet(k, e, Spec.InitSet(kp, phase), now).d.flow;
      f.recorded == Advertised(kp) && f.limit == Advertised(kp)
  {
  }

  /** In FC_INIT2 it makes the end ACTIVE, and one with infinite credits silent. */
  lemma SecondSet(k: Knobs, e: End, kp: Knobs, now: int)
    requires e.d.st == FC_INIT2 && Silent(e) && Unused(k, e) && !HasFinite(k)
    ensures var e1 := TakeSet(k, e, Spec.InitSet(kp, 2), now);
      e1.d.st == ACTIVE && Silent(e1) && Unused(k, e1) &&
      e1.d.flow.recorded == e.d.flow.recorded && e1.d.flow.limit == e.d.flow.limit
  {
    assert Infinite(k.adv.Get(P)) && Infinite(k.adv.Get(NP)) && Infinite(k.adv.Get(CPL));
    assert Spec.FirstUpdates(k, map[], now) == map[];
  }

  // ---------------------------------------------------------- stuck for ever

  predicate OnlyInit(q: seq<Dllp>) { forall x | x in q :: x.InitFC? }

  predicate Stuck(n: Net) {
    n.a.d.st == ACTIVE && Silent(n.a) && n.ab == [] && n.b.d.st == FC_INIT2 && OnlyInit(n.b.d.q) &&
    forall w | w in n.ba :: w.p.Junk? || (w.p.Control? && w.p.dllp.InitFC?)
  }

  predicate NothingOffered(moves: seq<Move>) { forall m | m in moves :: !(m.Left? && m.act.Offer?) }

  lemma StuckLeft(k: Knobs, n: Net, act: Act)
    requires Stuck(n) && !act.Offer?
    ensures Stuck(Step(k, n, act))
  {
  }

  lemma StuckRight(k: Knobs, n: Net, act: Act)
    requires Stuck(n)
    ensures Stuck(Swap(Step(k, Swap(n), act)))
  {
  }

  lemma {:induction false} StuckForEver(ka: Knobs, kb: Knobs, n: Net, moves: seq<Move>)
    requires Stuck(n) && NothingOffered(moves)
    ensures Stuck(Run(ka, kb, n, moves))
    decreases |moves|
  {
    if moves == [] {
    } else {
      var m := moves[|moves| - 1];
      StuckForEver(ka, kb, n, moves[..|moves| - 1]);
      var n1 := Run(ka, kb, n, moves[..|moves| - 1]);
      match m
      case Left(act) => StuckLeft(ka, n1, act);
      case Right(act) => StuckRight(kb, n1, act);
    }
  }

  // ------------------------------------------------------------- a way there

  /** Both ends up, neither having heard anything. */
  predicate JustUp(ka: Knobs, kb: Knobs, n: Net) {
    Unused(ka, n.a) && Unused(kb, n.b) && n.ab == [] && n.ba == [] && n.a.d.st == FC_INIT1 && n.b.d.st == FC_INIT1 &&
    n.a.d.flow.recorded == map[] && n.b.d.flow.recorded == map[] && n.a.d.fcNext.Some? && n.b.d.fcNext.Some? &&
    Silent(n.a) && Silent(n.b)
  }

  lemma GoesUp(ka: Knobs, kb: Knobs)
    ensures JustUp(ka, kb, Run(ka, kb, Boot(ka, kb), [Left(GoUp(0)), Right(GoUp(0))]))
  {
    RunTwo(ka, kb, Boot(ka, kb), Left(GoUp(0)), Right(GoUp(0)));
  }

  /** The channels are empty, the left end may send, and nobody has sent yet. */
  predicate Opened(ka: Knobs, kb: Knobs, n: Net) {
    n.ba == [] && Unused(ka, n.a) && Unused(kb, n.b) && Silent(n.b) &&
    n.a.d.flow.recorded == Advertised(kb) && n.a.d.flow.limit == Advertised(kb)
  }

  /** The right end's InitFC1s, the left end's InitFC2s, the right end's InitFC2s:
      the left end is ACTIVE and silent, the right one waits in FC_INIT2. */
  lemma GetsStuck(ka: Knobs, kb: Knobs, n: Net) returns (moves: seq<Move>)
    requires JustUp(ka, kb, n) && !HasFinite(ka)
    ensures LossFree(moves) && Stuck(Run(ka, kb, n, moves)) && Opened(ka, kb, Run(ka, kb, n, moves))
  {
    var x := SetMoves(n.b.d.fcNext.value);
    SetLossFree(n.b.d.fcNext.value);
    SetDelivered(ka, kb, n, n.b.d.fcNext.value);
    FirstSet(ka, n.a, kb, 1, n.b.d.fcNext.value);
    var n1 := Run(ka, kb, n, x);
    var s1 := Swap(n1);
    var y := SetMoves(s1.b.d.fcNext.value);
    SetLossFree(s1.b.d.fcNext.value);
    SetDelivered(kb, ka, s1, s1.b.d.fcNext.value);
    FirstSet(kb, s1.a, ka, 2, s1.b.d.fcNext.value);
    FlipRun(kb, ka, s1, y);
    var n2 := Run(ka, kb, n1, Flip(y));
    var z := SetMoves(n2.b.d.fcNext.value);
    SetLossFree(n2.b.d.fcNext.value);
    SetDelivered(ka, kb, n2, n2.b.d.fcNext.value);
    SecondSet(ka, n2.a, kb, n2.b.d.fcNext.value);
    RunConcat(ka, kb, n1, Flip(y), z);
    RunConcat(ka, kb, n, x, Flip(y) + z);
    moves := x + (Flip(y) + z);
  }

  lemma ReachStuck(ka: Knobs, kb: Knobs) returns (past: seq<Move>)
    requires !HasFinite(ka)
    ensures |past| >= 2 && LossFree(past[2..])
    ensures var n := Run(ka, kb, Boot(ka, kb), past); Stuck(n) && Opened(ka, kb, n)
  {
    var up := [Left(GoUp(0)), Right(GoUp(0))];
    GoesUp(ka, kb);
    var rest := GetsStuck(ka, kb, Run(ka, kb, Boot(ka, kb), up));
    RunConcat(ka, kb, Boot(ka, kb), up, rest);
    past := up + rest;
    assert past[2..] == rest;
  }

  /** Not a single packet lost, and yet no continuation without a TLP offered at
      the left end ever makes the right end ACTIVE. */
  lemma NeedsFinite(ka: Knobs, kb: Knobs) returns (past: seq<Move>)
    requires !HasFinite(ka)
    ensures |past| >= 2 && LossFree(past[2..]) && Up(Run(ka, kb, Boot(ka, kb), past))
    ensures forall moves | NothingOffered(moves) :: Run(ka, kb, Boot(ka, kb), past + moves).b.d.st != ACTIVE
  {
    past := ReachStuck(ka, kb);
    forall moves | NothingOffered(moves) ensures Run(ka, kb, Boot(ka, kb), past + moves).b.d.st != ACTIVE {
      RunConcat(ka, kb, Boot(ka, kb), past, moves);
      StuckForEver(ka, kb, Run(ka, kb, Boot(ka, kb), past), moves);
    }
  }

  predicate BothActive(n: Net) { n.a.d.st == ACTIVE && n.b.d.st == ACTIVE }

  /** From every reachable state with both links up, the handshake can complete
      without losses and without new TLPs. */
  ghost predicate AlwaysCompletes(ka: Knobs, kb: Knobs) {
    forall past | Up(Run(ka, kb, Boot(ka, kb), past)) ::
      exists moves :: LossFree(moves) && BothActive(Run(ka, kb, Boot(ka, kb), past + moves))
  }

  predicate NoWayOn(ka: Knobs, kb: Knobs, past: seq<Move>, moves: seq<Move>) {
    !BothActive(Run(ka, kb, Boot(ka, kb), past + moves))
  }

  lemma NoWayLeft(ka: Knobs, kb: Knobs) returns (past: seq<Move>)
    requires !HasFinite(ka)
    ensures Up(Run(ka, kb, Boot(ka, kb), past)) && forall moves | LossFree(moves) :: NoWayOn(ka, kb, past, moves)
  {
    past := NeedsFinite(ka, kb);
    forall moves | LossFree(moves) ensures NoWayOn(ka, kb, past, moves) {
      assert NothingOffered(moves);
    }
  }

  lemma FlipBoot(ka: Knobs, kb: Knobs, moves: seq<Move>)
    ensures Run(ka, kb, Boot(ka, kb), Flip(moves)) == Swap(Run(kb, ka, Boot(kb, ka), moves))
  {
    FlipRun(kb, ka, Boot(kb, ka), moves);
    assert Swap(Boot(kb, ka)) == Boot(ka, kb);
  }

  lemma NoWayRight(ka: Knobs, kb: Knobs) returns (past: seq<Move>)
    requires !HasFinite(kb)
    ensures Up(Run(ka, kb, Boot(ka, kb), past)) && forall moves | LossFree(moves) :: NoWayOn(ka, kb, past, moves)
  {
    var other := NoWayLeft(kb, ka);
    past := Flip(other);
    FlipBoot(ka, kb, other);
    forall moves | LossFree(moves) ensures NoWayOn(ka, kb, past, moves) {
      FlipFlip(moves);
      FlipConcat(other, Flip(moves));
      FlipBoot(ka, kb, other + Flip(moves));
      assert NoWayOn(kb, ka, other, Flip(moves));
    }
  }

  /** That is so exactly when each end advertises some finite credit type. */
  lemma CompletesExactly(ka: Knobs, kb: Knobs)
    ensures AlwaysCompletes(ka, kb) <==> HasFinite(ka) && HasFinite(kb)
  {
    if HasFinite(ka) && HasFinite(kb) {
      forall past | Up(Run(ka, kb, Boot(ka, kb), past))
        ensures exists moves :: LossFree(moves) && BothActive(Run(ka, kb, Boot(ka, kb), past + moves))
      {
        var moves := HandshakeCompletes(ka, kb, past);
        assert BothActive(Run(ka, kb, Boot(ka, kb), past + moves));
      }
    } else {
      var past: seq<Move>;
      if !HasFinite(ka) { past := NoWayLeft(ka, kb); } else { past := NoWayRight(ka, kb); }
      forall moves | LossFree(moves) ensures !BothActive(Run(ka, kb, Boot(ka, kb), past + moves)) {
        assert NoWayOn(ka, kb, past, moves);
      }
    }
  }

  lemma FlipFlip(moves: seq<Move>)
    ensures Flip(Flip(moves)) == moves && (LossFree(moves) ==> LossFree(Flip(moves)))
  {
  }

  lemma FlipConcat(xs: seq<Move>, ys: seq<Move>)
    ensures Flip(xs + ys) == Flip(xs) + Flip(ys)
  {
  }
}
