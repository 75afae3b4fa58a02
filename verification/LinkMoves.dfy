/** Schedules without losses, and the two-end exchanges they are built from. */
module LinkMoves {
  import opened DllTypes
  import opened Link

  /** A schedule in which ends only tick, transmit and receive. */
  predicate LossFree(moves: seq<Move>) {
    forall m | m in moves :: m.act.Clock? || m.act.Transmit? || m.act.Receive?
  }

  function FlipOne(m: Move): Move {
    match m case Left(act) => Right(act) case Right(act) => Left(act)
  }

  function Flip(moves: seq<Move>): seq<Move> { seq(|moves|, i requires 0 <= i < |moves| => FlipOne(moves[i])) }

  /** Exchanging the two ends exchanges what a schedule does. */
  lemma {:induction false} FlipRun(ka: Knobs, kb: Knobs, n: Net, moves: seq<Move>)
    ensures Run(kb, ka, Swap(n), Flip(moves)) == Swap(Run(ka, kb, n, moves))
    ensures LossFree(moves) ==> LossFree(Flip(moves))
    decreases |moves|
  {
    if moves == [] {
    } else {
      var last := |moves| - 1;
      FlipRun(ka, kb, n, moves[..last]);
      assert Flip(moves)[..last] == Flip(moves[..last]);
    }
  }

  lemma RunTwo(ka: Knobs, kb: Knobs, n: Net, x: Move, y: Move)
    ensures Run(ka, kb, n, [x, y]) == Play(ka, kb, Play(ka, kb, n, x), y)
  {
    RunOne(ka, kb, n, x);
    assert [x, y][..1] == [x];
  }

  lemma RunOne(ka: Knobs, kb: Knobs, n: Net, x: Move)
    ensures Run(ka, kb, n, [x]) == Play(ka, kb, n, x)
  {
    assert [x][..0] == [];
  }

  /** The right end transmits one packet and the left end receives it. */
  function Pass(cycle: int, endT: nat): seq<Move> { [Right(Transmit(cycle)), Left(Receive(endT, cycle))] }

  lemma SendRight(ka: Knobs, kb: Knobs, n: Net, cycle: int)
    requires n.ba == []
    ensures var (b1, out) := EndSend(kb, n.b, cycle);
      |out| <= 1 && Play(ka, kb, n, Right(Transmit(cycle))) == Net(n.a, b1, n.ab, out)
  {
    assert n.ba + EndSend(kb, n.b, cycle).1 == EndSend(kb, n.b, cycle).1;
  }

  lemma TakeLeft(ka: Knobs, kb: Knobs, n: Net, endT: nat, cycle: int)
    requires |n.ba| <= 1
    ensures Play(ka, kb, n, Left(Receive(endT, cycle))) ==
            Net(if n.ba == [] then n.a else EndReceive(ka, n.a, n.ba[0], endT, cycle), n.b, n.ab, [])
  {
    if n.ba != [] { assert n.ba[1..] == []; }
  }

  lemma PassRight(ka: Knobs, kb: Knobs, n: Net, cycle: int, endT: nat)
    requires n.ba == []
    ensures |EndSend(kb, n.b, cycle).1| <= 1
    ensures Run(ka, kb, n, Pass(cycle, endT)) ==
            var (b1, out) := EndSend(kb, n.b, cycle);
            Net(if out == [] then n.a else EndReceive(ka, n.a, out[0], endT, cycle), b1, n.ab, [])
    ensures LossFree(Pass(cycle, endT))
  {
    RunTwo(ka, kb, n, Right(Transmit(cycle)), Left(Receive(endT, cycle)));
    SendRight(ka, kb, n, cycle);
    TakeLeft(ka, kb, Play(ka, kb, n, Right(Transmit(cycle))), endT, cycle);
  }
}
