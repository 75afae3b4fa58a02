/** The monitor's window test against that of the Data Link Layer, and one layer
    with any peer at all: what its retry buffer holds after any history, and what
    the monitor sees of it. */
module MonitorLink {
  import opened DllTypes
  import Spec = DllSpec
  import opened MonitorSpec
  import opened Link
  import opened LinkLocal
  import opened LinkSafety

  // ------------------------------------------------------------ Ack windows

  /** A number that lags ACKD_SEQ by `lag` is rejected exactly when the lag and
      the outstanding TLPs together stay below the number space: every lag up to
      2048 is, whatever is outstanding. */
  lemma StaleAckRejected(d: DllState, sent: seq<Tlp>, nak: bool, lag: int, now: int)
    requires TxRun(d.tx, sent) && 0 < lag < SEQ_MOD
    ensures var num := (|sent| - |d.tx.retry| - 1 - lag) % SEQ_MOD; var d1 := Spec.AckNak(d, nak, num, now);
      d1 == d.(errors := d.errors + [BadAckSeq(num)]) <==> lag + |d.tx.retry| < SEQ_MOD
    ensures lag <= 2048 ==> lag + |d.tx.retry| < SEQ_MOD
  {
    AckWindowExact(d, sent, nak, SEQ_MOD - lag, now);
    ModShift(|sent| - |d.tx.retry| - 1 - lag, 1);
  }

  /** One Nak lagging 2049 with 2047 TLPs outstanding purges all of them. That such
      states are reached from reset, by losses and damage alone, is shown in LinkLate. */
  lemma LateNakPurges(d: DllState, sent: seq<Tlp>, now: int)
    requires TxRun(d.tx, sent) && |d.tx.retry| == 2047
    ensures var num := (|sent| - 2047 - 1 - 2049) % SEQ_MOD; Spec.AckNak(d, true, num, now).tx.retry == []
  {
    AckWindowExact(d, sent, true, 2047, now);
    ModShift(|sent| - 2047 - 1 - 2049, 1);
  }

  /** The half-range test on numbers `j` and 1 + `i` past a common base. */
  lemma CoversByDistance(base: int, j: int, i: nat)
    requires 0 <= j < SEQ_MOD && i < 2047
    ensures Covers((base + j) % SEQ_MOD, (base + 1 + i) % SEQ_MOD) <==> 0 <= j - 1 - i < 2048
  {
    ModDiff(base + j, base + 1 + i, 0);
    SmallResidue(j - 1 - i);
  }

  lemma SmallResidue(d: int)
    requires -2048 <= d < SEQ_MOD
    ensures d % SEQ_MOD < 2048 <==> 0 <= d < 2048
  {
  }

  /** The monitor clears an outstanding number exactly when the Ack purges the
      TLP under it, although it tests half the number space and not a window. */
  lemma MonitorClearsPurged(tx: Tx, sent: seq<Tlp>, num: int, dist: nat, i: nat)
    requires TxRun(tx, sent) && i < |tx.retry|
    requires 0 <= num < SEQ_MOD && dist == (num - tx.ackd) % SEQ_MOD <= |tx.retry|
    ensures Covers(num, tx.retry[i].num) <==> i < dist
  {
    var base := |sent| - |tx.retry| - 1;
    AckdAdvances(base, num, dist);
    CoversByDistance(base, dist, i);
  }

  /** Whole lists, for every number: a monitor that awaits exactly the outstanding
      TLPs before an Ack or Nak awaits exactly the outstanding ones after it unless
      the number, `j` past ACKD_SEQ, is outside the layer's window and still within
      half the number space ahead of the oldest outstanding TLPs. */
  lemma MonitorFollows(d: DllState, sent: seq<Tlp>, m: Mon, nak: bool, j: int, now: int)
    requires TxRun(d.tx, sent) && 0 <= j < SEQ_MOD && m.ackPending == Nums(d.tx.retry)
    ensures var num := (|sent| - |d.tx.retry| - 1 + j) % SEQ_MOD;
      SeeAck(m, num).ackPending == Nums(Spec.AckNak(d, nak, num, now).tx.retry) <==>
      !(|d.tx.retry| < j < |d.tx.retry| + 2048 && d.tx.retry != [])
  {
    var num := (|sent| - |d.tx.retry| - 1 + j) % SEQ_MOD;
    AckWindowExact(d, sent, nak, j, now);
    if j <= |d.tx.retry| {
      AckDistance(|sent| - |d.tx.retry| - 1, j);
      CoversFirst(d.tx, sent, num, j);
      UncoveredRest(num, Nums(d.tx.retry), j);
      NumsRest(d.tx.retry, j);
    } else {
      CoversLast(d.tx, sent, j);
      UncoveredHead(num, Nums(d.tx.retry), Spared(|d.tx.retry|, j));
    }
  }

  /** How many outstanding numbers the monitor keeps when one outside the window is
      acknowledged. */
  function Spared(retry: nat, j: int): nat { if j <= 2048 then 0 else if j - 2048 < retry then j - 2048 else retry }

  /** An Ack for a TLP not sent yet, for one: the layer rejects it, the monitor
      drops everything. */
  lemma AheadClearsAll(d: DllState, sent: seq<Tlp>, m: Mon, now: int)
    requires TxRun(d.tx, sent) && m.ackPending == Nums(d.tx.retry)
    ensures SeeAck(m, |sent| % SEQ_MOD).ackPending == []
    ensures Spec.AckNak(d, false, |sent| % SEQ_MOD, now).tx == d.tx
  {
    var j := |d.tx.retry| + 1;
    AckWindowExact(d, sent, false, j, now);
    CoversLast(d.tx, sent, j);
    UncoveredHead(|sent| % SEQ_MOD, Nums(d.tx.retry), 0);
  }

  lemma CoversLast(tx: Tx, sent: seq<Tlp>, j: int)
    requires TxRun(tx, sent) && |tx.retry| < j < SEQ_MOD
    ensures var num := (|sent| - |tx.retry| - 1 + j) % SEQ_MOD;
      forall i | 0 <= i < |tx.retry| :: Covers(num, Nums(tx.retry)[i]) <==> Spared(|tx.retry|, j) <= i
  {
    var base := |sent| - |tx.retry| - 1;
    forall i | 0 <= i < |tx.retry|
      ensures Covers((base + j) % SEQ_MOD, Nums(tx.retry)[i]) <==> Spared(|tx.retry|, j) <= i
    {
      CoversByDistance(base, j, i);
    }
  }

  lemma {:induction false} UncoveredHead(num: int, pending: seq<int>, n: nat)
    requires n <= |pending| && forall i | 0 <= i < |pending| :: Covers(num, pending[i]) <==> n <= i
    ensures Uncovered(num, pending) == pending[..n]
    decreases |pending|
  {
    if pending == [] {
    } else {
      var last := |pending| - 1;
      if n <= last {
        UncoveredHead(num, pending[..last], n);
        assert pending[..last][..n] == pending[..n];
      } else {
        UncoveredHead(num, pending[..last], last);
      }
    }
  }

  lemma CoversFirst(tx: Tx, sent: seq<Tlp>, num: int, dist: nat)
    requires TxRun(tx, sent) && 0 <= num < SEQ_MOD && dist == (num - tx.ackd) % SEQ_MOD <= |tx.retry|
    ensures forall i | 0 <= i < |tx.retry| :: Covers(num, Nums(tx.retry)[i]) <==> i < dist
  {
    forall i | 0 <= i < |tx.retry| ensures Covers(num, Nums(tx.retry)[i]) <==> i < dist {
      MonitorClearsPurged(tx, sent, num, dist, i);
    }
  }

  lemma NumsRest(q: seq<Entry>, n: nat)
    requires n <= |q|
    ensures Nums(q)[n..] == Nums(q[n..])
  {
  }

  function Nums(q: seq<Entry>): seq<int> { seq(|q|, i requires 0 <= i < |q| => q[i].num) }

  lemma {:induction false} UncoveredRest(num: int, pending: seq<int>, n: nat)
    requires n <= |pending| && forall i | 0 <= i < |pending| :: Covers(num, pending[i]) <==> i < n
    ensures Uncovered(num, pending) == pending[n..]
    decreases |pending|
  {
    if pending == [] {
    } else {
      var last := |pending| - 1;
      if n <= last {
        UncoveredRest(num, pending[..last], n);
        assert pending[..last][n..] + [pending[last]] == pending[n..];
      } else {
        UncoveredRest(num, pending[..last], last);
      }
    }
  }

  // ------------------------------------------- one end with any peer at all

  /** What can happen to one end: a step of its own, a packet of any content, a
      chance to transmit, the loss of the link. */
  datatype Input = Own(act: Act) | Hear(w: Wire, endT: nat, now: int) | Talk(cycle: int) | Down

  /** link_up(False): an end that was up begins a new epoch, and its twins with it. */
  function EndDown(k: Knobs, e: End): End {
    if e.d.st == INACTIVE then e else Fresh(k).(d := Spec.LinkDown(k, e.d))
  }

  predicate OneEpoch(xs: seq<Input>) { forall x | x in xs :: !x.Down? }

  /** A packet that can be on the wire: its sequence number has 12 bits. */
  predicate Possible(x: Input) {
    (x.Own? ==> IsLocal(x.act)) && (x.Hear? && x.w.p.Control? ==> Carried(x.w.p.dllp))
  }

  function React(k: Knobs, e: End, x: Input): (End, seq<Wire>) {
    match x
    case Own(act) => (EndLocal(k, e, act), [])
    case Hear(w, endT, now) => (EndReceive(k, e, w, endT, now), [])
    case Talk(cycle) => EndSend(k, e, cycle)
    case Down => (EndDown(k, e), [])
  }

  function SeeAll(m: Mon, out: seq<Wire>): Mon { if out == [] then m else See(m, out[0].p) }

  /** The end and a monitor that sees everything it transmits. */
  function Watch(k: Knobs, xs: seq<Input>): (End, Mon)
    decreases |xs|
  {
    if xs == [] then (Fresh(k), START)
    else
      var (e, m) := Watch(k, xs[..|xs| - 1]);
      var (e1, out) := React(k, e, xs[|xs| - 1]);
      (e1, SeeAll(m, out))
  }

  lemma ReactLocal(k: Knobs, e: End, x: Input)
    requires TxOk(e) && RxOk(e) && Possible(x)
    ensures TxOk(React(k, e, x).0) && RxOk(React(k, e, x).0)
  {
    match x
    case Own(act) => LocalStep(k, e, act);
    case Hear(w, endT, now) => ReceiveLocal(k, e, w, endT, now);
    case Talk(cycle) => SendTx(k, e, cycle); SendRx(k, e, cycle);
    case Down =>
  }

  /** The retry buffer after any history whatever, with any peer and any number
      of link epochs, `sent` being what this epoch has sent: it holds
      exactly the TLPs from ACKD_SEQ + 1 to NEXT_TRANSMIT_SEQ - 1, in order, with
      their original contents, never more than 2047; the replay queue is a run
      of the same kind ending at the newest TLP; and the REPLAY_TIMER runs
      whenever anything is unacknowledged. */
  lemma {:induction false} RetryBufferAlways(k: Knobs, xs: seq<Input>)
    requires forall x | x in xs :: Possible(x)
    ensures var e := Watch(k, xs).0; TxOk(e) && RxOk(e) && |e.d.tx.retry| == Spec.Unacked(e.d.tx) <= 2047
    decreases |xs|
  {
    if xs == [] {
    } else {
      RetryBufferAlways(k, xs[..|xs| - 1]);
      ReactLocal(k, Watch(k, xs[..|xs| - 1]).0, xs[|xs| - 1]);
    }
    var e := Watch(k, xs).0;
    UnackedIsRetry(e.d.tx, e.sent);
  }
}
