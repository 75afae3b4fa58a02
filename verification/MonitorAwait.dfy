/** The monitor's list of TLPs that still await an Ack, against the retry buffer of
    the far end that sent them, over whole histories. */
module MonitorAwait {
  import opened DllTypes
  import Spec = DllSpec
  import opened MonitorSpec
  import opened Link
  import opened LinkLocal
  import opened LinkSafety
  import opened MonitorLink
  import opened MonitorEpochs

  /** What the monitor is told of one step of the far end: the TLPs it sends, the
      Acks and Naks sent to it. */
  function Told(m: Mon, x: Input, out: seq<Wire>): Mon {
    if x.Hear? && IsAck(x.w) then SeeAck(m, x.w.p.dllp.num)
    else if out != [] && out[0].p.Data? && !out[0].p.edb then SentTlp(m, out[0].p.num)
    else m
  }

  function Awaits(k: Knobs, xs: seq<Input>): Mon
    decreases |xs|
  {
    if xs == [] then START
    else
      var before, x := xs[..|xs| - 1], xs[|xs| - 1];
      Told(Awaits(k, before), x, React(k, Watch(k, before).0, x).1)
  }

  /** Every outstanding TLP is awaited. */
  predicate AllAwaited(tx: Tx, m: Mon) { forall i | 0 <= i < |tx.retry| :: tx.retry[i].num in m.ackPending }

  /** A number, `j` past ACKD_SEQ, that the far end rejects and the monitor takes for
      an acknowledgement of something outstanding. */
  predicate Misjudged(tx: Tx, num: int) {
    var j := (num - tx.ackd) % SEQ_MOD;
    tx.retry != [] && |tx.retry| < j < |tx.retry| + 2048
  }

  predicate NoneMisjudged(k: Knobs, xs: seq<Input>)
    decreases |xs|
  {
    xs == [] ||
    var before, x := xs[..|xs| - 1], xs[|xs| - 1];
    var d := Watch(k, before).0.d;
    NoneMisjudged(k, before) &&
    (x.Hear? && IsAck(x.w) && d.st == ACTIVE ==> !Misjudged(d.tx, x.w.p.dllp.num))
  }

  predicate AlwaysAwaited(k: Knobs, xs: seq<Input>)
    decreases |xs|
  {
    AllAwaited(Watch(k, xs).0.d.tx, Awaits(k, xs)) && (xs != [] ==> AlwaysAwaited(k, xs[..|xs| - 1]))
  }

  lemma {:induction false} UncoveredHas(num: int, pending: seq<int>, s: int)
    ensures s in Uncovered(num, pending) <==> s in pending && !Covers(num, s)
    decreases |pending|
  {
    if pending == [] {
    } else {
      var last := |pending| - 1;
      UncoveredHas(num, pending[..last], s);
      assert pending == pending[..last] + [pending[last]];
    }
  }

  /** Which outstanding numbers an Ack covers. */
  lemma Covered(tx: Tx, sent: seq<Tlp>, num: int, j: nat)
    requires TxRun(tx, sent) && 0 <= num < SEQ_MOD && j == (num - tx.ackd) % SEQ_MOD
    requires num == (|sent| - |tx.retry| - 1 + j) % SEQ_MOD
    ensures forall i | 0 <= i < |tx.retry| ::
      Covers(num, tx.retry[i].num) <==> if j <= |tx.retry| then i < j else Spared(|tx.retry|, j) <= i
  {
    if j <= |tx.retry| { CoversFirst(tx, sent, num, j); } else { CoversLast(tx, sent, j); }
    assert forall i | 0 <= i < |tx.retry| :: tx.retry[i].num == Nums(tx.retry)[i];
  }

  /** One Ack or Nak, taken or rejected. */
  lemma AckAwaited(e: End, m: Mon, nak: bool, num: int, now: int)
    requires TxOk(e) && 0 <= num < SEQ_MOD && AllAwaited(e.d.tx, m)
    ensures AllAwaited(Spec.AckNak(e.d, nak, num, now).tx, SeeAck(m, num)) <==> !Misjudged(e.d.tx, num)
  {
    var tx := e.d.tx;
    var j := (num - tx.ackd) % SEQ_MOD;
    AckdAdvances(|e.sent| - |tx.retry| - 1, num, j);
    AckWindowExact(e.d, e.sent, nak, j, now);
    Covered(tx, e.sent, num, j);
    forall i | 0 <= i < |tx.retry|
      ensures tx.retry[i].num in Uncovered(num, m.ackPending) <==> !Covers(num, tx.retry[i].num)
    {
      UncoveredHas(num, m.ackPending, tx.retry[i].num);
    }
    if j > |tx.retry| && Spared(|tx.retry|, j) < |tx.retry| {
      assert Covers(num, tx.retry[Spared(|tx.retry|, j)].num);
    }
  }

  /** next_packet adds to the retry buffer exactly the new TLP it sends. */
  lemma SendsNew(k: Knobs, e: End, cycle: int)
    requires e.d.tx.nullifyLeft == 0
    ensures var (e1, out) := EndSend(k, e, cycle);
      e1.d.tx.retry == e.d.tx.retry ||
      (e.d.tx.tlpQ != [] && e1.d.tx.retry == e.d.tx.retry + [Entry(e.d.tx.nts, e.d.tx.tlpQ[0])] &&
       |out| == 1 && out[0].p == Data(e.d.tx.nts, e.d.tx.tlpQ[0], false, Good))
  {
    var (d, p) := Spec.NextPacket(k, e.d, cycle);
    if d.tx.retry != e.d.tx.retry { assert (d, p) == Spec.SendNew(e.d, cycle); }
  }

  lemma ToldGrows(m: Mon, cycle: int, out: seq<Wire>)
    ensures forall s | s in m.ackPending :: s in Told(m, Talk(cycle), out).ackPending
  {
  }

  lemma SendsAwaited(k: Knobs, e: End, m: Mon, cycle: int)
    requires e.d.tx.nullifyLeft == 0 && AllAwaited(e.d.tx, m)
    ensures var (e1, out) := EndSend(k, e, cycle); AllAwaited(e1.d.tx, Told(m, Talk(cycle), out))
  {
    SendsNew(k, e, cycle);
    ToldGrows(m, cycle, EndSend(k, e, cycle).1);
  }

  lemma HearsAwaited(k: Knobs, e: End, m: Mon, x: Input)
    requires TxOk(e) && RxOk(e) && AllAwaited(e.d.tx, m) && x.Hear? && Possible(x)
    ensures AllAwaited(React(k, e, x).0.d.tx, Told(m, x, [])) <==>
            (IsAck(x.w) && e.d.st == ACTIVE ==> !Misjudged(e.d.tx, x.w.p.dllp.num))
  {
    match x.w.p
    case Control(d) => if IsAck(x.w) && e.d.st == ACTIVE { AckAwaited(e, m, d.Nak?, d.num, x.now); }
    case Data(_, _, _, _) => TlpKeepsTx(k, e.d, x.w.p, x.endT, x.now);
    case Junk =>
  }

  /** On every history, link losses included, the monitor awaits every outstanding
      TLP at every moment exactly when no Ack or Nak that the far end rejects is
      misjudged. */
  lemma {:induction false} AwaitedExactly(k: Knobs, xs: seq<Input>)
    requires k.nullifyCount == 0 && forall x | x in xs :: Possible(x)
    ensures AlwaysAwaited(k, xs) <==> NoneMisjudged(k, xs)
    decreases |xs|
  {
    if xs == [] {
    } else {
      var before, x := xs[..|xs| - 1], xs[|xs| - 1];
      AwaitedExactly(k, before);
      RetryBufferAlways(k, before);
      PlainAlways(k, before);
      var e, m := Watch(k, before).0, Awaits(k, before);
      if AlwaysAwaited(k, before) { StepAwaited(k, e, m, x); }
    }
  }

  lemma StepAwaited(k: Knobs, e: End, m: Mon, x: Input)
    requires TxOk(e) && RxOk(e) && e.d.tx.nullifyLeft == 0 && AllAwaited(e.d.tx, m) && Possible(x)
    ensures var (e1, out) := React(k, e, x);
      AllAwaited(e1.d.tx, Told(m, x, out)) <==>
      (x.Hear? && IsAck(x.w) && e.d.st == ACTIVE ==> !Misjudged(e.d.tx, x.w.p.dllp.num))
  {
    match x
    case Own(act) =>
    case Hear(_, _, _) => HearsAwaited(k, e, m, x);
    case Talk(cycle) => SendsAwaited(k, e, m, cycle);
    case Down =>
  }
}
