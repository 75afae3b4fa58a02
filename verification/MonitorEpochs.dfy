/** The monitor against the Data Link Layer it watches, over any number of link
    losses: a transmitter that nullifies nothing is flagged exactly when its TLPs or
    InitFCs do not fit what the monitor remembers of earlier epochs. */
module MonitorEpochs {
  import opened Common
  import opened DllTypes
  import Spec = DllSpec
  import opened MonitorSpec
  import opened Link
  import opened LinkLocal
  import opened LinkSafety
  import opened MonitorLink

  // ------------------------------------------ what a restart is flagged for

  /** The InitFCs of a queue continue the order the monitor has seen. */
  predicate Ordered(phase: Option<int>, c: nat, q: seq<Dllp>)
    decreases |q|
  {
    if q == [] then c % 3 == 0
    else match q[0]
      case InitFC(ph, t, _, _) =>
        if phase == Some(ph) then t == Nth(c) && Ordered(phase, c + 1, q[1..])
        else t == P && Ordered(Some(ph), 1, q[1..])
      case _ => Ordered(phase, c, q[1..])
  }

  lemma {:induction false} OrderedSet(k: Knobs, phase: Option<int>, c: nat, q: seq<Dllp>, p: int)
    requires Ordered(phase, c, q)
    ensures Ordered(phase, c, q + Spec.InitSet(k, p))
    decreases |q|
  {
    var set3 := Spec.InitSet(k, p);
    if q == [] {
      assert q + set3 == set3;
      SetOrdered(k, phase, c, p);
    } else {
      assert (q + set3)[1..] == q[1..] + set3;
      match q[0]
      case InitFC(ph, t, _, _) =>
        if phase == Some(ph) { OrderedSet(k, phase, c + 1, q[1..], p); } else { OrderedSet(k, Some(ph), 1, q[1..], p); }
      case _ => OrderedSet(k, phase, c, q[1..], p);
    }
  }

  lemma SetOrdered(k: Knobs, phase: Option<int>, c: nat, p: int)
    requires c % 3 == 0
    ensures Ordered(phase, c, Spec.InitSet(k, p))
  {
    var s := Spec.InitSet(k, p);
    var c1 := if phase == Some(p) then c + 1 else 1;
    assert s[1..][0] == s[1] && s[1..][1..][0] == s[2] && s[1..][1..][1..] == [];
    assert Ordered(Some(p), c1 + 2, s[1..][1..][1..]);
    assert Ordered(Some(p), c1 + 1, s[1..][1..]);
    assert Ordered(Some(p), c1, s[1..]);
  }

  /** The monitor's table holds the last 4096 TLPs under their numbers. */
  predicate Remembers(tlps: map<int, Tlp>, sent: seq<Tlp>) {
    forall i | 0 <= i < |sent| && |sent| - SEQ_MOD <= i :: i % SEQ_MOD in tlps && tlps[i % SEQ_MOD] == sent[i]
  }

  /** Numbers and contents, when `v` is what the monitor remembers having seen:
      this epoch's TLPs begin it, and an unfinished beginning is shorter than the
      number space. */
  predicate TlpMon(e: End, m: Mon, v: seq<Tlp>) {
    && m.seqNext == |v| % SEQ_MOD && Remembers(m.tlps, v)
    && e.sent <= v && (|e.sent| < |v| ==> |v| < SEQ_MOD)
  }

  /** What is left for the monitor to compare with after the link went down. */
  function Tail(v: seq<Tlp>): seq<Tlp> { v[|v| - |v| % SEQ_MOD..] }

  lemma TailRemembers(tlps: map<int, Tlp>, v: seq<Tlp>)
    requires Remembers(tlps, v)
    ensures Remembers(tlps, Tail(v)) && |Tail(v)| % SEQ_MOD == |v| % SEQ_MOD && |Tail(v)| < SEQ_MOD
  {
    forall i | 0 <= i < |Tail(v)| ensures i % SEQ_MOD in tlps && tlps[i % SEQ_MOD] == Tail(v)[i] {
      ModShift(i, |v| / SEQ_MOD);
      assert Tail(v)[i] == v[|v| - |v| % SEQ_MOD + i];
    }
  }

  function Longer(v: seq<Tlp>, sent: seq<Tlp>): seq<Tlp> { if |v| < |sent| then sent else v }

  predicate GoesDown(e: End, x: Input) { x.Down? && e.d.st != INACTIVE }

  /** What the monitor remembers after a history, if it has flagged no TLP. */
  function Memory(k: Knobs, xs: seq<Input>): seq<Tlp>
    decreases |xs|
  {
    if xs == [] then []
    else
      var before, x := xs[..|xs| - 1], xs[|xs| - 1];
      var v := if GoesDown(Watch(k, before).0, x) then Tail(Memory(k, before)) else Memory(k, before);
      Longer(v, Watch(k, xs).0.sent)
  }

  /** At every moment the TLPs of the epoch begin what the monitor remembers. */
  predicate Agrees(k: Knobs, xs: seq<Input>)
    decreases |xs|
  {
    Watch(k, xs).0.sent <= Memory(k, xs) && (xs != [] ==> Agrees(k, xs[..|xs| - 1]))
  }

  predicate NoTlpFlag(m: Mon) { forall f | f in m.flags :: f.InitOrder? }

  predicate NoInitFlag(m: Mon) { forall f | f in m.flags :: !f.InitOrder? }

  lemma RememberNew(m: Mon, sent: seq<Tlp>, p: Packet)
    requires m.seqNext == |sent| % SEQ_MOD && Remembers(m.tlps, sent)
    requires p.Data? && !p.edb && p.lcrc == Good && p.num == |sent| % SEQ_MOD
    ensures var m1 := SeeTlp(m, p);
      m1.flags == m.flags && m1.seqNext == |sent + [p.tlp]| % SEQ_MOD && Remembers(m1.tlps, sent + [p.tlp])
  {
    ModDiff(|sent|, 0, 1);
    forall i | 0 <= i < |sent| && |sent| + 1 - SEQ_MOD <= i ensures i % SEQ_MOD != |sent| % SEQ_MOD {
      ModGap(|sent|, i);
    }
  }

  /** A number the monitor remembers passes exactly with the same TLP. */
  lemma KnownSeen(m: Mon, v: seq<Tlp>, p: Packet, n: nat)
    requires m.seqNext == |v| % SEQ_MOD && Remembers(m.tlps, v)
    requires p.Data? && !p.edb && p.lcrc == Good && n < |v| < n + SEQ_MOD && p.num == n % SEQ_MOD
    ensures SeeTlp(m, p) == if p.tlp == v[n] then m else m.(flags := m.flags + [ContentDiffers(p.num)])
  {
    ModGap(|v|, n);
  }

  predicate TalksTlp(e: End, e1: End, w: Wire) {
    GoodTlp(w) && e1.d.q == e.d.q && e1.sent == if w.n < |e.sent| then e.sent else e.sent + [w.p.tlp]
  }

  predicate TalksDllp(e: End, e1: End, p: Packet) {
    p.Control? &&
    if p.dllp.InitFC? then e.d.q != [] && e.d.q[0] == p.dllp && e1.d.q == e.d.q[1..]
    else e1.d.q == e.d.q || (e.d.q != [] && !e.d.q[0].InitFC? && e1.d.q == e.d.q[1..])
  }

  /** Which packet a transmission is, when none is nullified. */
  lemma TalkKinds(k: Knobs, e: End, cycle: int)
    requires TxOk(e) && RxOk(e) && e.d.tx.nullifyLeft == 0
    ensures var (e1, out) := EndSend(k, e, cycle);
      && e1.d.tx.nullifyLeft == 0
      && (out == [] ==> e1.sent == e.sent && e1.d.q == e.d.q)
      && (out != [] && out[0].p.Data? ==> TalksTlp(e, e1, out[0]))
      && (out != [] && !out[0].p.Data? ==> e1.sent == e.sent && TalksDllp(e, e1, out[0].p))
  {
    TalkPlain(k, e, cycle);
    var (d, p) := Spec.NextPacket(k, e.d, cycle);
    if p.Some? && p.value.Data? {
      if |d.tx.tlpQ| < |e.d.tx.tlpQ| {
        assert (d, p) == Spec.SendNew(e.d, cycle);
        assert e.d.tx.tlpQ[..1] == [e.d.tx.tlpQ[0]];
      } else {
        assert (d, p) == Spec.SendReplay(e.d, cycle);
      }
    }
  }

  /** What holds of a transmission that is no TLP. */
  lemma TalkPlain(k: Knobs, e: End, cycle: int)
    requires e.d.tx.nullifyLeft == 0
    ensures var (e1, out) := EndSend(k, e, cycle);
      && e1.d.tx.nullifyLeft == 0
      && (out == [] ==> e1.sent == e.sent && e1.d.q == e.d.q)
      && (out != [] && !out[0].p.Data? ==> e1.sent == e.sent && TalksDllp(e, e1, out[0].p))
  {
  }

  /** A TLP on the wire, against what the monitor remembers. */
  lemma TalkTlp(k: Knobs, e: End, m: Mon, v: seq<Tlp>, cycle: int)
    requires TxOk(e) && RxOk(e) && e.d.tx.nullifyLeft == 0 && TlpMon(e, m, v)
    requires var out := EndSend(k, e, cycle).1; out != [] && out[0].p.Data?
    ensures var (e1, out) := EndSend(k, e, cycle); var m1 := SeeAll(m, out); var v1 := Longer(v, e1.sent);
      if e1.sent <= v1 then TlpMon(e1, m1, v1) && m1.flags == m.flags
      else exists f :: f in m1.flags && f.ContentDiffers?
  {
    TalkKinds(k, e, cycle);
    SendOut(k, e, cycle);
    var (e1, out) := EndSend(k, e, cycle);
    var w := out[0];
    assert TlpFits(w, e1.sent, |e.sent|);
    if w.n == |v| {
      assert e.sent == v;
      RememberNew(m, v, w.p);
    } else {
      KnownSeen(m, v, w.p, w.n);
      if w.p.tlp != v[w.n] { assert ContentDiffers(w.p.num) in SeeAll(m, out).flags; }
    }
  }

  /** Everything else an end does shows the monitor no TLP. */
  lemma QuietTlp(k: Knobs, e: End, m: Mon, v: seq<Tlp>, x: Input)
    requires TxOk(e) && RxOk(e) && e.d.tx.nullifyLeft == 0 && TlpMon(e, m, v) && Possible(x)
    requires var out := React(k, e, x).1; out == [] || !out[0].p.Data?
    ensures var (e1, out) := React(k, e, x); var m1 := SeeAll(m, out);
      TlpMon(e1, m1, Longer(if GoesDown(e, x) then Tail(v) else v, e1.sent)) && (NoTlpFlag(m1) <==> NoTlpFlag(m))
  {
    match x
    case Own(act) => LocalStep(k, e, act);
    case Hear(w, endT, now) => HearKeeps(k, e, w, endT, now);
    case Talk(cycle) => TalkKinds(k, e, cycle); SeeDllp(m, EndSend(k, e, cycle).1);
    case Down => TailRemembers(m.tlps, v);
  }

  lemma SeeDllp(m: Mon, out: seq<Wire>)
    requires out == [] || !out[0].p.Data?
    ensures var m1 := SeeAll(m, out);
      m1.seqNext == m.seqNext && m1.tlps == m.tlps && (NoTlpFlag(m1) <==> NoTlpFlag(m))
  {
    if out != [] && out[0].p.Control? && out[0].p.dllp.InitFC? {
      var d := out[0].p.dllp;
      InitFlags(m, d.phase, d.fc, d.credit);
    }
  }

  lemma InitFlags(m: Mon, phase: int, fc: FcType, c: Credit)
    ensures var m1 := SeeInit(m, phase, fc, c); m1.flags == m.flags || m1.flags == m.flags + [InitOrder(fc)]
  {
  }

  /** What hearing a packet leaves alone, but for a Nak put in front of the queue. */
  lemma HearKeeps(k: Knobs, e: End, w: Wire, endT: nat, now: int)
    ensures var e1 := EndReceive(k, e, w, endT, now);
      && e1.sent == e.sent && e1.d.tx.nullifyLeft == e.d.tx.nullifyLeft
      && (e1.d.q == e.d.q || (|e1.d.q| > 0 && e1.d.q[0].Nak? && e1.d.q[1..] == e.d.q))
  {
    match w.p
    case Control(d) => DllpRxKeeps(k, e, d, w.n, now);
    case Data(_, _, _, _) =>
      TlpCases(k, e, w.p, endT, now);
      TlpKeepsTx(k, e.d, w.p, endT, now);
      var q1 := EndTlp(k, e, w.p, endT, now).d.q;
      if q1 != e.d.q { assert q1[1..] == e.d.q; }
    case Junk =>
  }

  lemma DllpRxKeeps(k: Knobs, e: End, m: Dllp, n: nat, now: int)
    ensures var e1 := EndDllp(k, e, m, n, now);
      e1.d.q == e.d.q && e1.sent == e.sent && e1.d.tx.nullifyLeft == e.d.tx.nullifyLeft
  {
  }

  /** Nothing is ever nullified if the knob says so. */
  lemma {:induction false} PlainAlways(k: Knobs, xs: seq<Input>)
    requires k.nullifyCount == 0 && forall x | x in xs :: Possible(x)
    ensures Watch(k, xs).0.d.tx.nullifyLeft == 0
    decreases |xs|
  {
    if xs == [] {
    } else {
      var before := xs[..|xs| - 1];
      PlainAlways(k, before);
      PlainStep(k, Watch(k, before).0, xs[|xs| - 1]);
    }
  }

  lemma PlainStep(k: Knobs, e: End, x: Input)
    requires k.nullifyCount == 0 && e.d.tx.nullifyLeft == 0 && Possible(x)
    ensures React(k, e, x).0.d.tx.nullifyLeft == 0
  {
    match x
    case Own(act) =>
    case Hear(w, endT, now) => HearKeeps(k, e, w, endT, now);
    case Talk(cycle) => TalkPlain(k, e, cycle);
    case Down =>
  }

  /** Flags are never taken back. */
  lemma SeeGrows(m: Mon, out: seq<Wire>)
    ensures m.flags <= SeeAll(m, out).flags
  {
    if out != [] {
      match out[0].p
      case Data(_, _, _, _) =>
      case Control(d) => if d.InitFC? { InitFlags(m, d.phase, d.fc, d.credit); }
      case Junk =>
    }
  }

  /** On every history, whatever is offered and heard and however often the link
      goes down, the monitor flags no LCRC, number or content exactly when at every
      moment the TLPs of the epoch agree with what it remembers. */
  lemma {:induction false} TlpsFlagged(k: Knobs, xs: seq<Input>)
    requires k.nullifyCount == 0 && forall x | x in xs :: Possible(x)
    ensures NoTlpFlag(Watch(k, xs).1) <==> Agrees(k, xs)
    ensures Agrees(k, xs) ==> TlpMon(Watch(k, xs).0, Watch(k, xs).1, Memory(k, xs))
    decreases |xs|
  {
    if xs == [] {
    } else {
      var before, x := xs[..|xs| - 1], xs[|xs| - 1];
      TlpsFlagged(k, before);
      RetryBufferAlways(k, before);
      PlainAlways(k, before);
      var (e, m) := Watch(k, before);
      var out := React(k, e, x).1;
      SeeGrows(m, out);
      if !Agrees(k, before) {
        var f :| f in m.flags && !f.InitOrder?;
        assert f in Watch(k, xs).1.flags;
      } else if out != [] && out[0].p.Data? {
        TalkTlp(k, e, m, Memory(k, before), x.cycle);
      } else {
        QuietTlp(k, e, m, Memory(k, before), x);
      }
    }
  }

  // ------------------------------------------------------------ one restart

  predicate Comparable(s: seq<Tlp>, v: seq<Tlp>) { s <= v || v <= s }

  /** Within an epoch an end sends one TLP more at a time. */
  lemma ReactGrows(k: Knobs, e: End, x: Input)
    requires TxOk(e) && RxOk(e) && e.d.tx.nullifyLeft == 0 && Possible(x) && !x.Down?
    ensures var e1 := React(k, e, x).0; e.sent <= e1.sent && |e1.sent| <= |e.sent| + 1
  {
    match x
    case Own(act) => LocalStep(k, e, act);
    case Hear(w, endT, now) => HearKeeps(k, e, w, endT, now);
    case Talk(cycle) => TalkKinds(k, e, cycle);
  }

  /** An epoch `ys` after the history `xs`. */
  lemma {:induction false} EpochAgrees(k: Knobs, xs: seq<Input>, ys: seq<Input>)
    requires k.nullifyCount == 0 && forall x | x in xs + ys :: Possible(x)
    requires OneEpoch(ys) && Watch(k, xs).0.sent == []
    ensures var sent := Watch(k, xs + ys).0.sent;
      && Memory(k, xs + ys) == Longer(Memory(k, xs), sent)
      && (Agrees(k, xs + ys) <==> Agrees(k, xs) && Comparable(sent, Memory(k, xs)))
    decreases |ys|
  {
    if ys == [] {
      assert xs + ys == xs;
    } else {
      var last := |ys| - 1;
      var before := xs + ys[..last];
      assert (xs + ys)[..|xs + ys| - 1] == before && (xs + ys)[|xs + ys| - 1] == ys[last];
      EpochAgrees(k, xs, ys[..last]);
      RetryBufferAlways(k, before);
      PlainAlways(k, before);
      ReactGrows(k, Watch(k, before).0, ys[last]);
    }
  }

  /** The first TLPs of `new1` repeat what `old1` has sent since its number was
      last 0. */
  predicate Repeats(new1: seq<Tlp>, old1: seq<Tlp>) {
    var due := |old1| % SEQ_MOD;
    forall i | 0 <= i < due && i < |new1| :: new1[i] == old1[|old1| - due + i]
  }

  /** A transmitter that goes down once: with `due` the number the monitor expects
      next, no TLP is flagged in the whole run exactly when the first `due` TLPs of
      the new epoch, as far as they are sent, repeat the last `due` of the old one. */
  lemma RestartExact(k: Knobs, xs: seq<Input>, ys: seq<Input>)
    requires k.nullifyCount == 0 && OneEpoch(xs) && OneEpoch(ys) && forall x | x in xs + [Down] + ys :: Possible(x)
    ensures NoTlpFlag(Watch(k, xs + [Down] + ys).1) <==>
            Repeats(Watch(k, xs + [Down] + ys).0.sent, Watch(k, xs).0.sent)
  {
    RestartAgrees(k, xs, ys);
    EpochFlagged(k, xs + [Down], ys);
    TailCompares(Watch(k, xs + [Down] + ys).0.sent, Watch(k, xs).0.sent);
  }

  lemma RestartAgrees(k: Knobs, xs: seq<Input>, ys: seq<Input>)
    requires k.nullifyCount == 0 && OneEpoch(xs) && forall x | x in xs + [Down] + ys :: Possible(x)
    ensures var whole := xs + [Down];
      Watch(k, whole).0.sent == [] && Agrees(k, whole) && Memory(k, whole) == Tail(Watch(k, xs).0.sent)
  {
    forall x | x in xs ensures Possible(x) { assert x in xs + [Down] + ys; }
    FirstEpoch(k, xs);
    SentIsActive(k, xs);
    DownSent(k, Watch(k, xs).0);
    HistoryMore(k, xs, Down);
  }

  lemma HistoryMore(k: Knobs, xs: seq<Input>, x: Input)
    ensures var e, more := Watch(k, xs).0, xs + [x]; var e1 := React(k, e, x).0;
      && Watch(k, more).0 == e1
      && Memory(k, more) == Longer(if GoesDown(e, x) then Tail(Memory(k, xs)) else Memory(k, xs), e1.sent)
      && (Agrees(k, more) <==> Agrees(k, xs) && e1.sent <= Memory(k, more))
  {
    WatchMore(k, xs, x);
    assert (xs + [x])[..|xs|] == xs;
  }

  lemma SentIsActive(k: Knobs, xs: seq<Input>)
    requires forall x | x in xs :: Possible(x)
    ensures Watch(k, xs).0.sent != [] ==> Watch(k, xs).0.d.st == ACTIVE
  {
    RetryBufferAlways(k, xs);
  }

  /** An end that has never been up has sent nothing. */
  lemma DownSent(k: Knobs, e: End)
    requires e.sent != [] ==> e.d.st == ACTIVE
    ensures EndDown(k, e).sent == []
    ensures (if GoesDown(e, Down) then Tail(e.sent) else e.sent) == Tail(e.sent)
  {
  }

  lemma EpochFlagged(k: Knobs, xs: seq<Input>, ys: seq<Input>)
    requires k.nullifyCount == 0 && forall x | x in xs + ys :: Possible(x)
    requires OneEpoch(ys) && Watch(k, xs).0.sent == [] && Agrees(k, xs)
    ensures NoTlpFlag(Watch(k, xs + ys).1) <==> Comparable(Watch(k, xs + ys).0.sent, Memory(k, xs))
  {
    EpochAgrees(k, xs, ys);
    TlpsFlagged(k, xs + ys);
  }

  lemma FirstEpoch(k: Knobs, xs: seq<Input>)
    requires k.nullifyCount == 0 && OneEpoch(xs) && forall x | x in xs :: Possible(x)
    ensures Memory(k, xs) == Watch(k, xs).0.sent && Agrees(k, xs)
  {
    assert [] + xs == xs;
    EpochAgrees(k, [], xs);
  }

  lemma TailCompares(s: seq<Tlp>, v: seq<Tlp>)
    ensures Comparable(s, Tail(v)) <==> Repeats(s, v)
  {
    var due := |v| % SEQ_MOD;
    assert forall i | 0 <= i < due :: Tail(v)[i] == v[|v| - due + i];
  }

  /** An epoch that the peer lets become ACTIVE at once, with infinite credits, and
      in which one TLP is sent. */
  function Greeting(i: nat): Input {
    Hear(Wire(Control(InitFC(if i < 3 then 1 else 2, Nth(i), 0, ZERO)), 0), 0, 0)
  }

  function EpochOf(t: Tlp): seq<Input> {
    Greetings + [Greeting(3), Own(Offer(t)), Talk(0)]
  }

  const Greetings := [Own(GoUp(0)), Greeting(0), Greeting(1), Greeting(2)]

  lemma WatchMore(k: Knobs, xs: seq<Input>, x: Input)
    ensures Watch(k, xs + [x]).0 == React(k, Watch(k, xs).0, x).0
  {
    assert (xs + [x])[..|xs|] == xs;
  }

  predicate Starting(k: Knobs, e: End) { e == Fresh(k).(d := Reset(k).(errors := e.d.errors)) }

  /** The peer's advertisement is in, and nothing has been sent. */
  predicate Met(k: Knobs, e: End) {
    && e.d.st == FC_INIT2 && e.sent == [] && e.d.q == [] && e.d.rx == Reset(k).rx && e.d.tx == Reset(k).tx
    && e.d.flow.updNow == {} && P in e.d.flow.limit && e.d.flow.limit[P] == ZERO
    && P in e.d.flow.recorded && e.d.flow.recorded[P] == ZERO
  }

  lemma Greeted(k: Knobs, e: End)
    requires Starting(k, e)
    ensures var e1 := React(k, e, Own(GoUp(0))).0;
      Met(k, React(k, React(k, React(k, e1, Greeting(0)).0, Greeting(1)).0, Greeting(2)).0)
  {
  }

  lemma Speaks(k: Knobs, e: End, t: Tlp)
    requires k.nullifyCount == 0 && t.fc == P && t.data == 0 && Met(k, e)
    ensures var e1 := React(k, e, Greeting(3)).0; React(k, React(k, e1, Own(Offer(t))).0, Talk(0)).0.sent == [t]
  {
    var e1 := React(k, e, Greeting(3)).0;
    var e2 := React(k, e1, Own(Offer(t))).0;
    assert e2.d.tx.tlpQ == [t] && Spec.NextPacket(k, e2.d, 0) == Spec.SendNew(e2.d, 0);
  }

  lemma EpochGreets(k: Knobs, xs: seq<Input>)
    requires Starting(k, Watch(k, xs).0)
    ensures Met(k, Watch(k, xs + Greetings).0)
  {
    var s1 := xs + [Own(GoUp(0))];
    var s2 := s1 + [Greeting(0)];
    var s3 := s2 + [Greeting(1)];
    WatchMore(k, xs, Own(GoUp(0)));
    WatchMore(k, s1, Greeting(0));
    WatchMore(k, s2, Greeting(1));
    WatchMore(k, s3, Greeting(2));
    Greeted(k, Watch(k, xs).0);
    assert xs + Greetings == s3 + [Greeting(2)];
  }

  lemma EpochTalks(k: Knobs, met: seq<Input>, t: Tlp)
    requires k.nullifyCount == 0 && t.fc == P && t.data == 0 && Met(k, Watch(k, met).0)
    ensures Watch(k, met + [Greeting(3), Own(Offer(t)), Talk(0)]).0.sent == [t]
  {
    var s5 := met + [Greeting(3)];
    var s6 := s5 + [Own(Offer(t))];
    WatchMore(k, met, Greeting(3));
    WatchMore(k, s5, Own(Offer(t)));
    WatchMore(k, s6, Talk(0));
    Speaks(k, Watch(k, met).0, t);
    assert met + [Greeting(3), Own(Offer(t)), Talk(0)] == s6 + [Talk(0)];
  }

  lemma EpochSends(k: Knobs, xs: seq<Input>, t: Tlp)
    requires k.nullifyCount == 0 && t.fc == P && t.data == 0 && Starting(k, Watch(k, xs).0)
    ensures Watch(k, xs + EpochOf(t)).0.sent == [t]
  {
    EpochGreets(k, xs);
    EpochTalks(k, xs + Greetings, t);
    assert xs + EpochOf(t) == xs + Greetings + [Greeting(3), Own(Offer(t)), Talk(0)];
  }

  /** The shortest false alarm: one TLP, a link loss, one TLP. */
  lemma RestartFlagged(k: Knobs, t: Tlp, u: Tlp)
    requires k.nullifyCount == 0 && t.fc == P && t.data == 0 && u.fc == P && u.data == 0
    ensures NoTlpFlag(Watch(k, EpochOf(t) + [Down] + EpochOf(u)).1) <==> t == u
  {
    var xs, ys := EpochOf(t), EpochOf(u);
    RestartSends(k, t, u);
    RestartExact(k, xs, ys);
    var old1, new1 := Watch(k, xs).0.sent, Watch(k, xs + [Down] + ys).0.sent;
    assert old1[|old1| - 1] == t && new1[0] == u;
  }

  lemma RestartSends(k: Knobs, t: Tlp, u: Tlp)
    requires k.nullifyCount == 0 && t.fc == P && t.data == 0 && u.fc == P && u.data == 0
    ensures Watch(k, EpochOf(t)).0.sent == [t] && Watch(k, EpochOf(t) + [Down] + EpochOf(u)).0.sent == [u]
  {
    assert [] + EpochOf(t) == EpochOf(t);
    EpochSends(k, [], t);
    WatchMore(k, EpochOf(t), Down);
    SentIsActive(k, EpochOf(t));
    EpochSends(k, EpochOf(t) + [Down], u);
  }

  // ----------------------------------------------------- the order of InitFCs

  predicate SaysInit(out: seq<Wire>) { out != [] && out[0].p.Control? && out[0].p.dllp.InitFC? }

  /** An InitFC has been sent since the link last went down. */
  predicate Began(k: Knobs, xs: seq<Input>)
    decreases |xs|
  {
    xs != [] &&
    var before, x := xs[..|xs| - 1], xs[|xs| - 1];
    var e := Watch(k, before).0;
    !GoesDown(e, x) && (Began(k, before) || SaysInit(React(k, e, x).1))
  }

  /** The monitor is within a set of InitFCs of this phase. */
  predicate Within(m: Mon, phase: int) { m.fcPhase == Some(phase) && |m.fcSeq| % 3 != 0 }

  /** No epoch begins with an InitFC of a phase in which an earlier one stopped
      within a set. */
  predicate InitsFit(k: Knobs, xs: seq<Input>)
    decreases |xs|
  {
    xs == [] ||
    var before, x := xs[..|xs| - 1], xs[|xs| - 1];
    var (e, m) := Watch(k, before);
    var out := React(k, e, x).1;
    InitsFit(k, before) && (SaysInit(out) && !Began(k, before) ==> !Within(m, out[0].p.dllp.phase))
  }

  /** The queue continues the order seen, or starts it. */
  predicate InitMon(e: End, m: Mon, began: bool) {
    if began then Ordered(m.fcPhase, |m.fcSeq|, e.d.q) else Ordered(None, 0, e.d.q)
  }

  /** Only the count within a set matters. */
  lemma {:induction false} OrderedMod(phase: Option<int>, c: nat, c1: nat, q: seq<Dllp>)
    requires Ordered(phase, c, q) && c % 3 == c1 % 3
    ensures Ordered(phase, c1, q)
    decreases |q|
  {
    if q == [] {
    } else {
      match q[0]
      case InitFC(ph, t, _, _) => if phase == Some(ph) { OrderedMod(phase, c + 1, c1 + 1, q[1..]); }
      case _ => OrderedMod(phase, c, c1, q[1..]);
    }
  }

  /** The InitFC in front of the queue, seen by the monitor. */
  lemma InitPopped(m: Mon, q: seq<Dllp>, began: bool)
    requires q != [] && q[0].InitFC?
    requires if began then Ordered(m.fcPhase, |m.fcSeq|, q) else Ordered(None, 0, q)
    ensures var d := q[0]; var m1 := SeeInit(m, d.phase, d.fc, d.credit);
      if began || !Within(m, d.phase) then m1.flags == m.flags && Ordered(m1.fcPhase, |m1.fcSeq|, q[1..])
      else m1.flags == m.flags + [InitOrder(d.fc)]
  {
    var d := q[0];
    if !began && !Within(m, d.phase) && m.fcPhase == Some(d.phase) {
      OrderedMod(Some(d.phase), 1, |m.fcSeq| + 1, q[1..]);
    }
  }

  lemma StepInit(k: Knobs, e: End, m: Mon, x: Input, began: bool)
    requires TxOk(e) && RxOk(e) && e.d.tx.nullifyLeft == 0 && Possible(x) && InitMon(e, m, began)
    ensures var (e1, out) := React(k, e, x); var m1 := SeeAll(m, out);
      if SaysInit(out) && !began && Within(m, out[0].p.dllp.phase) then !NoInitFlag(m1)
      else (NoInitFlag(m1) <==> NoInitFlag(m)) && InitMon(e1, m1, !GoesDown(e, x) && (began || SaysInit(out)))
  {
    match x
    case Own(act) => OwnInit(k, e, m, act, began);
    case Hear(w, endT, now) => HearKeeps(k, e, w, endT, now);
    case Talk(cycle) => TalkInit(k, e, m, cycle, began);
    case Down =>
  }

  lemma OwnInit(k: Knobs, e: End, m: Mon, act: Act, began: bool)
    requires InitMon(e, m, began) && IsLocal(act)
    ensures InitMon(EndLocal(k, e, act), m, began)
  {
    if act.Clock? {
      var phase := if e.d.st == FC_INIT1 then 1 else 2;
      var e1 := EndTick(k, e, act.cycle);
      assert e1.d.q == e.d.q || e1.d.q == e.d.q + Spec.InitSet(k, phase);
      if began { OrderedSet(k, m.fcPhase, |m.fcSeq|, e.d.q, phase); } else { OrderedSet(k, None, 0, e.d.q, phase); }
    }
  }

  lemma TalkInit(k: Knobs, e: End, m: Mon, cycle: int, began: bool)
    requires TxOk(e) && RxOk(e) && e.d.tx.nullifyLeft == 0 && InitMon(e, m, began)
    ensures var (e1, out) := EndSend(k, e, cycle); var m1 := SeeAll(m, out);
      if SaysInit(out) && !began && Within(m, out[0].p.dllp.phase) then !NoInitFlag(m1)
      else (NoInitFlag(m1) <==> NoInitFlag(m)) && InitMon(e1, m1, began || SaysInit(out))
  {
    TalkKinds(k, e, cycle);
    var (e1, out) := EndSend(k, e, cycle);
    if SaysInit(out) {
      InitPopped(m, e.d.q, began);
      var m1 := SeeAll(m, out);
      if m1.flags != m.flags { assert InitOrder(e.d.q[0].fc) in m1.flags; }
    } else {
      NoInitSeen(m, out);
    }
  }

  lemma NoInitSeen(m: Mon, out: seq<Wire>)
    requires !SaysInit(out)
    ensures var m1 := SeeAll(m, out);
      m1.fcPhase == m.fcPhase && m1.fcSeq == m.fcSeq && (NoInitFlag(m1) <==> NoInitFlag(m))
  {
  }

  /** On every history the monitor flags no InitFC exactly when no epoch begins in
      the middle of a set that an earlier epoch left unfinished. */
  lemma {:induction false} InitsFlagged(k: Knobs, xs: seq<Input>)
    requires k.nullifyCount == 0 && forall x | x in xs :: Possible(x)
    ensures NoInitFlag(Watch(k, xs).1) <==> InitsFit(k, xs)
    ensures InitsFit(k, xs) ==> InitMon(Watch(k, xs).0, Watch(k, xs).1, Began(k, xs))
    decreases |xs|
  {
    if xs == [] {
    } else {
      var before, x := xs[..|xs| - 1], xs[|xs| - 1];
      InitsFlagged(k, before);
      RetryBufferAlways(k, before);
      PlainAlways(k, before);
      var (e, m) := Watch(k, before);
      SeeGrows(m, React(k, e, x).1);
      if InitsFit(k, before) {
        StepInit(k, e, m, x, Began(k, before));
      } else {
        var f :| f in m.flags && f.InitOrder?;
        assert f in Watch(k, xs).1.flags;
      }
    }
  }

  /** Both together: on every history of a transmitter that nullifies nothing,
      over any number of link losses, the monitor raises no flag exactly when the
      TLPs agree with what it remembers and the InitFCs fit. */
  lemma FlaggedExactly(k: Knobs, xs: seq<Input>)
    requires k.nullifyCount == 0 && forall x | x in xs :: Possible(x)
    ensures Watch(k, xs).1.flags == [] <==> Agrees(k, xs) && InitsFit(k, xs)
  {
    TlpsFlagged(k, xs);
    InitsFlagged(k, xs);
    var flags := Watch(k, xs).1.flags;
    if flags != [] { assert flags[0] in flags; }
  }

  /** In particular the first InitFC after the first epoch passes exactly unless that
      epoch ended within a set of the same phase. */
  lemma RestartInit(k: Knobs, xs: seq<Input>, phase: int, c: Credit)
    requires k.nullifyCount == 0 && OneEpoch(xs) && forall x | x in xs :: Possible(x)
    ensures var m := Watch(k, xs).1; SeeInit(m, phase, P, c).flags == [] <==> !Within(m, phase)
  {
    NeverFlagged(k, xs);
    InitSeen(Watch(k, xs).1, phase, c);
  }

  lemma InitSeen(m: Mon, phase: int, c: Credit)
    requires m.flags == []
    ensures SeeInit(m, phase, P, c).flags == [] <==> !Within(m, phase)
  {
  }

  /** In the first epoch the first InitFC always fits. */
  lemma {:induction false} FirstEpochFits(k: Knobs, xs: seq<Input>)
    requires OneEpoch(xs)
    ensures InitsFit(k, xs) && (Began(k, xs) || Watch(k, xs).1.fcPhase == None)
    decreases |xs|
  {
    if xs == [] {
    } else {
      var before := xs[..|xs| - 1];
      FirstEpochFits(k, before);
      var (e, m) := Watch(k, before);
      var out := React(k, e, xs[|xs| - 1]).1;
      if !SaysInit(out) { NoInitSeen(m, out); }
    }
  }

  /** So within one link epoch it is never flagged, whatever it is given to send and
      whatever it receives: not for LCRC, not for sequence numbers, not for the
      contents of replays, not for the order of InitFCs. */
  lemma NeverFlagged(k: Knobs, xs: seq<Input>)
    requires k.nullifyCount == 0 && OneEpoch(xs) && forall x | x in xs :: Possible(x)
    ensures Watch(k, xs).1.flags == []
  {
    FirstEpoch(k, xs);
    FirstEpochFits(k, xs);
    FlaggedExactly(k, xs);
  }
}
