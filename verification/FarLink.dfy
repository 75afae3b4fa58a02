/** Two far ends joined at the level of bytes refine the two-ended link of packets:
    what their schedulers hand to the wire and what their receivers report are the
    packets of Link, and every burst the CRCs detect is a damaged packet there. */
module FarLink {
  import opened Common
  import L = LtssmSpec
  import T = DllTypes
  import D = DllSpec
  import R = DllRanges
  import Crc
  import Scr = Scrambler
  import Frames
  import S = StreamSpec
  import P = StreamProofs
  import ST = StreamTheorems
  import opened Link
  import opened LinkMoves
  import LinkSafety
  import Far = FarSpec
  import FP = FarProofs
  import FT = FarTheorems

  // ---------------------------------------- packets handed over and reported

  function PacketOf(ev: S.Event): seq<T.Packet> {
    var p := Frames.Received(ev);
    if p.Some? then [p.value] else []
  }

  function Reported(evs: seq<S.Event>): seq<T.Packet> { FlatMap(PacketOf, evs) }

  function EventOf(p: T.Packet): S.Event
    requires Frames.Sendable(p)
  {
    match Frames.UnitFor(p)
    case DllpU(b6) => S.DllpEv(b6)
    case TlpU(body, edb) => S.TlpEv(body, edb)
  }

  lemma EventReads(p: T.Packet)
    requires Frames.Sendable(p)
    ensures Frames.Received(EventOf(p)) == Some(p)
  {
    Frames.PacketRoundTrip(p);
  }

  function CarriedBy(u: P.Unit): seq<T.Packet> {
    match u
    case DllpU(b6) => PacketOf(S.DllpEv(b6))
    case TlpU(body, edb) => PacketOf(S.TlpEv(body, edb))
    case _ => []
  }

  lemma FlushSilent(q: P.Pending)
    ensures Reported(P.Flush(q)) == []
  {
    match q
    case Nothing =>
    case SomeSkp(n) => FlatMapOne(PacketOf, S.SkpEv(n));
    case SomeIdle(n) => FlatMapOne(PacketOf, S.IdleRun(n));
  }

  lemma TellsReport(q: P.Pending, u: P.Unit)
    ensures Reported(P.Tells(q, u)) == CarriedBy(u)
  {
    if P.Tells(q, u) != [] { FlatMapOne(PacketOf, P.Tells(q, u)[0]); }
  }

  lemma UnitReports(q: P.Pending, u: P.Unit)
    ensures Reported(P.Hears(q, u)) == CarriedBy(u)
  {
    var held := if q.SomeIdle? && u.IdleU? then [] else P.Flush(q);
    FlushSilent(q);
    TellsReport(q, u);
    FlatMapConcat(PacketOf, held, P.Tells(q, u));
  }

  lemma {:induction false} UnitsReport(us: seq<P.Unit>)
    ensures Reported(Fold(ST.Next, P.Nothing, us).1) == FlatMap(CarriedBy, us)
    decreases |us|
  {
    if us == [] {
    } else {
      var init, last := us[..|us| - 1], us[|us| - 1];
      UnitsReport(init);
      var e := Fold(ST.Next, P.Nothing, init);
      UnitReports(e.0, last);
      FlatMapConcat(PacketOf, e.1, P.Hears(e.0, last));
    }
  }

  /** The packets that one turn of _fill takes from next_packet. */
  function TakenOne(k: Far.Knobs, f: Far.Far, st: L.State, cycle: int): (r: seq<T.Packet>)
    requires Far.Ready(k, f)
    ensures forall p | p in r :: Frames.Sendable(p)
  {
    var p := Far.NextPacket(k, f, st, cycle).1;
    if f.skpDue || L.NextUnit(k.lt, f.port.c).1.Some? || p.None? then [] else [p.value]
  }

  function Taken(k: Far.Knobs, f: Far.Far, st: L.State, cycle: int): (r: seq<T.Packet>)
    requires Far.Ready(k, f)
    ensures forall p | p in r :: Frames.Sendable(p)
    decreases 2 - |f.txq|
  {
    Far.FillGrows(k, f, st, cycle);
    if |f.txq| >= 2 then [] else TakenOne(k, f, st, cycle) + Taken(k, Far.FillOne(k, f, st, cycle), st, cycle)
  }

  lemma TurnCarries(k: Far.Knobs, f: Far.Far, st: L.State, cycle: int)
    requires Far.Ready(k, f)
    ensures CarriedBy(FT.TurnUnit(k, f, st, cycle)) == TakenOne(k, f, st, cycle)
  {
    var p := Far.NextPacket(k, f, st, cycle).1;
    if p.Some? { EventReads(p.value); }
  }

  lemma {:induction false} FillCarries(k: Far.Knobs, f: Far.Far, st: L.State, cycle: int)
    requires Far.Ready(k, f)
    ensures FlatMap(CarriedBy, FT.FillUnits(k, f, st, cycle)) == Taken(k, f, st, cycle)
    decreases 2 - |f.txq|
  {
    if |f.txq| < 2 {
      var u, g := FT.TurnUnit(k, f, st, cycle), Far.FillOne(k, f, st, cycle);
      Far.FillGrows(k, f, st, cycle);
      TurnCarries(k, f, st, cycle);
      FillCarries(k, g, st, cycle);
      FlatMapConcat(CarriedBy, [u], FT.FillUnits(k, g, st, cycle));
      FlatMapOne(CarriedBy, u);
    }
  }

  /** Every packet a transmission has taken from next_packet. */
  function PacketsTaken(k: Far.Knobs, f: Far.Far, beats: seq<FP.Beat>, m: R.Limits): seq<T.Packet>
    requires FP.KnobsOk(k, m) && FP.BeatsOk(beats, m)
    decreases |beats|
  {
    if beats == [] then []
    else
      FP.LastBeat(beats, m);
      var b := beats[|beats| - 1];
      PacketsTaken(k, f, beats[..|beats| - 1], m) +
      Taken(k, FT.Found(FP.Sending(k, f, beats[..|beats| - 1], m), b), b.port.c.state, b.cycle)
  }

  lemma {:induction false} QueuedCarries(k: Far.Knobs, f: Far.Far, beats: seq<FP.Beat>, m: R.Limits)
    requires FP.KnobsOk(k, m) && FP.BeatsOk(beats, m)
    ensures FlatMap(CarriedBy, FT.UnitsQueued(k, f, beats, m)) == PacketsTaken(k, f, beats, m)
    decreases |beats|
  {
    if beats == [] {
    } else {
      FP.LastBeat(beats, m);
      var b, before := beats[|beats| - 1], beats[..|beats| - 1];
      QueuedCarries(k, f, before, m);
      var g := FT.Found(FP.Sending(k, f, before, m), b);
      FillCarries(k, g, b.port.c.state, b.cycle);
      FlatMapConcat(CarriedBy, FT.UnitsQueued(k, f, before, m), FT.FillUnits(k, g, b.port.c.state, b.cycle));
    }
  }

  /** Through queue, scrambler, wire and receiver: at every moment of a transmission
      that starts in training the packets a fresh receiver has reported are a
      beginning of those taken from next_packet, and all of them once the queue is
      drained. */
  lemma PacketsOnWire(k: Far.Knobs, f: Far.Far, beats: seq<FP.Beat>, m: R.Limits)
    requires FP.KnobsOk(k, m) && FP.BeatsOk(beats, m) && beats != [] && FT.Training(beats[0].port.c.state)
    ensures var t := FP.Sending(k, f, beats, m); var taken := PacketsTaken(k, f, beats, m);
      Reported(S.FeedAll(S.START, t.wire).1) <= taken &&
      Reported(S.FeedAll(S.START, t.wire + P.Sent(t.f.lfsr, t.f.txq).1).1) == taken
  {
    var us := FT.UnitsQueued(k, f, beats, m);
    WireEvents(k, f, beats, m);
    UnitsReport(us);
    QueuedCarries(k, f, beats, m);
    ReportedPrefix(S.FeedAll(S.START, FP.Sending(k, f, beats, m).wire).1, Fold(ST.Next, P.Nothing, us).1);
  }

  lemma WireEvents(k: Far.Knobs, f: Far.Far, beats: seq<FP.Beat>, m: R.Limits)
    requires FP.KnobsOk(k, m) && FP.BeatsOk(beats, m) && beats != [] && FT.Training(beats[0].port.c.state)
    ensures var t := FP.Sending(k, f, beats, m); var all := Fold(ST.Next, P.Nothing, FT.UnitsQueued(k, f, beats, m)).1;
      S.FeedAll(S.START, t.wire).1 <= all && S.FeedAll(S.START, t.wire + P.Sent(t.f.lfsr, t.f.txq).1).1 == all
  {
    FT.WireIsParsed(k, f, beats, m);
  }

  lemma ReportedPrefix(some: seq<S.Event>, all: seq<S.Event>)
    requires some <= all
    ensures Reported(some) <= Reported(all)
  {
    assert all == some + all[|some|..];
    FlatMapConcat(PacketOf, some, all[|some|..]);
  }

  // ------------------------------------------------------- two far ends

  /** A packet under way as the event its receiver will report, and whether it is
      as it was sent. */
  datatype Flight = Flight(ev: S.Event, whole: bool)

  /** A far end with every TLP offered to it and every one it accepted. */
  datatype Side = Side(f: Far.Far, offered: seq<T.Tlp>, accepted: seq<T.Tlp>)

  datatype Pair = Pair(a: Side, b: Side, ab: seq<Flight>, ba: seq<Flight>)

  function Exchange(p: Pair): Pair { Pair(p.b, p.a, p.ba, p.ab) }

  /** What the left end can do, and what can befall what it has sent: a clock step,
      the arrival of a packet, any other event of its receiver, an offered TLP, a
      direction, a packet lost, a packet whose bytes suffer one burst. */
  datatype PairAct =
    | Clocked(cycle: int, ei: bool, run: nat)
    | Arrives(endT: nat, now: int)
    | Notices(ev: S.Event, endT: nat, now: int)
    | Offered(t: T.Tlp)
    | Directed(at: int, hold: int)
    | Vanishes(i: nat)
    | Struck(i: nat, start: nat, bytes: seq<Byte>)

  function Flights(ps: seq<T.Packet>): (r: seq<Flight>)
    requires forall p | p in ps :: Frames.Sendable(p)
    ensures |r| == |ps|
  {
    seq(|ps|, i requires 0 <= i < |ps| => Flight(EventOf(ps[i]), true))
  }

  /** One burst, of at most 32 wire bits in a TLP and 16 in a DLLP. */
  function Hit(x: Flight, at: nat, bytes: seq<Byte>): Flight {
    match x.ev
    case TlpEv(body, edb) => if x.whole && Crc.Burst(body, bytes, at, 32) then Flight(S.TlpEv(bytes, edb), false) else x
    case DllpEv(b6) => if x.whole && Crc.Burst(b6, bytes, at, 16) then Flight(S.DllpEv(bytes), false) else x
    case _ => x
  }

  function Accepted(k: T.Knobs, d: T.DllState, p: T.Packet, endT: nat, now: int): seq<T.Tlp> {
    if !p.Data? then []
    else
      var t := D.OnTlp(k, d, p, endT, now).1;
      if t.Some? then [t.value] else []
  }

  /** The state in which a clock step turns to the queue. */
  function Ticked(k: Far.Knobs, f: Far.Far, cycle: int, ei: bool, run: nat): (r: Far.Far)
    requires Far.Ready(k, f)
    ensures Far.Ready(k, r)
  {
    Far.TickReady(k, f, cycle, ei, run);
    Far.TickDll(k, Far.TickPort(k, f, cycle, ei, run), cycle)
  }

  function TakenBy(k: Far.Knobs, f: Far.Far, cycle: int): (r: seq<T.Packet>)
    requires Far.Ready(k, f)
    ensures forall p | p in r :: Frames.Sendable(p)
  {
    if f.port.c.state == L.DETECT then [] else Taken(k, Far.Begin(k, f), f.port.c.state, cycle)
  }

  function Faulty(xs: seq<Flight>, act: PairAct): seq<Flight>
    requires act.Vanishes? || act.Struck?
  {
    if act.i >= |xs| then xs
    else if act.Vanishes? then xs[..act.i] + xs[act.i + 1..]
    else xs[act.i := Hit(xs[act.i], act.start, act.bytes)]
  }

  function PairStep(k: Far.Knobs, p: Pair, act: PairAct): Pair
    requires Far.Ready(k, p.a.f)
  {
    match act
    case Clocked(cycle, ei, run) =>
      p.(a := p.a.(f := Far.Step(k, p.a.f, cycle, ei, run).0),
         ab := p.ab + Flights(TakenBy(k, Ticked(k, p.a.f, cycle, ei, run), cycle)))
    case Arrives(endT, now) =>
      if p.ba == [] then p
      else
        var x := Frames.Received(p.ba[0].ev);
        p.(a := p.a.(f := Far.Hear(k, p.a.f, p.ba[0].ev, endT, now),
                     accepted := p.a.accepted +
                       if x.Some? then Accepted(k.dll, p.a.f.dll, x.value, endT, now) else []),
           ba := p.ba[1..])
    case Notices(ev, endT, now) =>
      if Frames.Received(ev).Some? then p else p.(a := p.a.(f := Far.Hear(k, p.a.f, ev, endT, now)))
    case Offered(t) =>
      p.(a := p.a.(f := FP.React(k, p.a.f, FP.Offered(t)), offered := p.a.offered + [t]))
    case Directed(at, hold) => p.(a := p.a.(f := FP.React(k, p.a.f, FP.Directed(at, hold))))
    case Vanishes(_) => p.(ab := Faulty(p.ab, act))
    case Struck(_, _, _) => p.(ab := Faulty(p.ab, act))
  }

  datatype Turn = Ours(act: PairAct) | Theirs(act: PairAct)

  predicate PairSane(ka: Far.Knobs, kb: Far.Knobs, p: Pair, m: R.Limits) {
    FP.Sane(p.a.f, m) && Far.Ready(ka, p.a.f) && FP.Sane(p.b.f, m) && Far.Ready(kb, p.b.f)
  }

  predicate TurnsOk(ts: seq<Turn>, m: R.Limits) { forall t | t in ts && t.act.Offered? :: R.TlpFits(t.act.t, m) }

  lemma StepPairSane(k: Far.Knobs, p: Pair, act: PairAct, m: R.Limits)
    requires FP.KnobsOk(k, m) && Far.Ready(k, p.a.f) && FP.Sane(p.a.f, m) && (act.Offered? ==> R.TlpFits(act.t, m))
    ensures var p1 := PairStep(k, p, act); FP.Sane(p1.a.f, m) && Far.Ready(k, p1.a.f) && p1.b == p.b
  {
    match act
    case Clocked(cycle, ei, run) => FP.ReactSane(k, p.a.f, FP.Clocked(cycle, ei, run), m);
    case Arrives(endT, now) => if p.ba != [] { FP.ReactSane(k, p.a.f, FP.Heard(p.ba[0].ev, endT, now), m); }
    case Notices(ev, endT, now) => FP.ReactSane(k, p.a.f, FP.Heard(ev, endT, now), m);
    case Offered(t) => FP.ReactSane(k, p.a.f, FP.Offered(t), m);
    case Directed(at, hold) => FP.ReactSane(k, p.a.f, FP.Directed(at, hold), m);
    case Vanishes(_) =>
    case Struck(_, _, _) =>
  }

  function Start(k: Far.Knobs): Side {
    Side(Far.Far(L.START, T.Reset(k.dll), Scr.SEED, [], 0, false, 0, 0, false), [], [])
  }

  function PairPlay(ka: Far.Knobs, kb: Far.Knobs, p: Pair, t: Turn): Pair
    requires Far.Ready(ka, p.a.f) && Far.Ready(kb, p.b.f)
  {
    match t
    case Ours(act) => PairStep(ka, p, act)
    case Theirs(act) => Exchange(PairStep(kb, Exchange(p), act))
  }

  function PairRun(ka: Far.Knobs, kb: Far.Knobs, ts: seq<Turn>, m: R.Limits): (p: Pair)
    requires FP.KnobsOk(ka, m) && FP.KnobsOk(kb, m) && TurnsOk(ts, m)
    ensures PairSane(ka, kb, p, m)
    decreases |ts|
  {
    if ts == [] then
      R.ResetFits(ka.dll, m);
      R.ResetFits(ka.dll, Far.FRAMES);
      R.ResetFits(kb.dll, m);
      R.ResetFits(kb.dll, Far.FRAMES);
      Pair(Start(ka), Start(kb), [], [])
    else
      var p, t := PairRun(ka, kb, ts[..|ts| - 1], m), ts[|ts| - 1];
      assert t in ts;
      if t.Ours? then StepPairSane(ka, p, t.act, m); PairPlay(ka, kb, p, t)
      else StepPairSane(kb, Exchange(p), t.act, m); PairPlay(ka, kb, p, t)
  }

  /** A clock step that does not take an active link down. */
  predicate StaysUp(k: Far.Knobs, f: Far.Far, act: PairAct) {
    act.Clocked? && f.dll.st != T.INACTIVE ==> Far.TickPort(k, f, act.cycle, act.ei, act.run).port.c.linkup
  }

  /** One link-up epoch at both ends. */
  predicate OneLinkUp(ka: Far.Knobs, kb: Far.Knobs, ts: seq<Turn>, m: R.Limits)
    requires FP.KnobsOk(ka, m) && FP.KnobsOk(kb, m) && TurnsOk(ts, m)
    decreases |ts|
  {
    ts == [] ||
    var p, t := PairRun(ka, kb, ts[..|ts| - 1], m), ts[|ts| - 1];
    OneLinkUp(ka, kb, ts[..|ts| - 1], m) &&
    match t case Ours(act) => StaysUp(ka, p.a.f, act) case Theirs(act) => StaysUp(kb, p.b.f, act)
  }

  // ------------------------------------------------------------ refinement

  /** Two packets that a Data Link Layer treats alike: the same, or both refused in
      the same way. */
  predicate Alike(q: T.Packet, p: T.Packet) {
    q == p ||
    (q.Data? && p.Data? && q.edb == p.edb &&
     if q.edb then (q.lcrc == T.Inverted <==> p.lcrc == T.Inverted) else q.lcrc != T.Good && p.lcrc != T.Good)
  }

  lemma AlikeHeard(k: T.Knobs, d: T.DllState, q: T.Packet, p: T.Packet, endT: nat, now: int)
    requires Alike(q, p)
    ensures Far.HearPacket(k, d, q, endT, now) == Far.HearPacket(k, d, p, endT, now)
    ensures Accepted(k, d, q, endT, now) == Accepted(k, d, p, endT, now)
  {
  }

  predicate Carries(x: Flight, w: Wire) {
    var q := Frames.Received(x.ev);
    q.Some? && Alike(q.value, w.p) && (x.whole ==> q.value == w.p && Frames.Sendable(w.p))
  }

  predicate Channel(xs: seq<Flight>, ws: seq<Wire>) {
    |xs| == |ws| && forall i | 0 <= i < |xs| :: Carries(xs[i], ws[i])
  }

  predicate SameSide(s: Side, e: End) { e.d == s.f.dll && e.offered == s.offered && e.got == s.accepted }

  predicate Same(p: Pair, n: Net) {
    SameSide(p.a, n.a) && SameSide(p.b, n.b) && Channel(p.ab, n.ab) && Channel(p.ba, n.ba)
  }

  /** A turn of _fill that asks next_packet. */
  lemma AskRefines(k: Far.Knobs, f: Far.Far, e: End, cycle: int)
    requires Far.Ready(k, f) && e.d == f.dll && !f.skpDue && L.NextUnit(k.lt, f.port.c).1.None? && f.gapLeft <= 0
    ensures var (e1, out) := EndSend(k.dll, e, cycle); var taken := TakenOne(k, f, L.L0, cycle);
      e1.d == Far.FillOne(k, f, L.L0, cycle).dll && e1.offered == e.offered && e1.got == e.got && Sent([], out, taken)
  {
  }

  /** One turn of _fill asks next_packet once or not at all. */
  lemma TurnRefines(ka: Far.Knobs, kb: T.Knobs, f: Far.Far, n: Net, st: L.State, cycle: int) returns (moves: seq<Move>)
    requires Far.Ready(ka, f) && n.a.d == f.dll
    ensures var n1 := Run(ka.dll, kb, n, moves); var taken := TakenOne(ka, f, st, cycle);
      && n1.a.d == Far.FillOne(ka, f, st, cycle).dll && n1.a.offered == n.a.offered && n1.a.got == n.a.got
      && n1.b == n.b && n1.ba == n.ba && Sent(n.ab, n1.ab, taken)
  {
    if f.skpDue || L.NextUnit(ka.lt, f.port.c).1.Some? || st != L.L0 || f.gapLeft > 0 {
      moves := [];
    } else {
      moves := [Left(Transmit(cycle))];
      RunOne(ka.dll, kb, n, Left(Transmit(cycle)));
      AskRefines(ka, f, n.a, cycle);
    }
  }

  /** `taken` has been put on the channel. */
  predicate Sent(ab: seq<Wire>, ab1: seq<Wire>, taken: seq<T.Packet>) {
    |ab1| == |ab| + |taken| && ab1[..|ab|] == ab && forall i | 0 <= i < |taken| :: ab1[|ab| + i].p == taken[i]
  }

  lemma SentMore(x: seq<Wire>, y: seq<Wire>, z: seq<Wire>, ps: seq<T.Packet>, qs: seq<T.Packet>)
    requires Sent(x, y, ps) && Sent(y, z, qs)
    ensures Sent(x, z, ps + qs)
  {
    assert z[..|x|] == z[..|y|][..|x|];
    forall i | 0 <= i < |ps| ensures z[|x| + i].p == ps[i] { assert z[|x| + i] == z[..|y|][|x| + i]; }
    forall i | 0 <= i < |qs| ensures z[|x| + |ps| + i].p == qs[i] { assert z[|y| + i].p == qs[i]; }
  }

  lemma {:induction false} FillRefines(ka: Far.Knobs, kb: T.Knobs, f: Far.Far, n: Net, st: L.State, cycle: int)
    returns (moves: seq<Move>)
    requires Far.Ready(ka, f) && n.a.d == f.dll
    ensures var n1 := Run(ka.dll, kb, n, moves); var taken := Taken(ka, f, st, cycle);
      && n1.a.d == Far.Fill(ka, f, st, cycle).dll && n1.a.offered == n.a.offered && n1.a.got == n.a.got
      && n1.b == n.b && n1.ba == n.ba && Sent(n.ab, n1.ab, taken)
    decreases 2 - |f.txq|
  {
    if |f.txq| >= 2 {
      moves := [];
    } else {
      Far.FillGrows(ka, f, st, cycle);
      var xs := TurnRefines(ka, kb, f, n, st, cycle);
      var n1, g := Run(ka.dll, kb, n, xs), Far.FillOne(ka, f, st, cycle);
      var ys := FillRefines(ka, kb, g, n1, st, cycle);
      RunConcat(ka.dll, kb, n, xs, ys);
      SentMore(n.ab, n1.ab, Run(ka.dll, kb, n1, ys).ab, TakenOne(ka, f, st, cycle), Taken(ka, g, st, cycle));
      moves := xs + ys;
    }
  }

  /** link_up and tick. */
  lemma TickRefines(ka: Far.Knobs, kb: T.Knobs, f: Far.Far, n: Net, act: PairAct) returns (moves: seq<Move>)
    requires n.a.d == f.dll && act.Clocked? && StaysUp(ka, f, act)
    ensures var n1 := Run(ka.dll, kb, n, moves);
      && n1.a.d == Far.TickDll(ka, Far.TickPort(ka, f, act.cycle, act.ei, act.run), act.cycle).dll
      && n1.a.offered == n.a.offered && n1.a.got == n.a.got && n1 == n.(a := n1.a)
  {
    var tick := Left(Clock(act.cycle));
    if Far.TickPort(ka, f, act.cycle, act.ei, act.run).port.c.linkup {
      moves := [Left(GoUp(act.cycle)), tick];
      RunTwo(ka.dll, kb, n, Left(GoUp(act.cycle)), tick);
    } else {
      moves := [tick];
      RunOne(ka.dll, kb, n, tick);
    }
  }

  lemma NewCarry(ws: seq<Wire>, taken: seq<T.Packet>)
    requires Sent([], ws, taken) && forall p | p in taken :: Frames.Sendable(p)
    ensures Channel(Flights(taken), ws)
  {
    forall i | 0 <= i < |taken| ensures Carries(Flights(taken)[i], ws[i]) {
      var p := taken[i];
      assert p in taken && ws[0 + i].p == p;
      EventReads(p);
    }
  }

  lemma ChannelConcat(xs: seq<Flight>, ws: seq<Wire>, xs1: seq<Flight>, ws1: seq<Wire>)
    requires Channel(xs, ws) && Channel(xs1, ws1)
    ensures Channel(xs + xs1, ws + ws1)
  {
  }

  lemma FlightsCarry(xs: seq<Flight>, ws: seq<Wire>, ws1: seq<Wire>, taken: seq<T.Packet>)
    requires Channel(xs, ws) && Sent(ws, ws1, taken) && forall p | p in taken :: Frames.Sendable(p)
    ensures Channel(xs + Flights(taken), ws1)
  {
    var more := ws1[|ws|..];
    assert forall i | 0 <= i < |taken| :: more[i] == ws1[|ws| + i];
    NewCarry(more, taken);
    ChannelConcat(xs, ws, Flights(taken), more);
    assert ws + more == ws1;
  }

  lemma ClockRefines(ka: Far.Knobs, kb: T.Knobs, p: Pair, n: Net, act: PairAct) returns (moves: seq<Move>)
    requires Far.Ready(ka, p.a.f) && Same(p, n) && act.Clocked? && StaysUp(ka, p.a.f, act)
    ensures Same(PairStep(ka, p, act), Run(ka.dll, kb, n, moves))
  {
    var f := Ticked(ka, p.a.f, act.cycle, act.ei, act.run);
    var xs := TickRefines(ka, kb, p.a.f, n, act);
    var n1 := Run(ka.dll, kb, n, xs);
    var ys := [];
    if f.port.c.state != L.DETECT {
      ys := FillRefines(ka, kb, Far.Begin(ka, f), n1, f.port.c.state, act.cycle);
    }
    RunConcat(ka.dll, kb, n, xs, ys);
    moves := xs + ys;
    FlightsCarry(p.ab, n.ab, Run(ka.dll, kb, n1, ys).ab, TakenBy(ka, f, act.cycle));
  }

  lemma ArriveRefines(ka: Far.Knobs, kb: T.Knobs, p: Pair, n: Net, act: PairAct) returns (moves: seq<Move>)
    requires Far.Ready(ka, p.a.f) && Same(p, n) && act.Arrives?
    ensures Same(PairStep(ka, p, act), Run(ka.dll, kb, n, moves))
  {
    var m := Left(Receive(act.endT, act.now));
    moves := [m];
    RunOne(ka.dll, kb, n, m);
    if p.ba != [] {
      assert Carries(p.ba[0], n.ba[0]);
      AlikeHeard(ka.dll, p.a.f.dll, Frames.Received(p.ba[0].ev).value, n.ba[0].p, act.endT, act.now);
    }
  }

  /** A burst is a damaged packet of the link, or leaves a nullified TLP one. */
  lemma HitRefines(x: Flight, w: Wire, start: nat, bytes: seq<Byte>)
    requires Carries(x, w)
    ensures Carries(Hit(x, start, bytes), w) || Carries(Hit(x, start, bytes), Damaged(w))
  {
    if Hit(x, start, bytes) != x {
      if x.ev.TlpEv? { TlpHit(x, w, start, bytes); } else { DllpHit(x, w, start, bytes); }
    }
  }

  lemma TlpHit(x: Flight, w: Wire, start: nat, bytes: seq<Byte>)
    requires Carries(x, w) && x.ev.TlpEv? && x.whole && Crc.Burst(x.ev.body, bytes, start, 32)
    ensures var x1 := Flight(S.TlpEv(bytes, x.ev.edb), false); Carries(x1, w) || Carries(x1, Damaged(w))
  {
    if !x.ev.edb { Frames.DamagedTlpShows(x.ev.body, bytes, start, false); }
  }

  lemma DllpHit(x: Flight, w: Wire, start: nat, bytes: seq<Byte>)
    requires Carries(x, w) && x.ev.DllpEv? && x.whole && Crc.Burst(x.ev.b6, bytes, start, 16)
    ensures Carries(Flight(S.DllpEv(bytes), false), Damaged(w))
  {
    Frames.DamagedDllpShows(x.ev.b6, bytes, start);
  }

  lemma ChannelUpdates(xs: seq<Flight>, ws: seq<Wire>, i: nat, x: Flight, w: Wire)
    requires Channel(xs, ws) && i < |xs| && Carries(x, w)
    ensures Channel(xs[i := x], ws[i := w])
  {
  }

  lemma ChannelLoses(xs: seq<Flight>, ws: seq<Wire>, i: nat)
    requires Channel(xs, ws) && i < |xs|
    ensures Channel(xs[..i] + xs[i + 1..], ws[..i] + ws[i + 1..])
  {
    var xs1, ws1 := xs[..i] + xs[i + 1..], ws[..i] + ws[i + 1..];
    forall j | 0 <= j < |xs1| ensures Carries(xs1[j], ws1[j]) {
      assert Carries(xs[if j < i then j else j + 1], ws[if j < i then j else j + 1]);
    }
  }

  lemma BurstChannel(xs: seq<Flight>, ws: seq<Wire>, i: nat, start: nat, bytes: seq<Byte>)
    requires Channel(xs, ws) && i < |xs|
    ensures var xs1 := xs[i := Hit(xs[i], start, bytes)];
      Channel(xs1, ws) || Channel(xs1, ws[i := Damaged(ws[i])])
  {
    var x1, w := Hit(xs[i], start, bytes), ws[i];
    assert Carries(xs[i], w);
    HitRefines(xs[i], w, start, bytes);
    if Carries(x1, w) {
      ChannelUpdates(xs, ws, i, x1, w);
      assert ws[i := w] == ws;
    } else {
      ChannelUpdates(xs, ws, i, x1, Damaged(w));
    }
  }

  /** What a fault of the link makes of a channel. */
  function Worn(ws: seq<Wire>, m: Act): seq<Wire>
    requires m.Lose? || m.Damage?
  {
    if m.i >= |ws| then ws else if m.Lose? then ws[..m.i] + ws[m.i + 1..] else ws[m.i := Damaged(ws[m.i])]
  }

  /** A fault on the channel is one of the link, or none. */
  lemma FaultChannel(xs: seq<Flight>, ws: seq<Wire>, act: PairAct) returns (m: Act)
    requires Channel(xs, ws) && (act.Vanishes? || act.Struck?)
    ensures (m.Lose? || m.Damage?) && Channel(Faulty(xs, act), Worn(ws, m))
  {
    m := Lose(|xs|);
    if act.i < |xs| {
      if act.Vanishes? {
        ChannelLoses(xs, ws, act.i);
        m := Lose(act.i);
      } else {
        BurstChannel(xs, ws, act.i, act.start, act.bytes);
        if !Channel(Faulty(xs, act), ws) { m := Damage(act.i); }
      }
    }
  }

  lemma FaultRefines(ka: Far.Knobs, kb: T.Knobs, p: Pair, n: Net, act: PairAct) returns (moves: seq<Move>)
    requires Far.Ready(ka, p.a.f) && Same(p, n) && (act.Vanishes? || act.Struck?)
    ensures Same(PairStep(ka, p, act), Run(ka.dll, kb, n, moves))
  {
    var m := FaultChannel(p.ab, n.ab, act);
    moves := [Left(m)];
    RunOne(ka.dll, kb, n, Left(m));
    assert Step(ka.dll, n, m) == n.(ab := Worn(n.ab, m));
  }

  lemma StepRefines(ka: Far.Knobs, kb: T.Knobs, p: Pair, n: Net, act: PairAct) returns (moves: seq<Move>)
    requires Far.Ready(ka, p.a.f) && Same(p, n) && StaysUp(ka, p.a.f, act)
    ensures Same(PairStep(ka, p, act), Run(ka.dll, kb, n, moves))
  {
    match act
    case Clocked(_, _, _) => moves := ClockRefines(ka, kb, p, n, act);
    case Arrives(_, _) => moves := ArriveRefines(ka, kb, p, n, act);
    case Offered(t) =>
      moves := [Left(Offer(t))];
      RunOne(ka.dll, kb, n, Left(Offer(t)));
    case Notices(_, _, _) => moves := [];
    case Directed(_, _) => moves := [];
    case Vanishes(_) => moves := FaultRefines(ka, kb, p, n, act);
    case Struck(_, _, _) => moves := FaultRefines(ka, kb, p, n, act);
  }

  /** Every run of two far ends is a schedule of the link. */
  lemma {:induction false} PairRefines(ka: Far.Knobs, kb: Far.Knobs, ts: seq<Turn>, m: R.Limits)
    returns (moves: seq<Move>)
    requires FP.KnobsOk(ka, m) && FP.KnobsOk(kb, m) && TurnsOk(ts, m) && OneLinkUp(ka, kb, ts, m)
    ensures Same(PairRun(ka, kb, ts, m), Run(ka.dll, kb.dll, Boot(ka.dll, kb.dll), moves))
    decreases |ts|
  {
    var boot := Boot(ka.dll, kb.dll);
    if ts == [] {
      moves := [];
    } else {
      var xs := PairRefines(ka, kb, ts[..|ts| - 1], m);
      var p, n := PairRun(ka, kb, ts[..|ts| - 1], m), Run(ka.dll, kb.dll, boot, xs);
      var ys;
      match ts[|ts| - 1] {
        case Ours(act) => ys := StepRefines(ka, kb.dll, p, n, act);
        case Theirs(act) =>
          ys := StepRefines(kb, ka.dll, Exchange(p), Swap(n), act);
          FlipRun(kb.dll, ka.dll, Swap(n), ys);
          ys := Flip(ys);
      }
      RunConcat(ka.dll, kb.dll, boot, xs, ys);
      moves := xs + ys;
    }
  }

  /** From bytes to delivery: two far ends exchange frames that are lost or suffer
      bursts their CRCs detect. The run is a schedule of the link, and in each
      direction in which no Ack or Nak is misread on it, the TLPs accepted are a
      prefix of the TLPs offered, exactly once and in order. */
  lemma EndToEnd(ka: Far.Knobs, kb: Far.Knobs, ts: seq<Turn>, m: R.Limits) returns (moves: seq<Move>)
    requires FP.KnobsOk(ka, m) && FP.KnobsOk(kb, m) && TurnsOk(ts, m) && OneLinkUp(ka, kb, ts, m)
    ensures var p := PairRun(ka, kb, ts, m); var boot := Boot(ka.dll, kb.dll);
      && Same(p, Run(ka.dll, kb.dll, boot, moves))
      && (LinkSafety.Reads(ka.dll, kb.dll, boot, moves, true) ==> p.b.accepted <= p.a.offered)
      && (LinkSafety.Reads(ka.dll, kb.dll, boot, moves, false) ==> p.a.accepted <= p.b.offered)
  {
    moves := PairRefines(ka, kb, ts, m);
    LinkSafety.ExactlyOnceInOrder(ka.dll, kb.dll, moves, true);
    LinkSafety.ExactlyOnceInOrder(ka.dll, kb.dll, moves, false);
  }
}
