/** The two halves of the far end face to face: whatever its scheduler puts on the
    wire, its receiver reports unit by unit. */
module FarTheorems {
  import opened Common
  import opened Symbols
  import Scr = Scrambler
  import L = LtssmSpec
  import LP = LtssmProofs
  import R = DllRanges
  import Frames
  import S = StreamSpec
  import P = StreamProofs
  import ST = StreamTheorems
  import opened FarSpec
  import opened FarProofs

  // ------------------------------------------------- turns of _fill as units

  /** A training set as a unit. */
  function TsUnit(xs: seq<Sym>): P.Unit
    requires |xs| == TS_LEN
  {
    P.TsU(xs[6].b, ReadNum(xs[1]), ReadNum(xs[2]), xs[3].b, xs[4].b, xs[5].b)
  }

  lemma TsPrints(ident: Byte, link: Num, lane: Num, nFts: Byte, rate: Byte, tc: Byte)
    requires (ident == TS1_ID || ident == TS2_ID) && !link.Odd? && !lane.Odd?
    ensures var xs := Ts(ident, link, lane, nFts, rate, tc);
      P.Legal(TsUnit(xs)) && P.ComLed(TsUnit(xs)) && Marked(xs) == P.Print(TsUnit(xs))
  {
  }

  lemma PlainPrints(u: P.Unit)
    requires !u.TsU?
    ensures Plain(P.UnitSyms(u)) == P.Print(u)
  {
  }

  /** What one turn of _fill adds. */
  function TurnUnit(k: Knobs, f: Far, st: L.State, cycle: int): P.Unit
    requires Ready(k, f)
  {
    var unit := L.NextUnit(k.lt, f.port.c).1;
    var p := NextPacket(k, f, st, cycle).1;
    if f.skpDue then P.SkpU(SkpSize(k, f))
    else if unit.Some? then TsUnit(unit.value)
    else if p.Some? then Frames.UnitFor(p.value)
    else P.IdleU(2)
  }

  lemma NextUnitPrints(k: L.Knobs, c: L.Core)
    requires LP.Numbered(c) && L.NextUnit(k, c).1.Some?
    ensures var xs := L.NextUnit(k, c).1.value;
      P.Legal(TsUnit(xs)) && P.ComLed(TsUnit(xs)) && Marked(xs) == P.Print(TsUnit(xs))
  {
    var s := if c.state == L.POLL_CONFIG || c.state == L.CFG_COMPLETE || c.state == L.REC_CFG then TS2_ID else TS1_ID;
    TsPrints(s, Pad, Pad, k.nFts, k.rateId, 0);
    TsPrints(s, c.link, Pad, k.nFts, k.rateId, 0);
    TsPrints(s, c.link, c.lane, k.nFts, k.rateId, 0);
  }

  lemma TurnPrints(k: Knobs, f: Far, st: L.State, cycle: int, m: R.Limits)
    requires KnobsOk(k, m) && Ready(k, f) && Sane(f, m)
    ensures var u := TurnUnit(k, f, st, cycle);
      P.Legal(u) && FillOne(k, f, st, cycle).txq == f.txq + P.Print(u) && FillOne(k, f, st, cycle).lfsr == f.lfsr
  {
    var u := TurnUnit(k, f, st, cycle);
    var unit := L.NextUnit(k.lt, f.port.c).1;
    var p := NextPacket(k, f, st, cycle).1;
    if f.skpDue {
      assert SkpSize(k, f) in k.skpCounts;
      PlainPrints(u);
    } else if unit.Some? {
      NextUnitPrints(k.lt, f.port.c);
    } else {
      if p.Some? { Frames.PacketRoundTrip(p.value); }
      PlainPrints(u);
    }
  }

  function FillUnits(k: Knobs, f: Far, st: L.State, cycle: int): seq<P.Unit>
    requires Ready(k, f)
    decreases 2 - |f.txq|
  {
    FillGrows(k, f, st, cycle);
    if |f.txq| >= 2 then []
    else [TurnUnit(k, f, st, cycle)] + FillUnits(k, FillOne(k, f, st, cycle), st, cycle)
  }

  lemma {:induction false} FillPrints(k: Knobs, f: Far, st: L.State, cycle: int, m: R.Limits)
    requires KnobsOk(k, m) && Ready(k, f) && Sane(f, m)
    ensures var us := FillUnits(k, f, st, cycle); var g := Fill(k, f, st, cycle);
      ST.AllLegal(us) && g.txq == f.txq + P.PrintAll(us) && g.lfsr == f.lfsr
    decreases 2 - |f.txq|
  {
    if |f.txq| < 2 {
      var u, f1 := TurnUnit(k, f, st, cycle), FillOne(k, f, st, cycle);
      FillGrows(k, f, st, cycle);
      TurnPrints(k, f, st, cycle, m);
      var v := TurnAdds(k, Track(f, [], [], []), st, cycle, m);
      FillPrints(k, f1, st, cycle, m);
      ST.FirstPrints(u, FillUnits(k, f1, st, cycle));
    } else {
      assert P.PrintAll([]) == [] && f.txq + [] == f.txq;
    }
  }

  // ------------------------------------------------------ a transmission

  /** The Symbols ahead of the first COM. */
  function Lead(k: Knobs): seq<Scr.Tx> { if k.comLane == 1 then Plain(Idle(1)) else [] }

  function Found(t: Track, b: Beat): Far { t.f.(port := b.port, dll := b.dll) }

  /** Every unit a transmission has queued. */
  function UnitsQueued(k: Knobs, f: Far, beats: seq<Beat>, m: R.Limits): seq<P.Unit>
    requires KnobsOk(k, m) && BeatsOk(beats, m)
    decreases |beats|
  {
    if beats == [] then []
    else
      LastBeat(beats, m);
      var b := beats[|beats| - 1];
      UnitsQueued(k, f, beats[..|beats| - 1], m) +
      FillUnits(k, Found(Sending(k, f, beats[..|beats| - 1], m), b), b.port.c.state, b.cycle)
  }

  /** Everything sent and queued is what the units print to, and what has left is
      its scrambling. */
  predicate Faithful(k: Knobs, t: Track, us: seq<P.Unit>) {
    All(t) == Lead(k) + P.PrintAll(us) && (t.f.lfsr, t.wire) == P.Sent(Scr.SEED, t.out)
  }

  lemma PopFaithful(k: Knobs, t: Track, us: seq<P.Unit>)
    requires Faithful(k, t, us) && |t.f.txq| > 0
    ensures Faithful(k, PopRun(k, t), us)
  {
    var x, t1 := t.f.txq[0], PopRun(k, t);
    PopMoves(t.out, t.f.txq);
    PopScrambles(k, t.f);
    FoldConcat(P.Scramble, Scr.SEED, t.out, [x]);
    FoldOne(P.Scramble, t.f.lfsr, x);
    assert All(t1) == All(t);
    assert (t1.f.lfsr, t1.wire) == (P.Scramble(t.f.lfsr, x).0, t.wire + P.Scramble(t.f.lfsr, x).1);
  }

  lemma PopMoves(out: seq<Scr.Tx>, q: seq<Scr.Tx>)
    requires q != []
    ensures (out + [q[0]]) + q[1..] == out + q
  {
  }

  lemma PopScrambles(k: Knobs, f: Far)
    requires |f.txq| > 0
    ensures P.Scramble(f.lfsr, f.txq[0]) == (Pop(k, f).0.lfsr, [Pop(k, f).1])
  {
  }

  lemma FillFaithful(k: Knobs, t: Track, us: seq<P.Unit>, st: L.State, cycle: int, m: R.Limits)
    requires KnobsOk(k, m) && Ready(k, t.f) && Sane(t.f, m) && Faithful(k, t, us)
    ensures Faithful(k, FillRun(k, t, st, cycle), us + FillUnits(k, t.f, st, cycle))
    ensures ST.AllLegal(FillUnits(k, t.f, st, cycle))
  {
    var more := FillUnits(k, t.f, st, cycle);
    FillPrints(k, t.f, st, cycle, m);
    FillOut(k, t, st, cycle);
    FlatMapConcat(P.Print, us, more);
    Associates(t.out, t.f.txq, P.PrintAll(more));
    Associates(Lead(k), P.PrintAll(us), P.PrintAll(more));
  }

  lemma BeatFaithful(k: Knobs, t: Track, us: seq<P.Unit>, b: Beat, m: R.Limits)
    requires KnobsOk(k, m) && BeatOk(b, m) && R.Fits(b.dll, FRAMES) && Faithful(k, t, us)
    ensures var more := FillUnits(k, Found(t, b), b.port.c.state, b.cycle);
      Faithful(k, BeatRun(k, t, b), us + more) && ST.AllLegal(more)
  {
    var t0 := t.(f := Found(t, b));
    assert All(t0) == All(t);
    FillFaithful(k, t0, us, b.port.c.state, b.cycle, m);
    var t1 := FillRun(k, t0, b.port.c.state, b.cycle);
    var all := us + FillUnits(k, t0.f, b.port.c.state, b.cycle);
    PopFaithful(k, t1, all);
    PopFaithful(k, PopRun(k, t1), all);
  }

  lemma {:induction false} SendingFaithful(k: Knobs, f: Far, beats: seq<Beat>, m: R.Limits)
    requires KnobsOk(k, m) && BeatsOk(beats, m)
    ensures var us := UnitsQueued(k, f, beats, m); ST.AllLegal(us) && Faithful(k, Sending(k, f, beats, m), us)
    decreases |beats|
  {
    if beats == [] {
      assert P.PrintAll([]) == [] && Lead(k) + [] == Lead(k) && [] + Lead(k) == Lead(k);
    } else {
      LastBeat(beats, m);
      var before := beats[..|beats| - 1];
      SendingFaithful(k, f, before, m);
      BeatFaithful(k, Sending(k, f, before, m), UnitsQueued(k, f, before, m), beats[|beats| - 1], m);
    }
  }

  // ----------------------------------------------------- and its reception

  /** A state in which training sets are sent. */
  predicate Training(st: L.State) { st != L.DETECT && st != L.L0 && !L.IdleState(st) }

  lemma FirstIsComLed(k: Knobs, f: Far, b: Beat, m: R.Limits)
    requires KnobsOk(k, m) && BeatOk(b, m) && R.Fits(b.dll, FRAMES) && Training(b.port.c.state)
    ensures var t := Track(Begin(k, f.(wasTx := false)), [], [], []);
      var us := FillUnits(k, Found(t, b), b.port.c.state, b.cycle); us != [] && P.ComLed(us[0])
  {
    var g := Found(Track(Begin(k, f.(wasTx := false)), [], [], []), b);
    assert |g.txq| < 2;
    NextUnitPrints(k.lt, b.port.c);
  }

  lemma {:induction false} StartsComLed(k: Knobs, f: Far, beats: seq<Beat>, m: R.Limits)
    requires KnobsOk(k, m) && BeatsOk(beats, m) && beats != [] && Training(beats[0].port.c.state)
    ensures var us := UnitsQueued(k, f, beats, m); us != [] && P.ComLed(us[0])
    decreases |beats|
  {
    LastBeat(beats, m);
    if |beats| == 1 {
      assert beats[..0] == [];
      FirstIsComLed(k, f, beats[0], m);
    } else {
      StartsComLed(k, f, beats[..|beats| - 1], m);
    }
  }

  /** The Symbol ahead of the first COM leaves a fresh receiver as good as new. */
  lemma LeadSilent(k: Knobs)
    ensures var c := P.Carry(S.START, Scr.SEED, Lead(k));
      P.Good(c.0) && c.2 == [] && S.Feed(c.0, K(COM)).1 == []
  {
    if k.comLane == 1 {
      var x := Scr.Tx(Sym(0, false), false);
      assert Lead(k) == [x];
      FoldOne(P.Scramble, Scr.SEED, x);
      FoldOne(S.Feed, S.START, P.Sent(Scr.SEED, [x]).1[0]);
    }
  }

  /** The whole transmission, queue and all, into a fresh receiver. */
  lemma AllParsed(k: Knobs, us: seq<P.Unit>)
    requires ST.AllLegal(us) && us != [] && P.ComLed(us[0])
    ensures P.Carry(S.START, Scr.SEED, Lead(k) + P.PrintAll(us)).2 == Fold(ST.Next, P.Nothing, us).1
  {
    LeadSilent(k);
    var c := P.Carry(S.START, Scr.SEED, Lead(k));
    P.CarryConcat(S.START, Scr.SEED, Lead(k), P.PrintAll(us));
    ST.PrintThenParse(c.0, c.1, us);
    var e := Fold(ST.Next, P.Nothing, us).1;
    assert [] + e == e;
  }

  /** A transmission that starts in training, into a fresh receiver: at every
      moment the receiver has reported, without error, a beginning of exactly what
      the units queued so far amount to, and with the queue drained it has reported
      all of it: the units, in order and with their contents, idle runs joined, but
      for at most one trailing SKP set or idle run. */
  lemma WireIsParsed(k: Knobs, f: Far, beats: seq<Beat>, m: R.Limits)
    requires KnobsOk(k, m) && BeatsOk(beats, m) && beats != [] && Training(beats[0].port.c.state)
    ensures var t := Sending(k, f, beats, m); var us := UnitsQueued(k, f, beats, m);
      var e := Fold(ST.Next, P.Nothing, us);
      S.FeedAll(S.START, t.wire).1 <= e.1 &&
      S.FeedAll(S.START, t.wire + P.Sent(t.f.lfsr, t.f.txq).1).1 == e.1 &&
      ST.UnitsOf(e.1) + ST.UnitsHeld(e.0) == ST.Coalesce(us) && forall x | x in e.1 :: ST.Sound(x)
  {
    var t := Sending(k, f, beats, m);
    var us := UnitsQueued(k, f, beats, m);
    SendingFaithful(k, f, beats, m);
    StartsComLed(k, f, beats, m);
    AllParsed(k, us);
    ST.EventsMean(us);
    FoldConcat(P.Scramble, Scr.SEED, t.out, t.f.txq);
    FoldConcat(S.Feed, S.START, t.wire, P.Sent(t.f.lfsr, t.f.txq).1);
  }
}
