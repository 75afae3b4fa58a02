/** Spacing of SKP sets and byte lanes of COM in everything the far end sends, and
    what a clock step keeps between LTSSM and Data Link Layer. */
module FarProofs {
  import opened Common
  import opened Symbols
  import Scr = Scrambler
  import L = LtssmSpec
  import LP = LtssmProofs
  import T = DllTypes
  import R = DllRanges
  import D = DllSpec
  import Fields
  import Frames
  import Link
  import P = StreamProofs
  import Rx = StreamSpec
  import opened FarSpec

  // ------------------------------------------------------- shapes of units

  /** The longest unit that is not a SKP set. */
  function Longest(m: R.Limits): nat { if m.max + 8 >= TS_LEN then m.max + 8 else TS_LEN }

  predicate IsCom(x: Scr.Tx) { x.s == K(COM) }

  predicate IsSkp(x: Scr.Tx) { x.s == K(SKP) }

  /** COM only in front, and not alone. */
  predicate ComFirst(u: seq<Scr.Tx>) {
    |u| >= 2 && !IsCom(u[|u| - 1]) && forall i | 1 <= i < |u| :: !IsCom(u[i])
  }

  predicate OtherUnit(u: seq<Scr.Tx>, m: R.Limits) {
    ComFirst(u) && |u| <= Longest(m) && (forall x | x in u :: !IsSkp(x)) && (m.even ==> |u| % 2 == 0)
  }

  predicate SkpUnit(u: seq<Scr.Tx>, m: R.Limits) {
    ComFirst(u) && |u| <= 1 + SKP_RX_MAX && IsCom(u[0]) && (forall i | 1 <= i < |u| :: IsSkp(u[i])) &&
    (m.even ==> |u| % 2 == 0)
  }

  lemma SkpShape(n: nat, m: R.Limits)
    requires 1 <= n <= SKP_RX_MAX && (m.even ==> n % 2 == 1)
    ensures SkpUnit(Plain(SkpOs(n)), m)
  {
  }

  lemma TsShape(ident: Byte, link: Num, lane: Num, nFts: Byte, rate: Byte, tc: Byte, m: R.Limits)
    requires !link.Odd? && !lane.Odd?
    ensures OtherUnit(Marked(Ts(ident, link, lane, nFts, rate, tc)), m)
  {
  }

  lemma WrapShape(start: Byte, bytes: seq<Byte>, stop: Byte, m: R.Limits)
    requires start != COM && start != SKP && stop != COM && stop != SKP
    requires |bytes| + 2 <= Longest(m) && (m.even ==> |bytes| % 2 == 0)
    ensures OtherUnit(Plain(Wrap(start, bytes, stop)), m)
  {
  }

  lemma DllpShape(d: T.Dllp, m: R.Limits)
    requires Frames.Sendable(T.Control(d))
    ensures OtherUnit(Plain(Frames.Frame(T.Control(d))), m)
  {
    WrapShape(SDP, DllpBody(Frames.DllpBytes(d)), END, m);
  }

  lemma TlpShape(num: bv12, tlp: seq<Byte>, edb: bool, m: R.Limits)
    requires |tlp| <= m.max && (m.even ==> |tlp| % 2 == 0)
    ensures OtherUnit(Plain(FrameTlp(num, tlp, edb)), m)
  {
    var body := TlpBody(num, tlp, edb);
    EvenBody(|tlp|);
    WrapShape(STP, body, if edb then EDB else END, m);
  }

  lemma EvenBody(n: nat)
    ensures n % 2 == 0 ==> (n + 6) % 2 == 0
  {
  }

  lemma FrameShape(p: T.Packet, m: R.Limits)
    requires R.PacketFits(p, m)
    ensures OtherUnit(Plain(Frames.Frame(p)), m)
  {
    if p.Control? {
      DllpShape(p.dllp, m);
    } else {
      TlpShape(Fields.Word(p.num), p.tlp.bytes, p.edb, m);
    }
  }

  lemma IdleShape(m: R.Limits)
    ensures OtherUnit(Plain(Idle(2)), m)
  {
  }

  /** What the LTSSM sends is a training set with proper numbers. */
  lemma NextUnitShape(k: L.Knobs, c: L.Core, m: R.Limits)
    requires LP.Numbered(c)
    ensures L.NextUnit(k, c).1.Some? ==> OtherUnit(Marked(L.NextUnit(k, c).1.value), m)
  {
    var s := if c.state == L.POLL_CONFIG || c.state == L.CFG_COMPLETE || c.state == L.REC_CFG then TS2_ID else TS1_ID;
    TsShape(s, Pad, Pad, k.nFts, k.rateId, 0, m);
    TsShape(s, c.link, Pad, k.nFts, k.rateId, 0, m);
    TsShape(s, c.link, c.lane, k.nFts, k.rateId, 0, m);
  }

  lemma NextUnitLink(k: L.Knobs, c: L.Core)
    ensures L.NextUnit(k, c).0.linkup == c.linkup
  {
  }

  lemma NextUnitNumbers(k: L.Knobs, c: L.Core)
    ensures L.NextUnit(k, c).0.link == c.link && L.NextUnit(k, c).0.lane == c.lane
  {
    if c.state == L.CFG_LW_START {
    } else if c.state == L.CFG_LN_WAIT || c.state == L.CFG_LN_ACCEPT || c.state == L.REC_LOCK {
    } else {
    }
  }

  lemma NextUnitState(k: L.Knobs, c: L.Core)
    ensures var c1 := L.NextUnit(k, c).0;
      && (c1.state == c.state ==> c1.lwLeft.Some? ==> c.lwLeft.Some?)
      && (c1.state != c.state ==> c.state == L.CFG_LW_START && c1.state == L.CFG_LW_ACCEPT &&
                                  c.lwLeft.Some? && c1.lwLeft.None?)
  {
  }

  lemma NextUnitNumbered(k: L.Knobs, c: L.Core)
    requires LP.Numbered(c)
    ensures LP.Numbered(L.NextUnit(k, c).0)
  {
    NextUnitLink(k, c);
    NextUnitNumbers(k, c);
    NextUnitState(k, c);
  }

  // ------------------------------------------------------------------- runs

  /** A transmission since it began: the scheduler, all Symbols sent, before and
      after scrambling, and where the COM of each SKP set was put. */
  datatype Track = Track(f: Far, out: seq<Scr.Tx>, wire: seq<Sym>, coms: seq<nat>)

  /** Everything sent and queued. */
  function All(t: Track): seq<Scr.Tx> { t.out + t.f.txq }

  function FillTurn(k: Knobs, t: Track, st: L.State, cycle: int): Track
    requires Ready(k, t.f)
  {
    t.(f := FillOne(k, t.f, st, cycle), coms := if t.f.skpDue then t.coms + [|All(t)|] else t.coms)
  }

  function FillRun(k: Knobs, t: Track, st: L.State, cycle: int): (r: Track)
    requires Ready(k, t.f)
    ensures r.f == Fill(k, t.f, st, cycle)
    decreases 2 - |t.f.txq|
  {
    FillGrows(k, t.f, st, cycle);
    if |t.f.txq| >= 2 then t else FillRun(k, FillTurn(k, t, st, cycle), st, cycle)
  }

  function PopRun(k: Knobs, t: Track): Track
    requires |t.f.txq| > 0
  {
    t.(f := Pop(k, t.f).0, out := t.out + [t.f.txq[0]], wire := t.wire + [Pop(k, t.f).1])
  }

  /** What one clock finds: the two machines as reception and ticking left them. */
  datatype Beat = Beat(port: L.Port, dll: T.DllState, cycle: int)

  predicate BeatOk(b: Beat, m: R.Limits) {
    b.port.c.state != L.DETECT && LP.Numbered(b.port.c) && R.Fits(b.dll, m)
  }

  predicate KnobsOk(k: Knobs, m: R.Limits) {
    |k.skpCounts| > 0 && R.KnobsFit(k.dll) && m.max <= 4116 && k.skpInterval >= 2 && 0 <= k.comLane <= 1 &&
    forall n | n in k.skpCounts :: 1 <= n <= SKP_RX_MAX && (m.even ==> n % 2 == 1)
  }

  predicate Held(t: Track, m: R.Limits) { LP.Numbered(t.f.port.c) && R.Fits(t.f.dll, m) }

  lemma FitsFrames(d: T.DllState, m: R.Limits)
    requires R.Fits(d, m) && m.max <= 4116
    ensures R.Fits(d, FRAMES)
  {
  }

  /** What a turn does to the queue: one unit more, a SKP set exactly when due. */
  predicate Turned(t: Track, t1: Track, u: seq<Scr.Tx>, m: R.Limits) {
    t1.out == t.out && t1.wire == t.wire && t1.f.txq == t.f.txq + u && !t1.f.skpDue &&
    (if t.f.skpDue then SkpUnit(u, m) && t1.f.skpCount == 0 && t1.coms == t.coms + [|All(t)|]
     else OtherUnit(u, m) && t1.f.skpCount == t.f.skpCount && t1.coms == t.coms)
  }

  lemma SkpTurn(k: Knobs, t: Track, st: L.State, cycle: int, m: R.Limits) returns (u: seq<Scr.Tx>)
    requires KnobsOk(k, m) && Held(t, m) && Ready(k, t.f) && t.f.skpDue
    ensures Held(FillTurn(k, t, st, cycle), m) && Turned(t, FillTurn(k, t, st, cycle), u, m)
  {
    u := Plain(SkpOs(SkpSize(k, t.f)));
    assert SkpSize(k, t.f) in k.skpCounts;
    SkpShape(SkpSize(k, t.f), m);
  }

  lemma TsTurn(k: Knobs, t: Track, st: L.State, cycle: int, m: R.Limits) returns (u: seq<Scr.Tx>)
    requires KnobsOk(k, m) && Held(t, m) && Ready(k, t.f) && !t.f.skpDue && L.NextUnit(k.lt, t.f.port.c).1.Some?
    ensures Held(FillTurn(k, t, st, cycle), m) && Turned(t, FillTurn(k, t, st, cycle), u, m)
  {
    u := Marked(L.NextUnit(k.lt, t.f.port.c).1.value);
    NextUnitShape(k.lt, t.f.port.c, m);
    NextUnitNumbered(k.lt, t.f.port.c);
  }

  lemma PacketTurn(k: Knobs, t: Track, st: L.State, cycle: int, m: R.Limits) returns (u: seq<Scr.Tx>)
    requires KnobsOk(k, m) && Held(t, m) && Ready(k, t.f) && !t.f.skpDue && L.NextUnit(k.lt, t.f.port.c).1.None?
    requires NextPacket(k, t.f, st, cycle).1.Some?
    ensures Held(FillTurn(k, t, st, cycle), m) && Turned(t, FillTurn(k, t, st, cycle), u, m)
  {
    var p := NextPacket(k, t.f, st, cycle).1.value;
    u := Plain(Frames.Frame(p));
    R.NextFits(k.dll, t.f.dll, cycle, m);
    FrameShape(p, m);
  }

  lemma IdleTurn(k: Knobs, t: Track, st: L.State, cycle: int, m: R.Limits) returns (u: seq<Scr.Tx>)
    requires KnobsOk(k, m) && Held(t, m) && Ready(k, t.f) && !t.f.skpDue && L.NextUnit(k.lt, t.f.port.c).1.None?
    requires NextPacket(k, t.f, st, cycle).1.None?
    ensures Held(FillTurn(k, t, st, cycle), m) && Turned(t, FillTurn(k, t, st, cycle), u, m)
  {
    u := Plain(Idle(2));
    IdleShape(m);
  }

  lemma TurnAdds(k: Knobs, t: Track, st: L.State, cycle: int, m: R.Limits) returns (u: seq<Scr.Tx>)
    requires KnobsOk(k, m) && Held(t, m) && Ready(k, t.f)
    ensures Held(FillTurn(k, t, st, cycle), m) && Turned(t, FillTurn(k, t, st, cycle), u, m)
  {
    if t.f.skpDue {
      u := SkpTurn(k, t, st, cycle, m);
    } else if L.NextUnit(k.lt, t.f.port.c).1.Some? {
      u := TsTurn(k, t, st, cycle, m);
    } else if NextPacket(k, t.f, st, cycle).1.Some? {
      u := PacketTurn(k, t, st, cycle, m);
    } else {
      u := IdleTurn(k, t, st, cycle, m);
    }
  }

  // ---------------------------------------------------------- SKP spacing

  /** Neighbouring entries are between `lo` and `hi` apart. */
  predicate Apart(coms: seq<nat>, lo: int, hi: int) {
    forall i | 0 < i < |coms| :: lo <= coms[i] - coms[i - 1] <= hi
  }

  /** Symbols sent when the count was last reset. */
  function Reset(t: Track): int { |t.out| - t.f.skpCount }

  predicate Spaced(k: Knobs, t: Track, m: R.Limits) {
    && t.f.skpCount <= |t.out|
    && |t.f.txq| <= Longest(m) + 1
    && Apart(t.coms, k.skpInterval - 1, k.skpInterval + Longest(m))
    && (if t.coms == [] then Reset(t) == 0
        else 0 <= t.coms[|t.coms| - 1] - Reset(t) <= 1 && t.coms[0] <= k.skpInterval + Longest(m) &&
             (t.f.skpDue ==> t.f.skpCount >= k.skpInterval))
    && (if t.f.skpDue then |All(t)| <= Reset(t) + k.skpInterval + Longest(m) else t.f.skpCount < k.skpInterval)
  }

  lemma TurnSpaced(k: Knobs, t: Track, t1: Track, u: seq<Scr.Tx>, m: R.Limits)
    requires Turned(t, t1, u, m) && Spaced(k, t, m) && |t.f.txq| < 2 && k.skpInterval >= 2
    ensures Spaced(k, t1, m)
  {
    if t.f.skpDue { DueSpaced(k, t, t1, u, m); }
  }

  lemma DueSpaced(k: Knobs, t: Track, t1: Track, u: seq<Scr.Tx>, m: R.Limits)
    requires Turned(t, t1, u, m) && Spaced(k, t, m) && |t.f.txq| < 2 && k.skpInterval >= 2 && t.f.skpDue
    ensures Apart(t1.coms, k.skpInterval - 1, k.skpInterval + Longest(m))
    ensures t1.coms[0] <= k.skpInterval + Longest(m)
  {
    if t.coms != [] { ApartMore(t.coms, |All(t)|, k.skpInterval - 1, k.skpInterval + Longest(m)); }
  }

  lemma ApartMore(coms: seq<nat>, c: nat, lo: int, hi: int)
    requires Apart(coms, lo, hi) && coms != [] && lo <= c - coms[|coms| - 1] <= hi
    ensures Apart(coms + [c], lo, hi)
  {
  }

  lemma PopSpaced(k: Knobs, t: Track, m: R.Limits)
    requires KnobsOk(k, m) && Spaced(k, t, m) && |t.f.txq| > 0
    ensures Spaced(k, PopRun(k, t), m) && All(PopRun(k, t)) == All(t)
  {
    assert t.f.txq == [t.f.txq[0]] + t.f.txq[1..];
  }

  // --------------------------------------- where SKP sets and COMs really are

  /** A SKP set starts at Symbol i. */
  predicate SkpAt(w: seq<Scr.Tx>, i: int) { 0 <= i < |w| - 1 && IsCom(w[i]) && IsSkp(w[i + 1]) }

  /** `coms` names the SKP sets of everything sent and queued, all of them. */
  ghost predicate Listed(t: Track) {
    (forall i | i in t.coms :: SkpAt(All(t), i)) && (forall i :: SkpAt(All(t), i) ==> i in t.coms) &&
    (All(t) != [] ==> !IsCom(All(t)[|All(t)| - 1]))
  }

  lemma TurnListed(t: Track, t1: Track, u: seq<Scr.Tx>, m: R.Limits)
    requires Turned(t, t1, u, m) && Listed(t)
    ensures Listed(t1)
  {
    var w, w1 := All(t), All(t1);
    assert w1 == w + u;
    forall i | SkpAt(w1, i) ensures i in t1.coms {
      if i < |w| - 1 { assert SkpAt(w, i); }
      if i >= |w| { assert w1[i] == u[i - |w|] && w1[i + 1] == u[i + 1 - |w|]; }
    }
    forall i | i in t1.coms ensures SkpAt(w1, i) {
      if i in t.coms { assert SkpAt(w, i); }
    }
  }

  // ------------------------------------------------------------ lane parity

  /** Every COM, sent or queued, is on its byte lane. */
  predicate OnLane(k: Knobs, w: seq<Scr.Tx>) {
    |w| % 2 == k.comLane && forall i | 0 <= i < |w| && IsCom(w[i]) :: i % 2 == k.comLane
  }

  lemma TurnOnLane(k: Knobs, t: Track, t1: Track, u: seq<Scr.Tx>, m: R.Limits)
    requires Turned(t, t1, u, m) && OnLane(k, All(t)) && m.even
    ensures OnLane(k, All(t1))
  {
    assert All(t1) == All(t) + u;
    LaneConcat(k, All(t), u);
  }

  lemma LaneConcat(k: Knobs, w: seq<Scr.Tx>, u: seq<Scr.Tx>)
    requires OnLane(k, w) && ComFirst(u) && |u| % 2 == 0
    ensures OnLane(k, w + u)
  {
  }

  // ---------------------------------------------------------- whole runs

  function BeatRun(k: Knobs, t: Track, b: Beat): Track
    requires |k.skpCounts| > 0 && R.KnobsFit(k.dll) && R.Fits(b.dll, FRAMES)
  {
    PopRun(k, PopRun(k, FillRun(k, t.(f := t.f.(port := b.port, dll := b.dll)), b.port.c.state, b.cycle)))
  }

  /** A clock of the run is a clock of the scheduler, Symbol for Symbol. */
  lemma BeatIsTransmit(k: Knobs, t: Track, b: Beat)
    requires |k.skpCounts| > 0 && R.KnobsFit(k.dll) && R.Fits(b.dll, FRAMES)
    requires t.f.wasTx && b.port.c.state != L.DETECT
    ensures var w := Transmit(k, t.f.(port := b.port, dll := b.dll), b.cycle); var t1 := BeatRun(k, t, b);
      t1.f == w.0 && t1.wire == t.wire + w.1
  {
    FillOut(k, t.(f := t.f.(port := b.port, dll := b.dll)), b.port.c.state, b.cycle);
  }

  lemma {:induction false} FillOut(k: Knobs, t: Track, st: L.State, cycle: int)
    requires Ready(k, t.f)
    ensures var t1 := FillRun(k, t, st, cycle); t1.wire == t.wire && t1.out == t.out
    decreases 2 - |t.f.txq|
  {
    if |t.f.txq| < 2 {
      FillGrows(k, t.f, st, cycle);
      FillOut(k, FillTurn(k, t, st, cycle), st, cycle);
    }
  }

  /** Scrambling leaves every K code as it is and makes none. */
  predicate SameKs(t: Track) {
    |t.wire| == |t.out| &&
    forall i | 0 <= i < |t.out| :: t.wire[i].k == t.out[i].s.k && (t.out[i].s.k ==> t.wire[i] == t.out[i].s)
  }

  ghost predicate Kept(k: Knobs, t: Track, m: R.Limits) {
    Spaced(k, t, m) && Listed(t) && SameKs(t) && (m.even ==> OnLane(k, All(t)))
  }

  lemma {:induction false} FillKept(k: Knobs, t: Track, st: L.State, cycle: int, m: R.Limits)
    requires KnobsOk(k, m) && Held(t, m) && Ready(k, t.f) && Kept(k, t, m)
    ensures Kept(k, FillRun(k, t, st, cycle), m)
    decreases 2 - |t.f.txq|
  {
    if |t.f.txq| < 2 {
      var u := TurnAdds(k, t, st, cycle, m);
      var t1 := FillTurn(k, t, st, cycle);
      TurnSpaced(k, t, t1, u, m);
      TurnListed(t, t1, u, m);
      if m.even { TurnOnLane(k, t, t1, u, m); }
      FillGrows(k, t.f, st, cycle);
      FillKept(k, FillTurn(k, t, st, cycle), st, cycle, m);
    }
  }

  lemma PopKept(k: Knobs, t: Track, m: R.Limits)
    requires KnobsOk(k, m) && Kept(k, t, m) && |t.f.txq| > 0
    ensures Kept(k, PopRun(k, t), m)
  {
    PopSpaced(k, t, m);
  }

  predicate BeatsOk(beats: seq<Beat>, m: R.Limits) { forall b | b in beats :: BeatOk(b, m) }

  lemma LastBeat(beats: seq<Beat>, m: R.Limits)
    requires BeatsOk(beats, m) && beats != [] && m.max <= 4116
    ensures BeatsOk(beats[..|beats| - 1], m)
    ensures var b := beats[|beats| - 1]; BeatOk(b, m) && R.Fits(b.dll, FRAMES)
  {
    var b := beats[|beats| - 1];
    assert b in beats;
    FitsFrames(b.dll, m);
  }

  /** A transmission from its first Symbol on, one beat after the other. */
  function Sending(k: Knobs, f: Far, beats: seq<Beat>, m: R.Limits): Track
    requires KnobsOk(k, m) && BeatsOk(beats, m)
    decreases |beats|
  {
    if beats == [] then Track(Begin(k, f.(wasTx := false)), [], [], [])
    else
      LastBeat(beats, m);
      var b := beats[|beats| - 1];
      BeatRun(k, Sending(k, f, beats[..|beats| - 1], m), b)
  }

  lemma BeatKept(k: Knobs, t: Track, b: Beat, m: R.Limits)
    requires KnobsOk(k, m) && BeatOk(b, m) && R.Fits(b.dll, FRAMES) && Kept(k, t, m)
    ensures Kept(k, BeatRun(k, t, b), m)
  {
    var t0 := t.(f := t.f.(port := b.port, dll := b.dll));
    assert All(t0) == All(t);
    FillKept(k, t0, b.port.c.state, b.cycle, m);
    var t1 := FillRun(k, t0, b.port.c.state, b.cycle);
    PopKept(k, t1, m);
    PopKept(k, PopRun(k, t1), m);
  }

  lemma {:induction false} SendingKept(k: Knobs, f: Far, beats: seq<Beat>, m: R.Limits)
    requires KnobsOk(k, m) && BeatsOk(beats, m)
    ensures Kept(k, Sending(k, f, beats, m), m)
    decreases |beats|
  {
    if beats == [] {
    } else {
      LastBeat(beats, m);
      SendingKept(k, f, beats[..|beats| - 1], m);
      BeatKept(k, Sending(k, f, beats[..|beats| - 1], m), beats[|beats| - 1], m);
    }
  }

  /** A SKP set on the wire. */
  predicate SkpOnWire(w: seq<Sym>, i: int) { 0 <= i < |w| - 1 && w[i] == K(COM) && w[i + 1] == K(SKP) }

  lemma Ascending(coms: seq<nat>, lo: int, hi: int, a: nat, b: nat)
    requires Apart(coms, lo, hi) && lo >= 1 && a < b < |coms|
    ensures coms[a] < coms[b]
    decreases b
  {
    if a < b - 1 { Ascending(coms, lo, hi, a, b - 1); }
  }

  lemma Neighbours(coms: seq<nat>, lo: int, hi: int, i: nat, j: nat)
    requires Apart(coms, lo, hi) && lo >= 1 && i in coms && j in coms && i < j
    requires forall c | i < c < j :: c !in coms
    ensures lo <= j - i <= hi
  {
    var a :| 0 <= a < |coms| && coms[a] == i;
    var b :| 0 <= b < |coms| && coms[b] == j;
    if b < a { Ascending(coms, lo, hi, b, a); }
    if a < b - 1 {
      assert coms[a + 1] in coms;
      Ascending(coms, lo, hi, a, a + 1);
      Ascending(coms, lo, hi, a + 1, b);
    }
  }

  /** Any two SKP sets with none between them are between `lo` and `hi` apart. */
  ghost predicate SkpGaps(w: seq<Sym>, lo: int, hi: int) {
    forall i, j | 0 <= i < j && SkpOnWire(w, i) && SkpOnWire(w, j) && NoneBetween(w, i, j) :: lo <= j - i <= hi
  }

  ghost predicate NoneBetween(w: seq<Sym>, i: int, j: int) { forall c | i < c < j :: !SkpOnWire(w, c) }

  /** A SKP set starts within `hi` Symbols of the start, and within `hi` of every
      other one, as far as the wire reaches. */
  ghost predicate SkpSoon(w: seq<Sym>, hi: nat) {
    (hi + 1 < |w| ==> SkpIn(w, 0, hi)) &&
    forall i | SkpOnWire(w, i) && i + hi + 1 < |w| :: SkpIn(w, i + 1, i + hi)
  }

  ghost predicate SkpIn(w: seq<Sym>, lo: int, hi: int) { exists j :: lo <= j <= hi && SkpOnWire(w, j) }

  /** In a transmission that is not interrupted, whatever the LTSSM and the Data
      Link Layer hand over, a SKP set starts no later than the interval plus the
      longest unit after the start and after each SKP set, and no earlier after one
      than one less than the interval. */
  lemma SkpSpacing(k: Knobs, f: Far, beats: seq<Beat>, m: R.Limits)
    requires KnobsOk(k, m) && BeatsOk(beats, m)
    ensures var w := Sending(k, f, beats, m).wire; var hi := k.skpInterval + Longest(m);
      SkpGaps(w, k.skpInterval - 1, hi) && SkpSoon(w, hi)
  {
    var t, hi := Sending(k, f, beats, m), k.skpInterval + Longest(m);
    SendingKept(k, f, beats, m);
    forall i, j | 0 <= i < j && SkpOnWire(t.wire, i) && SkpOnWire(t.wire, j) && NoneBetween(t.wire, i, j)
      ensures k.skpInterval - 1 <= j - i <= hi
    {
      GapInList(t, i, j);
      Neighbours(t.coms, k.skpInterval - 1, hi, i, j);
    }
    if hi + 1 < |t.wire| { FirstSoon(k, t, m); }
    forall i | SkpOnWire(t.wire, i) && i + hi + 1 < |t.wire| ensures SkpIn(t.wire, i + 1, i + hi) {
      NextSoon(k, t, i, m);
    }
  }

  lemma FirstSoon(k: Knobs, t: Track, m: R.Limits)
    requires KnobsOk(k, m) && Kept(k, t, m) && k.skpInterval + Longest(m) + 1 < |t.wire|
    ensures SkpIn(t.wire, 0, k.skpInterval + Longest(m))
  {
    assert t.coms != [];
    assert t.coms[0] in t.coms;
    WireIsAll(t, t.coms[0]);
  }

  lemma NextSoon(k: Knobs, t: Track, i: int, m: R.Limits)
    requires KnobsOk(k, m) && Kept(k, t, m) && SkpOnWire(t.wire, i) && i + k.skpInterval + Longest(m) + 1 < |t.wire|
    ensures SkpIn(t.wire, i + 1, i + k.skpInterval + Longest(m))
  {
    WireIsAll(t, i);
    var a :| 0 <= a < |t.coms| && t.coms[a] == i;
    assert a + 1 < |t.coms|;
    assert t.coms[a + 1] in t.coms;
    WireIsAll(t, t.coms[a + 1]);
  }

  lemma GapInList(t: Track, i: nat, j: nat)
    requires SameKs(t) && Listed(t) && i < j && SkpOnWire(t.wire, i) && SkpOnWire(t.wire, j)
    requires NoneBetween(t.wire, i, j)
    ensures i in t.coms && j in t.coms && forall c | i < c < j :: c !in t.coms
  {
    WireIsAll(t, i);
    WireIsAll(t, j);
    forall c | i < c < j ensures c !in t.coms {
      WireIsAll(t, c);
    }
  }

  lemma WireIsAll(t: Track, i: int)
    requires SameKs(t) && Listed(t) && 0 <= i < |t.wire| - 1
    ensures SkpOnWire(t.wire, i) <==> i in t.coms
  {
    assert All(t)[i] == t.out[i] && All(t)[i + 1] == t.out[i + 1];
  }

  /** With odd SKP counts and TLPs of even length, every COM leaves on the byte
      lane of the first one. */
  lemma ComLane(k: Knobs, f: Far, beats: seq<Beat>, m: R.Limits)
    requires KnobsOk(k, m) && m.even && BeatsOk(beats, m)
    ensures var w := Sending(k, f, beats, m).wire; forall i | 0 <= i < |w| && w[i] == K(COM) :: i % 2 == k.comLane
  {
    var t := Sending(k, f, beats, m);
    SendingKept(k, f, beats, m);
    forall i | 0 <= i < |t.wire| && t.wire[i] == K(COM) ensures i % 2 == k.comLane {
      assert All(t)[i] == t.out[i];
    }
  }

  // ------------------------------------------------------------- clock steps

  /** The Data Link Layer is inactive exactly while LinkUp is false. */
  predicate Linked(f: Far) { f.dll.st == T.INACTIVE <==> !f.port.c.linkup }

  predicate SameLink(f: Far, g: Far, st: L.State) {
    g.port.c.linkup == f.port.c.linkup && g.dll.st == f.dll.st && (st != L.L0 ==> g.dll == f.dll)
  }

  lemma PacketLink(k: Knobs, f: Far, st: L.State, cycle: int)
    requires Ready(k, f)
    ensures var d := NextPacket(k, f, st, cycle).0; d.st == f.dll.st && (st != L.L0 ==> d == f.dll)
  {
  }

  lemma TurnLinked(k: Knobs, f: Far, st: L.State, cycle: int)
    requires Ready(k, f)
    ensures SameLink(f, FillOne(k, f, st, cycle), st)
  {
    NextUnitLink(k.lt, f.port.c);
    PacketLink(k, f, st, cycle);
  }

  lemma {:induction false} FillLinked(k: Knobs, f: Far, st: L.State, cycle: int)
    requires Ready(k, f)
    ensures SameLink(f, Fill(k, f, st, cycle), st)
    decreases 2 - |f.txq|
  {
    if |f.txq| < 2 {
      TurnLinked(k, f, st, cycle);
      FillGrows(k, f, st, cycle);
      FillLinked(k, FillOne(k, f, st, cycle), st, cycle);
    }
  }

  /** After every clock step the two machines agree on LinkUp, and outside L0 the
      transmitter has taken nothing from the Data Link Layer. */
  lemma StepLinked(k: Knobs, f: Far, cycle: int, ei: bool, run: nat)
    requires Ready(k, f)
    ensures var g := Step(k, f, cycle, ei, run).0;
      var f1 := TickPort(k, f, cycle, ei, run);
      Linked(g) && (f1.port.c.state != L.L0 ==> g.dll == TickDll(k, f1, cycle).dll)
  {
    var f1 := TickPort(k, f, cycle, ei, run);
    var f2 := TickDll(k, f1, cycle);
    TickReady(k, f, cycle, ei, run);
    assert Linked(f2);
    if f2.port.c.state != L.DETECT { FillLinked(k, Begin(k, f2), f2.port.c.state, cycle); }
  }

  // ------------------------------------------------------------- every run

  /** What every run keeps of the two machines, so that every beat is a good one. */
  predicate Sane(f: Far, m: R.Limits) { LP.Numbered(f.port.c) && R.Fits(f.dll, m) }

  lemma HearPacketFits(k: T.Knobs, d: T.DllState, p: T.Packet, endT: nat, cycle: int, m: R.Limits)
    requires R.Fits(d, m)
    ensures R.Fits(HearPacket(k, d, p, endT, cycle), m)
  {
    match p
    case Control(x) => R.DllpFits(k, d, x, cycle, m);
    case Data(_, _, _, _) =>
      R.TlpArrivalFits(k, d, p, endT, cycle, m);
      var (d1, t) := D.OnTlp(k, d, p, endT, cycle);
      if t.Some? { R.ReleaseFits(k, d1, t.value, m); }
    case Junk =>
  }

  lemma HearSane(k: Knobs, f: Far, ev: Rx.Event, endT: nat, cycle: int, m: R.Limits)
    requires Sane(f, m)
    ensures Sane(Hear(k, f, ev, endT, cycle), m)
  {
    LP.StepNumbered(k.lt, f.port, L.Hear(ev, cycle));
    var p := Frames.Received(ev);
    if p.Some? { HearPacketFits(k.dll, f.dll, p.value, endT, cycle, m); }
  }

  lemma TickSane(k: Knobs, f: Far, cycle: int, ei: bool, run: nat, m: R.Limits)
    requires Sane(f, m) && R.KnobsFit(k.dll)
    ensures Sane(TickDll(k, TickPort(k, f, cycle, ei, run), cycle), m)
  {
    LP.StepNumbered(k.lt, f.port, L.Clock(cycle, ei, run));
    R.ResetFits(k.dll, m);
    var g := TickPort(k, f, cycle, ei, run);
    R.TickFits(k.dll, if g.port.c.linkup then D.LinkUp(k.dll, g.dll, cycle) else D.LinkDown(k.dll, g.dll), cycle, m);
  }

  lemma {:induction false} FillSane(k: Knobs, f: Far, st: L.State, cycle: int, m: R.Limits)
    requires Ready(k, f) && KnobsOk(k, m) && Sane(f, m)
    ensures Sane(Fill(k, f, st, cycle), m)
    decreases 2 - |f.txq|
  {
    if |f.txq| < 2 {
      var u := TurnAdds(k, Track(f, [], [], []), st, cycle, m);
      FillGrows(k, f, st, cycle);
      FillSane(k, FillOne(k, f, st, cycle), st, cycle, m);
    }
  }

  /** A clock step keeps the two machines sane; with HearSane, so does every run. */
  lemma StepSane(k: Knobs, f: Far, cycle: int, ei: bool, run: nat, m: R.Limits)
    requires Ready(k, f) && KnobsOk(k, m) && Sane(f, m)
    ensures Sane(Step(k, f, cycle, ei, run).0, m)
  {
    TickSane(k, f, cycle, ei, run, m);
    TickReady(k, f, cycle, ei, run);
    var g := TickDll(k, TickPort(k, f, cycle, ei, run), cycle);
    if g.port.c.state != L.DETECT { FillSane(k, Begin(k, g), g.port.c.state, cycle, m); }
  }

  /** What can happen to a far end: an event from its receiver, a clock, a TLP from
      its Transaction Layer, a direction from above. */
  datatype FarInput =
    | Heard(ev: Rx.Event, endT: nat, now: int)
    | Clocked(cycle: int, ei: bool, run: nat)
    | Offered(t: T.Tlp)
    | Directed(at: int, hold: int)

  predicate InputsOk(xs: seq<FarInput>, m: R.Limits) { forall x | x in xs && x.Offered? :: R.TlpFits(x.t, m) }

  function React(k: Knobs, f: Far, x: FarInput): Far
    requires Ready(k, f)
  {
    match x
    case Heard(ev, endT, now) => Hear(k, f, ev, endT, now)
    case Clocked(cycle, ei, run) => Step(k, f, cycle, ei, run).0
    case Offered(t) => f.(dll := D.SendTlp(f.dll, t))
    case Directed(at, hold) => f.(port := L.Keep(f.port.c.state, L.Direct(f.port.c, at, hold), f.port.consec))
  }

  lemma ReactSane(k: Knobs, f: Far, x: FarInput, m: R.Limits)
    requires KnobsOk(k, m) && Ready(k, f) && Sane(f, m) && (x.Offered? ==> R.TlpFits(x.t, m))
    ensures Sane(React(k, f, x), m) && R.Fits(React(k, f, x).dll, FRAMES)
  {
    match x {
      case Heard(ev, endT, now) => HearSane(k, f, ev, endT, now, m);
      case Clocked(cycle, ei, run) => StepSane(k, f, cycle, ei, run, m);
      case Offered(t) =>
      case Directed(at, hold) => LP.StepNumbered(k.lt, f.port, L.Directed(at, hold));
    }
    FitsFrames(React(k, f, x).dll, m);
  }

  /** Every state of every run is sane, so that its frames can be built. */
  function FarRun(k: Knobs, xs: seq<FarInput>, m: R.Limits): (f: Far)
    requires KnobsOk(k, m) && InputsOk(xs, m)
    ensures Sane(f, m) && Ready(k, f)
    decreases |xs|
  {
    if xs == [] then
      R.ResetFits(k.dll, m);
      R.ResetFits(k.dll, FRAMES);
      Far(L.START, T.Reset(k.dll), Scr.SEED, [], 0, false, 0, 0, false)
    else
      var f := FarRun(k, xs[..|xs| - 1], m);
      assert xs[|xs| - 1] in xs;
      ReactSane(k, f, xs[|xs| - 1], m);
      React(k, f, xs[|xs| - 1])
  }

  /** So every clock of every run at which the far end transmits is a good beat:
      the theorems about transmissions hold of every run. */
  lemma RunBeats(k: Knobs, xs: seq<FarInput>, m: R.Limits, cycle: int, ei: bool, run: nat)
    requires KnobsOk(k, m) && InputsOk(xs, m)
    ensures var g := TickDll(k, TickPort(k, FarRun(k, xs, m), cycle, ei, run), cycle);
      g.port.c.state != L.DETECT ==> BeatOk(Beat(g.port, g.dll, cycle), m)
  {
    TickSane(k, FarRun(k, xs, m), cycle, ei, run, m);
  }

  /** Bytes and protocol meet: hearing the event of a packet's frame does to the
      Data Link Layer what receiving that packet does in the two-ended model. */
  lemma HearsPacket(k: Knobs, f: Far, e: Link.End, w: Link.Wire, endT: nat, cycle: int)
    requires Frames.Sendable(w.p) && e.d == f.dll
    ensures var told := P.Tells(P.Nothing, Frames.UnitFor(w.p));
      |told| == 1 && P.UnitSyms(Frames.UnitFor(w.p)) == Frames.Frame(w.p) &&
      Hear(k, f, told[0], endT, cycle).dll == Link.EndReceive(k.dll, e, w, endT, cycle).d
  {
    Frames.PacketRoundTrip(w.p);
  }
}
