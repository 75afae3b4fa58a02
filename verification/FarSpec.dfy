/** The far end's transmit scheduler and the order of a clock step
    (tb/lr1/lr1_farend.py) as functions. */
module FarSpec {
  import opened Common
  import opened Symbols
  import Scr = Scrambler
  import L = LtssmSpec
  import T = DllTypes
  import D = DllSpec
  import R = DllRanges
  import Frames
  import Rx = StreamSpec

  datatype Knobs = Knobs(lt: L.Knobs, dll: T.Knobs, skpInterval: int, skpCounts: seq<nat>, pktGap: int, comLane: int)

  /** The scheduler's fields with the two machines it draws from. */
  datatype Far = Far(
    port: L.Port,
    dll: T.DllState,
    lfsr: bv16,
    txq: seq<Scr.Tx>,
    skpCount: nat,
    skpDue: bool,
    skpSent: nat,
    gapLeft: int,
    wasTx: bool)

  const FRAMES := R.Limits(4116, false)

  predicate Ready(k: Knobs, f: Far) { |k.skpCounts| > 0 && R.KnobsFit(k.dll) && R.Fits(f.dll, FRAMES) }

  function Plain(xs: seq<Sym>): (r: seq<Scr.Tx>)
    ensures |r| == |xs|
  {
    seq(|xs|, i requires 0 <= i < |xs| => Scr.Tx(xs[i], false))
  }

  /** A training set: all but its COM bear the mark. */
  function Marked(xs: seq<Sym>): (r: seq<Scr.Tx>)
    ensures |r| == |xs|
  {
    seq(|xs|, i requires 0 <= i < |xs| => Scr.Tx(xs[i], i > 0))
  }

  function Push(f: Far, xs: seq<Scr.Tx>): (r: Far)
    ensures |r.txq| == |f.txq| + |xs|
  {
    f.(txq := f.txq + xs)
  }

  // -------------------------------------------------------------- scheduling

  function SkpSize(k: Knobs, f: Far): nat
    requires |k.skpCounts| > 0
  {
    k.skpCounts[f.skpSent % |k.skpCounts|]
  }

  function PushSkp(k: Knobs, f: Far): Far
    requires |k.skpCounts| > 0
  {
    Push(f.(skpDue := false, skpCount := 0, skpSent := f.skpSent + 1), Plain(SkpOs(SkpSize(k, f))))
  }

  function PushIdle(f: Far): Far {
    Push(f.(gapLeft := f.gapLeft - 2, port := f.port.(c := L.IdleSent(f.port.c, 2))), Plain(Idle(2)))
  }

  function NextPacket(k: Knobs, f: Far, st: L.State, cycle: int): (r: (T.DllState, Option<T.Packet>))
    requires Ready(k, f)
    ensures R.ResultFits(r, FRAMES)
  {
    R.NextFits(k.dll, f.dll, cycle, FRAMES);
    if st == L.L0 && f.gapLeft <= 0 then D.NextPacket(k.dll, f.dll, cycle) else (f.dll, None)
  }

  function PushPacket(k: Knobs, f: Far, d: T.DllState, p: T.Packet): Far
    requires Frames.Sendable(p)
  {
    Push(f.(dll := d, gapLeft := k.pktGap), Plain(Frames.Frame(p)))
  }

  function PushTs(f: Far, c: L.Core, xs: seq<Sym>): Far {
    Push(f.(port := L.Keep(f.port.c.state, c, f.port.consec)), Marked(xs))
  }

  /** One turn of the loop of _fill: SKP first, then a training set, a packet, idle. */
  function FillOne(k: Knobs, f: Far, st: L.State, cycle: int): (r: Far)
    requires Ready(k, f)
    ensures Ready(k, r)
  {
    if f.skpDue then PushSkp(k, f)
    else
      var (c, u) := L.NextUnit(k.lt, f.port.c);
      if u.Some? then PushTs(f, c, u.value)
      else
        var (d, p) := NextPacket(k, f, st, cycle);
        if p.Some? then PushPacket(k, f, d, p.value) else PushIdle(f)
  }

  lemma FillGrows(k: Knobs, f: Far, st: L.State, cycle: int)
    requires Ready(k, f)
    ensures |FillOne(k, f, st, cycle).txq| > |f.txq|
  {
  }

  function Fill(k: Knobs, f: Far, st: L.State, cycle: int): (r: Far)
    requires Ready(k, f)
    ensures Ready(k, r) && |r.txq| >= 2
    decreases 2 - |f.txq|
  {
    FillGrows(k, f, st, cycle);
    if |f.txq| >= 2 then f else Fill(k, FillOne(k, f, st, cycle), st, cycle)
  }

  /** One Symbol leaves, scrambled; SKP falls due after an interval of them. */
  function Pop(k: Knobs, f: Far): (Far, Sym)
    requires |f.txq| > 0
  {
    var t := f.txq[0];
    var (b, l) := Scr.Step(f.lfsr, t.s, t.inTs);
    var n := f.skpCount + 1;
    (f.(txq := f.txq[1..], lfsr := l, skpCount := n, skpDue := f.skpDue || n >= k.skpInterval), Sym(b, t.s.k))
  }

  function PopWord(k: Knobs, f: Far): (Far, seq<Sym>)
    requires |f.txq| >= 2
  {
    var (f1, a) := Pop(k, f);
    var (f2, b) := Pop(k, f1);
    (f2, [a, b])
  }

  // ----------------------------------------------------------------- receive

  /** The Data Link Layer's share of an event: a DLLP with a good CRC, or a TLP,
      released at once when it is accepted. */
  function HearPacket(k: T.Knobs, d: T.DllState, p: T.Packet, endT: nat, cycle: int): T.DllState {
    match p
    case Control(m) => D.OnDllp(k, d, m, cycle)
    case Data(_, _, _, _) =>
      var (d1, t) := D.OnTlp(k, d, p, endT, cycle);
      if t.Some? then D.Release(k, d1, t.value) else d1
    case Junk => d
  }

  function Hear(k: Knobs, f: Far, ev: Rx.Event, endT: nat, cycle: int): Far {
    var p := Frames.Received(ev);
    f.(port := L.OnEvent(k.lt, f.port, ev, cycle, true),
       dll := if p.Some? then HearPacket(k.dll, f.dll, p.value, endT, cycle) else f.dll)
  }

  // -------------------------------------------------------------- clock step

  function Begin(k: Knobs, f: Far): Far {
    if f.wasTx then f
    else f.(wasTx := true, lfsr := Scr.SEED, txq := if k.comLane == 1 then Plain(Idle(1)) else [], skpCount := 0)
  }

  function Transmit(k: Knobs, f: Far, cycle: int): (Far, seq<Sym>)
    requires Ready(k, f)
  {
    if f.port.c.state == L.DETECT then (f.(wasTx := false), [])
    else PopWord(k, Fill(k, Begin(k, f), f.port.c.state, cycle))
  }

  function TickPort(k: Knobs, f: Far, cycle: int, ei: bool, run: nat): Far {
    f.(port := L.Keep(f.port.c.state, L.Tick(k.lt, f.port.c, f.port.consec != [], cycle, ei, run), f.port.consec))
  }

  function TickDll(k: Knobs, f: Far, cycle: int): Far {
    f.(dll := D.Tick(k.dll, if f.port.c.linkup then D.LinkUp(k.dll, f.dll, cycle) else D.LinkDown(k.dll, f.dll), cycle))
  }

  lemma TickReady(k: Knobs, f: Far, cycle: int, ei: bool, run: nat)
    requires Ready(k, f)
    ensures Ready(k, TickDll(k, TickPort(k, f, cycle, ei, run), cycle))
  {
    R.ResetFits(k.dll, FRAMES);
    var g := TickPort(k, f, cycle, ei, run);
    var d := if g.port.c.linkup then D.LinkUp(k.dll, g.dll, cycle) else D.LinkDown(k.dll, g.dll);
    R.TickFits(k.dll, d, cycle, FRAMES);
  }

  /** LTSSM, then Data Link Layer, then one word on the wire. */
  function Step(k: Knobs, f: Far, cycle: int, ei: bool, run: nat): (Far, seq<Sym>)
    requires Ready(k, f)
  {
    TickReady(k, f, cycle, ei, run);
    Transmit(k, TickDll(k, TickPort(k, f, cycle, ei, run), cycle), cycle)
  }
}
