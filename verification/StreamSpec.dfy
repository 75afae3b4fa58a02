/** The receiver of tb/lr1/lr1_rx.py: one Symbol at a time, descrambled and
    delineated into ordered sets, packets and Logical Idle. */
module StreamSpec {
  import opened Common
  import opened Symbols
  import Scr = Scrambler

  datatype Mode = IDLE | OS | TLP | DLLP

  datatype Reader = Reader(rx: Scr.Rx, locked: bool, mode: Mode, buf: seq<Sym>, plain: seq<Byte>, idleRun: nat)

  datatype Reason =
    | DllpBroken(code: Byte, n: nat)
    | DllpLong
    | TlpBroken(code: Byte, n: nat)
    | TlpLong
    | Stray(code: Byte)
    | SkpLong
    | OsBroken(want: Byte, pos: nat)

  datatype Event =
    | IdleRun(n: nat)
    | IdleBad(value: Byte)
    | Idle8
    | TsEv(f: TsFields)
    | SkpEv(n: nat)
    | EiosEv
    | FtsEv
    | DllpEv(b6: seq<Byte>)
    | TlpEv(body: seq<Byte>, edb: bool)
    | FrameErr(reason: Reason)
    | OsBad(syms: seq<Sym>)

  const START := Reader(Scr.Rx(Scr.SEED, false, 0), false, IDLE, [], [], 0)

  function EndIdle(r: Reader): (Reader, seq<Event>) {
    if r.idleRun > 0 then (r.(idleRun := 0), [IdleRun(r.idleRun)]) else (r, [])
  }

  function Begin(r: Reader, mode: Mode, s: Sym): Reader { r.(mode := mode, buf := [s], plain := []) }

  /** A Symbol at a unit boundary. */
  function Dispatch(r: Reader, s: Sym, p: Byte): (Reader, seq<Event>) {
    if !s.k then
      (r.(idleRun := r.idleRun + 1),
       (if p != 0 then [IdleBad(p)] else []) + (if r.idleRun + 1 == 8 then [Idle8] else []))
    else
      var (r1, ev) := EndIdle(r);
      if s.b == COM then (Begin(r1, OS, s), ev)
      else if s.b == STP then (Begin(r1, TLP, s), ev)
      else if s.b == SDP then (Begin(r1, DLLP, s), ev)
      else (r1, ev + [FrameErr(Stray(s.b))])
  }

  /** The unit in progress ends in `ev`, and the Symbol that ended it starts over. */
  function Resume(r: Reader, ev: Event, s: Sym, p: Byte): (Reader, seq<Event>) {
    var (r1, more) := Dispatch(r.(mode := IDLE), s, p);
    (r1, [ev] + more)
  }

  function SkpStep(r: Reader, s: Sym, p: Byte): (Reader, seq<Event>) {
    if s == K(SKP) then
      if |r.buf| <= 1 + SKP_RX_MAX then (r, []) else (r.(mode := IDLE), [FrameErr(SkpLong)])
    else Resume(r, SkpEv(if |r.buf| >= 2 then |r.buf| - 2 else 0), s, p)
  }

  function RepeatStep(r: Reader, want: Byte, s: Sym, p: Byte): (Reader, seq<Event>)
    requires |r.buf| > 0
  {
    if s != K(want) && |r.buf| <= 4 then Resume(r, FrameErr(OsBroken(want, |r.buf| - 1)), s, p)
    else if |r.buf| == 4 then (r.(mode := IDLE), [if want == IDL then EiosEv else FtsEv])
    else (r, [])
  }

  predicate TsBreaks(s: Sym, pos: int) { s.k && (s.b == COM || !((pos == 1 || pos == 2) && s.b == PAD)) }

  function TsStep(r: Reader, s: Sym, p: Byte): (Reader, seq<Event>)
    requires |r.buf| > 0
  {
    if TsBreaks(s, |r.buf| - 1) then Resume(r, OsBad(r.buf[..|r.buf| - 1]), s, p)
    else if |r.buf| == TS_LEN then
      var f := ParseTs(r.buf);
      (r.(mode := IDLE), [if f.None? then OsBad(r.buf) else TsEv(f.value)])
    else (r, [])
  }

  /** A Symbol inside an ordered set: what follows COM says which one it is. */
  function OsStep(r: Reader, s: Sym, p: Byte): (Reader, seq<Event>) {
    var r1 := r.(buf := r.buf + [s]);
    if |r1.buf| < 2 then (r1, [])
    else if r1.buf[1] == K(SKP) then SkpStep(r1, s, p)
    else if r1.buf[1] == K(IDL) || r1.buf[1] == K(FTS) then RepeatStep(r1, r1.buf[1].b, s, p)
    else TsStep(r1, s, p)
  }

  function DllpStep(r: Reader, s: Sym, p: Byte): (Reader, seq<Event>) {
    if s.k then
      if s.b == END && |r.plain| == 6 then (r.(mode := IDLE), [DllpEv(r.plain)])
      else Resume(r, FrameErr(DllpBroken(s.b, |r.plain|)), s, p)
    else
      var r1 := r.(plain := r.plain + [p]);
      if |r1.plain| > 6 then (r1.(mode := IDLE), [FrameErr(DllpLong)]) else (r1, [])
  }

  function TlpStep(r: Reader, s: Sym, p: Byte): (Reader, seq<Event>) {
    if s.k then
      if s.b == END || s.b == EDB then (r.(mode := IDLE), [TlpEv(r.plain, s.b == EDB)])
      else Resume(r, FrameErr(TlpBroken(s.b, |r.plain|)), s, p)
    else
      var r1 := r.(plain := r.plain + [p]);
      if |r1.plain| > MAX_PLAIN then (r1.(mode := IDLE), [FrameErr(TlpLong)]) else (r1, [])
  }

  function Step(r: Reader, s: Sym, p: Byte): (Reader, seq<Event>) {
    match r.mode
    case IDLE => Dispatch(r, s, p)
    case OS => OsStep(r, s, p)
    case DLLP => DllpStep(r, s, p)
    case TLP => TlpStep(r, s, p)
  }

  function Feed(r: Reader, s: Sym): (Reader, seq<Event>) {
    var (p, rx) := Scr.FeedRx(r.rx, s);
    var r1 := r.(rx := rx);
    if r1.locked then Step(r1, s, p)
    else if s == K(COM) then Step(r1.(locked := true), s, p)
    else (r1, [])
  }

  function FeedAll(r: Reader, xs: seq<Sym>): (Reader, seq<Event>) { Fold(Feed, r, xs) }
}
