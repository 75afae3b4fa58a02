/** The far end's LTSSM (tb/lr1/lr1_ltssm.py) as functions of its fields. */
module LtssmSpec {
  import opened Common
  import opened Symbols
  import Rx = StreamSpec

  const US := 125
  const MS := 1000 * US
  const RX_CONSECUTIVE_TS := 8
  const RX_CONSECUTIVE_IDLE := 8
  const TC_COMPLIANCE_RX: Byte := 0x10
  const RATE_BIT_SPEED_CHANGE: Byte := 0x80

  datatype State =
    | DETECT | POLL_ACTIVE | POLL_CONFIG
    | CFG_LW_START | CFG_LW_ACCEPT | CFG_LN_WAIT | CFG_LN_ACCEPT | CFG_COMPLETE | CFG_IDLE
    | L0 | REC_LOCK | REC_CFG | REC_IDLE

  datatype Knobs = Knobs(pollTs1Min: int, ts2AfterRx: int, idleAfterRx: int, lanenumWaitCycles: int,
                         detectDelay: int, cfgLwExtraTs1: int, nFts: Byte, rateId: Byte)

  /** The fields of an Ltssm but for its history. Link and Lane are Pad while they
      are None. */
  datatype Core = Core(
    state: State,
    entered: int,
    now: int,
    link: Num,
    lane: Num,
    linkup: bool,
    idleToRlock: bool,
    tsSent: nat,
    rxOne: bool,
    rxOk: bool,
    sentAfterRx: int,
    eiSeenAt: Option<int>,
    lnwaitReady: Option<int>,
    lwLeft: Option<int>,
    recHold: int)

  /** With the training sets heard since the state was entered or interrupted. */
  datatype Port = Port(c: Core, consec: seq<TsFields>)

  const START := Port(Core(DETECT, 0, 0, Pad, Pad, false, false, 0, false, false, 0, None, None, None, 0), [])

  function Timeout(st: State): Option<int> {
    match st
    case POLL_ACTIVE | CFG_LW_START | REC_LOCK => Some(24 * MS)
    case POLL_CONFIG | REC_CFG => Some(48 * MS)
    case CFG_LW_ACCEPT | CFG_LN_WAIT | CFG_LN_ACCEPT | CFG_COMPLETE | CFG_IDLE | REC_IDLE => Some(2 * MS)
    case DETECT | L0 => None
  }

  predicate IdleState(st: State) { st == CFG_IDLE || st == REC_IDLE }

  function Goto(p: Core, st: State, cycle: int): Core {
    if st == p.state then p
    else
      p.(state := st, entered := cycle, tsSent := 0, rxOne := false, sentAfterRx := 0,
         lnwaitReady := None, lwLeft := None, rxOk := false,
         linkup := if st == CFG_IDLE then true else if st == DETECT then false else p.linkup,
         recHold := if st != REC_LOCK then 0 else p.recHold,
         link := if st == DETECT then Pad else p.link,
         lane := if st == DETECT then Pad else p.lane)
  }

  /** A transition empties the history. */
  function Keep(st: State, c: Core, consec: seq<TsFields>): Port { Port(c, if c.state == st then consec else []) }

  // --------------------------------------------------------------- receive

  /** The last `m` training sets, or none when there are fewer. */
  function Window(c: seq<TsFields>, m: nat): seq<TsFields> { if |c| >= m then c[|c| - m..] else [] }

  predicate Has(o: Option<Byte>, bits: Byte) { o.Some? && o.value & bits != 0 }

  predicate IsPad(e: TsFields) { e.link == Pad && e.lane == Pad }

  predicate AllPoll(w: seq<TsFields>) {
    w != [] && forall e | e in w :: IsPad(e) && (e.ts1 ==> !Has(e.tc, TC_COMPLIANCE_RX))
  }

  predicate AllPadTs1(w: seq<TsFields>) { w != [] && forall e | e in w :: e.ts1 && IsPad(e) }

  predicate AllPadTs2(w: seq<TsFields>) { w != [] && forall e | e in w :: !e.ts1 && IsPad(e) }

  predicate AllTs2(w: seq<TsFields>) { w != [] && forall e | e in w :: !e.ts1 }

  predicate AllNumbered(w: seq<TsFields>) { w != [] && forall e | e in w :: e.ts1 && e.link.Num? && e.lane == Pad }

  predicate AllLaned(w: seq<TsFields>, link: Num) {
    w != [] && forall e | e in w :: e.ts1 && e.link == link && e.lane.Num?
  }

  predicate AllOtherLane(w: seq<TsFields>, lane: Num) {
    w != [] && forall e | e in w :: e.ts1 && e.lane.Num? && e.lane != lane && e.link != Pad
  }

  predicate AllMatchTs2(w: seq<TsFields>, link: Num, lane: Num) {
    w != [] && forall e | e in w :: !e.ts1 && e.link == link && e.lane == lane
  }

  predicate AllMatchSlow(w: seq<TsFields>, link: Num, lane: Num) {
    w != [] && forall e | e in w :: e.link == link && e.lane == lane && !Has(e.rate, RATE_BIT_SPEED_CHANGE)
  }

  predicate AllForeignTs1(w: seq<TsFields>, link: Num, lane: Num) {
    w != [] && forall e | e in w :: e.ts1 && (e.link != link || e.lane != lane)
  }

  predicate AllLanePad(w: seq<TsFields>) { w != [] && forall e | e in w :: e.ts1 && e.lane == Pad }

  predicate OneRate(w: seq<TsFields>) { forall i, j | 0 <= i < |w| && 0 <= j < |w| :: w[i].rate == w[j].rate }

  function LwStart(k: Knobs, p: Core, w2: seq<TsFields>, cycle: int): Core {
    if p.lwLeft == None && AllNumbered(w2) && |w2| == 2 && w2[0].link == w2[1].link then
      var p1 := p.(link := w2[1].link);
      if k.cfgLwExtraTs1 != 0 then p1.(lwLeft := Some(k.cfgLwExtraTs1)) else Goto(p1, CFG_LW_ACCEPT, cycle)
    else p
  }

  function LwAccept(p: Core, w2: seq<TsFields>, cycle: int): Core {
    if AllPadTs1(w2) then Goto(p, DETECT, cycle)
    else if AllLaned(w2, p.link) && |w2| == 2 && w2[0].lane == w2[1].lane then
      Goto(p.(lane := w2[1].lane), CFG_LN_WAIT, cycle)
    else p
  }

  function LnWait(p: Core, w2: seq<TsFields>, cycle: int): Core {
    if AllPadTs1(w2) then Goto(p, DETECT, cycle)
    else if AllTs2(w2) || AllOtherLane(w2, p.lane) then p.(lnwaitReady := Some(cycle))
    else p
  }

  function LnAccept(p: Core, w2: seq<TsFields>, cycle: int): Core {
    if AllMatchTs2(w2, p.link, p.lane) then Goto(p, CFG_COMPLETE, cycle)
    else if AllPadTs1(w2) then Goto(p, DETECT, cycle)
    else p
  }

  function RecCfg(p: Core, last: TsFields, w8: seq<TsFields>, cycle: int): Core {
    var p1 := p.(rxOne := p.rxOne || !last.ts1);
    if AllMatchTs2(w8, p.link, p.lane) then p1.(rxOk := true)
    else if AllForeignTs1(w8, p.link, p.lane) then Goto(p1, CFG_LW_START, cycle)
    else p1
  }

  /** What a training set does, given the last two and the last eight of them. */
  function Decide(k: Knobs, p: Core, last: TsFields, w2: seq<TsFields>, w8: seq<TsFields>, cycle: int): Core {
    match p.state
    case POLL_ACTIVE => p.(rxOk := p.rxOk || AllPoll(w8))
    case POLL_CONFIG => p.(rxOne := p.rxOne || (!last.ts1 && IsPad(last)), rxOk := p.rxOk || AllPadTs2(w8))
    case CFG_LW_START => LwStart(k, p, w2, cycle)
    case CFG_LW_ACCEPT => LwAccept(p, w2, cycle)
    case CFG_LN_WAIT => LnWait(p, w2, cycle)
    case CFG_LN_ACCEPT => LnAccept(p, w2, cycle)
    case CFG_COMPLETE =>
      p.(rxOne := p.rxOne || !last.ts1, rxOk := p.rxOk || (AllMatchTs2(w8, p.link, p.lane) && OneRate(w8)))
    case L0 => Goto(p, REC_LOCK, cycle)
    case REC_LOCK =>
      if AllMatchSlow(w8, p.link, p.lane) && cycle - p.entered >= p.recHold then Goto(p, REC_CFG, cycle) else p
    case REC_CFG => RecCfg(p, last, w8, cycle)
    case REC_IDLE => if AllLanePad(w2) then Goto(p, CFG_LW_START, cycle) else p
    case DETECT | CFG_IDLE => p
  }

  /** The history is cut to its last 16 entries when it grows past 32. */
  function Trim(c: seq<TsFields>): seq<TsFields> { if |c| > 32 then c[|c| - 16..] else c }

  function HearTs(k: Knobs, p: Port, e: TsFields, cycle: int, cut: bool): Port {
    var c := if cut then Trim(p.consec + [e]) else p.consec + [e];
    var q := Decide(k, p.c, e, Window(c, 2), Window(c, 8), cycle);
    if p.c.state == L0 then Port(q, [e]) else Keep(p.c.state, q, c)
  }

  /** An event of the receiver; SKP sets interrupt nothing. */
  function OnEvent(k: Knobs, p: Port, ev: Rx.Event, cycle: int, cut: bool): Port {
    match ev
    case SkpEv(_) => p
    case Idle8 => p
    case TsEv(e) => HearTs(k, p, e, cycle, cut)
    case _ => p.(consec := [])
  }

  // ----------------------------------------------------------------- clock

  function Direct(p: Core, cycle: int, hold: int): Core {
    if p.state == L0 then Goto(p.(recHold := hold), REC_LOCK, cycle) else p
  }

  function Exit(st: State): Option<State> {
    match st
    case POLL_ACTIVE => Some(POLL_CONFIG)
    case POLL_CONFIG => Some(CFG_LW_START)
    case CFG_COMPLETE => Some(CFG_IDLE)
    case REC_CFG => Some(REC_IDLE)
    case CFG_IDLE | REC_IDLE => Some(L0)
    case _ => None
  }

  predicate SentEnough(k: Knobs, p: Core) {
    if p.state == POLL_ACTIVE then p.tsSent >= k.pollTs1Min
    else if IdleState(p.state) then p.sentAfterRx >= k.idleAfterRx
    else p.sentAfterRx >= k.ts2AfterRx
  }

  function Advance(k: Knobs, p: Core, cycle: int): Core {
    if Exit(p.state).Some? && p.rxOk && SentEnough(k, p) then Goto(p, Exit(p.state).value, cycle) else p
  }

  function Detect(k: Knobs, p: Core, cycle: int, ei: bool): Core {
    if !ei then p.(eiSeenAt := None)
    else
      var at := if p.eiSeenAt.None? then cycle else p.eiSeenAt.value;
      var p1 := p.(eiSeenAt := Some(at));
      if cycle - at >= k.detectDelay then Goto(p1, POLL_ACTIVE, cycle) else p1
  }

  /** `heard` tells whether the history holds any training set. */
  function Expire(p: Core, heard: bool, cycle: int): Core {
    if Timeout(p.state).Some? && cycle - p.entered >= Timeout(p.state).value then
      if IdleState(p.state) && !p.idleToRlock then Goto(p.(idleToRlock := true), REC_LOCK, cycle)
      else if p.state == REC_LOCK && heard then Goto(p, CFG_LW_START, cycle)
      else Goto(p, DETECT, cycle)
    else p
  }

  function SeeIdle(p: Core, run: nat): Core {
    if IdleState(p.state) then p.(rxOne := p.rxOne || run >= 1, rxOk := p.rxOk || run >= RX_CONSECUTIVE_IDLE) else p
  }

  /** One cycle: `ei` is the partner in Electrical Idle at P1, `run` the Logical
      Idle Symbols received without a break. */
  function Tick(k: Knobs, p0: Core, heard: bool, cycle: int, ei: bool, run: nat): Core {
    var p := p0.(now := cycle);
    if p.state == DETECT then Detect(k, p, cycle, ei)
    else if p.state == CFG_LN_WAIT && p.lnwaitReady.Some? && cycle - p.entered >= k.lanenumWaitCycles then
      Goto(p, CFG_LN_ACCEPT, cycle)
    else
      var p1 := Advance(k, SeeIdle(p, run), cycle);
      if p1.state != p.state then p1 else Expire(p1, heard, cycle)
  }

  // -------------------------------------------------------------- transmit

  function SendTs(k: Knobs, p: Core, ident: Byte, link: Num, lane: Num): (Core, Option<seq<Sym>>) {
    (p.(tsSent := p.tsSent + 1,
        sentAfterRx := if p.rxOne && ident == TS2_ID then p.sentAfterRx + 1 else p.sentAfterRx),
     Some(Ts(ident, link, lane, k.nFts, k.rateId, 0)))
  }

  /** The next training set, or None in the states that send idle or packets. */
  function NextUnit(k: Knobs, p: Core): (Core, Option<seq<Sym>>) {
    match p.state
    case POLL_ACTIVE => SendTs(k, p, TS1_ID, Pad, Pad)
    case POLL_CONFIG => SendTs(k, p, TS2_ID, Pad, Pad)
    case CFG_LW_START =>
      if p.lwLeft.None? then SendTs(k, p, TS1_ID, Pad, Pad)
      else if p.lwLeft.value <= 1 then SendTs(k, Goto(p, CFG_LW_ACCEPT, p.now), TS1_ID, p.link, Pad)
      else SendTs(k, p.(lwLeft := Some(p.lwLeft.value - 1)), TS1_ID, Pad, Pad)
    case CFG_LW_ACCEPT => SendTs(k, p, TS1_ID, p.link, Pad)
    case CFG_LN_WAIT | CFG_LN_ACCEPT | REC_LOCK => SendTs(k, p, TS1_ID, p.link, p.lane)
    case CFG_COMPLETE | REC_CFG => SendTs(k, p, TS2_ID, p.link, p.lane)
    case DETECT | CFG_IDLE | L0 | REC_IDLE => (p, None)
  }

  function IdleSent(p: Core, n: nat): Core {
    if IdleState(p.state) && p.rxOne then p.(sentAfterRx := p.sentAfterRx + n) else p
  }

  // ------------------------------------------------------------------ runs

  datatype Input =
    | Hear(ev: Rx.Event, cycle: int)
    | Clock(cycle: int, ei: bool, run: nat)
    | Send
    | SentIdle(n: nat)
    | Directed(cycle: int, hold: int)

  function Step(k: Knobs, p: Port, i: Input, cut: bool): (Port, seq<Option<seq<Sym>>>) {
    match i
    case Hear(ev, cycle) => (OnEvent(k, p, ev, cycle, cut), [])
    case Clock(cycle, ei, run) => (Keep(p.c.state, Tick(k, p.c, p.consec != [], cycle, ei, run), p.consec), [])
    case Send => var (c, u) := NextUnit(k, p.c); (Keep(p.c.state, c, p.consec), [u])
    case SentIdle(n) => (p.(c := IdleSent(p.c, n)), [])
    case Directed(cycle, hold) => (Keep(p.c.state, Direct(p.c, cycle, hold), p.consec), [])
  }

  /** The port after a list of inputs, and every unit it produced. */
  function Run(k: Knobs, p: Port, xs: seq<Input>, cut: bool): (Port, seq<Option<seq<Sym>>>)
    decreases |xs|
  {
    if xs == [] then (p, [])
    else
      var (p1, out) := Run(k, p, xs[..|xs| - 1], cut);
      var (p2, more) := Step(k, p1, xs[|xs| - 1], cut);
      (p2, out + more)
  }
}
