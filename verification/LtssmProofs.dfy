/** What every run of the LTSSM keeps: a history cut short decides as a full one
    would, numbers go with states, L0 is earned, and no state lasts for ever. */
module LtssmProofs {
  import opened Symbols
  import opened LtssmSpec

  // ------------------------------------------------- bounded and full history

  predicate Suffix(b: seq<TsFields>, u: seq<TsFields>) { |b| <= |u| && b == u[|u| - |b|..] }

  predicate Recent(b: seq<TsFields>, u: seq<TsFields>) { b == u || (|b| >= 16 && Suffix(b, u)) }

  /** Equal but for training sets so old that no decision looks at them. */
  predicate Agree(b: Port, u: Port) { b.c == u.c && Recent(b.consec, u.consec) }

  lemma TrimAgrees(b: seq<TsFields>, u: seq<TsFields>, e: TsFields)
    requires Recent(b, u)
    ensures Recent(Trim(b + [e]), u + [e])
  {
    assert b + [e] == (u + [e])[|u| - |b|..];
  }

  lemma WindowAgrees(b: seq<TsFields>, u: seq<TsFields>, m: nat)
    requires Recent(b, u) && m <= 16
    ensures Window(b, m) == Window(u, m)
  {
  }

  lemma HearAgrees(k: Knobs, b: Port, u: Port, e: TsFields, cycle: int)
    requires Agree(b, u)
    ensures Agree(HearTs(k, b, e, cycle, true), HearTs(k, u, e, cycle, false))
  {
    TrimAgrees(b.consec, u.consec, e);
    WindowAgrees(Trim(b.consec + [e]), u.consec + [e], 2);
    WindowAgrees(Trim(b.consec + [e]), u.consec + [e], 8);
  }

  lemma StepAgrees(k: Knobs, b: Port, u: Port, i: Input)
    requires Agree(b, u)
    ensures Agree(Step(k, b, i, true).0, Step(k, u, i, false).0) && Step(k, b, i, true).1 == Step(k, u, i, false).1
  {
    if i.Hear? && i.ev.TsEv? { HearAgrees(k, b, u, i.ev.f, i.cycle); }
  }

  /** On every run the bounded history takes the same decisions and sends the
      same units as one that forgets nothing, and holds at most 32 entries. */
  lemma {:induction false} BoundedHistory(k: Knobs, xs: seq<Input>)
    ensures var b := Run(k, START, xs, true); var u := Run(k, START, xs, false);
      Agree(b.0, u.0) && b.1 == u.1 && |b.0.consec| <= 32
    decreases |xs|
  {
    if xs == [] {
    } else {
      var init, last := xs[..|xs| - 1], xs[|xs| - 1];
      BoundedHistory(k, init);
      StepAgrees(k, Run(k, START, init, true).0, Run(k, START, init, false).0, last);
      StepShort(k, Run(k, START, init, true).0, last);
    }
  }

  lemma StepShort(k: Knobs, p: Port, i: Input)
    requires |p.consec| <= 32
    ensures |Step(k, p, i, true).0.consec| <= 32
  {
    if i.Hear? && i.ev.TsEv? { assert |Trim(p.consec + [i.ev.f])| <= 32; }
  }

  // ----------------------------------------------------- numbers and states

  /** Which numbers and which LinkUp go with which state. */
  predicate Numbered(p: Core) {
    !p.link.Odd? && !p.lane.Odd? && (p.lwLeft.Some? ==> p.state == CFG_LW_START) &&
    match p.state
    case DETECT | POLL_ACTIVE | POLL_CONFIG => !p.linkup && p.link == Pad && p.lane == Pad
    case CFG_LW_START => (p.linkup ==> p.link.Num? && p.lane.Num?) && (p.lwLeft.Some? ==> p.link.Num?)
    case CFG_LW_ACCEPT => p.link.Num? && (p.linkup ==> p.lane.Num?)
    case CFG_LN_WAIT | CFG_LN_ACCEPT | CFG_COMPLETE => p.link.Num? && p.lane.Num?
    case CFG_IDLE | L0 | REC_LOCK | REC_CFG | REC_IDLE => p.linkup && p.link.Num? && p.lane.Num?
  }

  lemma DecideNumbered(k: Knobs, p: Core, e: TsFields, w2: seq<TsFields>, w8: seq<TsFields>, cycle: int)
    requires Numbered(p)
    ensures Numbered(Decide(k, p, e, w2, w8, cycle))
  {
    match p.state
    case CFG_LW_START => LwStartNumbered(k, p, w2, cycle);
    case CFG_LW_ACCEPT => LwAcceptNumbered(p, w2, cycle);
    case CFG_LN_WAIT =>
    case CFG_LN_ACCEPT =>
    case REC_CFG =>
    case _ =>
  }

  lemma LwStartNumbered(k: Knobs, p: Core, w2: seq<TsFields>, cycle: int)
    requires Numbered(p) && p.state == CFG_LW_START
    ensures Numbered(LwStart(k, p, w2, cycle))
  {
    if AllNumbered(w2) && |w2| == 2 { assert w2[1] in w2; }
  }

  lemma LwAcceptNumbered(p: Core, w2: seq<TsFields>, cycle: int)
    requires Numbered(p) && p.state == CFG_LW_ACCEPT
    ensures Numbered(LwAccept(p, w2, cycle))
  {
    if AllLaned(w2, p.link) && |w2| == 2 { assert w2[1] in w2; }
  }

  lemma AdvanceNumbered(k: Knobs, p: Core, cycle: int)
    requires Numbered(p)
    ensures Numbered(Advance(k, p, cycle))
  {
  }

  lemma ExpireNumbered(p: Core, heard: bool, cycle: int)
    requires Numbered(p)
    ensures Numbered(Expire(p, heard, cycle))
  {
  }

  lemma TickNumbered(k: Knobs, p: Core, heard: bool, cycle: int, ei: bool, run: nat)
    requires Numbered(p)
    ensures Numbered(Tick(k, p, heard, cycle, ei, run))
  {
    var p1 := SeeIdle(p.(now := cycle), run);
    AdvanceNumbered(k, p1, cycle);
    ExpireNumbered(Advance(k, p1, cycle), heard, cycle);
  }

  lemma StepNumbered(k: Knobs, p: Port, i: Input)
    requires Numbered(p.c)
    ensures Numbered(Step(k, p, i, true).0.c)
  {
    match i
    case Hear(ev, cycle) =>
      if ev.TsEv? {
        var c := Trim(p.consec + [ev.f]);
        DecideNumbered(k, p.c, ev.f, Window(c, 2), Window(c, 8), cycle);
      }
    case Clock(cycle, ei, run) => TickNumbered(k, p.c, p.consec != [], cycle, ei, run);
    case Send =>
    case SentIdle(_) =>
    case Directed(_, _) =>
  }

  /** Every run: CFG_IDLE, L0 and Recovery imply LinkUp and adopted numbers,
      Polling implies neither, and LinkUp is never seen without both numbers. */
  lemma {:induction false} NumbersAlways(k: Knobs, xs: seq<Input>)
    ensures var p := Run(k, START, xs, true).0.c;
      Numbered(p) && (p.linkup ==> p.link.Num? && p.lane.Num?)
    decreases |xs|
  {
    if xs == [] {
    } else {
      var init, last := xs[..|xs| - 1], xs[|xs| - 1];
      NumbersAlways(k, init);
      StepNumbered(k, Run(k, START, init, true).0, last);
    }
  }

  // ---------------------------------------------------------- entry to L0

  /** A run that remembers the inputs since it entered its present state. */
  datatype Visit = Visit(p: Port, since: seq<Input>)

  function Watch(k: Knobs, v: Visit, i: Input): Visit {
    var p := Step(k, v.p, i, true).0;
    Visit(p, if p.c.state == v.p.c.state then v.since + [i] else [])
  }

  function Watched(k: Knobs, xs: seq<Input>): Visit
    decreases |xs|
  {
    if xs == [] then Visit(START, []) else Watch(k, Watched(k, xs[..|xs| - 1]), xs[|xs| - 1])
  }

  /** Some cycle saw a run of at least `n` Logical Idle Symbols. */
  predicate Saw(since: seq<Input>, n: nat) { exists i | i in since :: i.Clock? && i.run >= n }

  /** Idle Symbols queued after the first cycle that saw one received. */
  function Queued(since: seq<Input>): nat
    decreases |since|
  {
    if since == [] then 0
    else
      var init, last := since[..|since| - 1], since[|since| - 1];
      Queued(init) + if last.SentIdle? && Saw(init, 1) then last.n else 0
  }

  /** In the idle states the latches and the counter say what has happened since. */
  predicate Latched(p: Core, since: seq<Input>) {
    IdleState(p.state) ==>
      (p.rxOk == Saw(since, 8) && p.rxOne == Saw(since, 1) && p.sentAfterRx == Queued(since))
  }

  lemma SawOne(since: seq<Input>, i: Input, n: nat)
    ensures Saw(since + [i], n) == (Saw(since, n) || (i.Clock? && i.run >= n))
  {
    if Saw(since, n) {
      var j :| j in since && j.Clock? && j.run >= n;
      assert j in since + [i];
    }
    if i.Clock? && i.run >= n { assert i in since + [i]; }
  }

  lemma QueuedOne(since: seq<Input>, i: Input)
    ensures Queued(since + [i]) == Queued(since) + if i.SentIdle? && Saw(since, 1) then i.n else 0
  {
    assert (since + [i])[..|since|] == since;
  }

  /** How a step may change what an idle state has latched. */
  predicate Latches(p: Core, q: Core, i: Input) {
    if q.state != p.state then IdleState(q.state) ==> (!q.rxOk && !q.rxOne && q.sentAfterRx == 0)
    else
      IdleState(p.state) ==>
        (q.rxOk == (p.rxOk || (i.Clock? && i.run >= 8)) && q.rxOne == (p.rxOne || (i.Clock? && i.run >= 1)) &&
         q.sentAfterRx == p.sentAfterRx + if i.SentIdle? && p.rxOne then i.n else 0)
  }

  lemma DecideLatches(k: Knobs, p: Core, e: TsFields, w2: seq<TsFields>, w8: seq<TsFields>, cycle: int, i: Input)
    requires i.Hear?
    ensures Latches(p, Decide(k, p, e, w2, w8, cycle), i)
  {
    match p.state
    case CFG_LW_START =>
    case CFG_LW_ACCEPT =>
    case CFG_LN_WAIT =>
    case CFG_LN_ACCEPT =>
    case REC_CFG =>
    case _ =>
  }

  /** A training set never leads to L0 nor from an idle state to Recovery. */
  lemma DecideStays(k: Knobs, p: Core, e: TsFields, w2: seq<TsFields>, w8: seq<TsFields>, cycle: int)
    ensures var q := Decide(k, p, e, w2, w8, cycle);
      q.state != L0 && q.idleToRlock == p.idleToRlock && (IdleState(p.state) ==> q.state != REC_LOCK)
  {
    match p.state
    case CFG_LW_START =>
    case CFG_LW_ACCEPT =>
    case CFG_LN_WAIT =>
    case CFG_LN_ACCEPT =>
    case REC_CFG =>
    case _ =>
  }

  predicate Clean(q: Core) { !q.rxOk && !q.rxOne && q.sentAfterRx == 0 }

  lemma AdvanceClean(k: Knobs, p: Core, cycle: int)
    ensures Advance(k, p, cycle) == p || Clean(Advance(k, p, cycle))
  {
  }

  lemma ExpireClean(p: Core, heard: bool, cycle: int)
    ensures Expire(p, heard, cycle) == p || Clean(Expire(p, heard, cycle)) || !IdleState(Expire(p, heard, cycle).state)
    ensures IdleState(Expire(p, heard, cycle).state) ==> Expire(p, heard, cycle) == p
  {
  }

  lemma TickLatches(k: Knobs, p: Core, heard: bool, i: Input)
    requires i.Clock?
    ensures Latches(p, Tick(k, p, heard, i.cycle, i.ei, i.run), i)
  {
    var p1 := SeeIdle(p.(now := i.cycle), i.run);
    AdvanceClean(k, p1, i.cycle);
    ExpireClean(Advance(k, p1, i.cycle), heard, i.cycle);
  }

  lemma SendLatches(k: Knobs, p: Core, i: Input)
    requires i.Send?
    ensures Latches(p, NextUnit(k, p).0, i)
  {
  }

  lemma StepLatches(k: Knobs, p: Port, i: Input)
    ensures Latches(p.c, Step(k, p, i, true).0.c, i)
  {
    match i
    case Hear(ev, cycle) =>
      if ev.TsEv? {
        var c := Trim(p.consec + [ev.f]);
        DecideLatches(k, p.c, ev.f, Window(c, 2), Window(c, 8), cycle, i);
      }
    case Clock(_, _, _) => TickLatches(k, p.c, p.consec != [], i);
    case Send => SendLatches(k, p.c, i);
    case SentIdle(_) =>
    case Directed(_, _) =>
  }

  lemma LatchedNext(p: Core, q: Core, since: seq<Input>, i: Input)
    requires Latched(p, since) && Latches(p, q, i)
    ensures Latched(q, if q.state == p.state then since + [i] else [])
  {
    SawOne(since, i, 8);
    SawOne(since, i, 1);
    QueuedOne(since, i);
  }

  lemma {:induction false} LatchedAlways(k: Knobs, xs: seq<Input>)
    ensures Latched(Watched(k, xs).p.c, Watched(k, xs).since) && Watched(k, xs).p == Run(k, START, xs, true).0
    decreases |xs|
  {
    if xs == [] {
    } else {
      var v, last := Watched(k, xs[..|xs| - 1]), xs[|xs| - 1];
      LatchedAlways(k, xs[..|xs| - 1]);
      StepLatches(k, v.p, last);
      LatchedNext(v.p.c, Step(k, v.p, last, true).0.c, v.since, last);
    }
  }

  lemma TickToL0(k: Knobs, p: Core, heard: bool, cycle: int, ei: bool, run: nat)
    requires p.state != L0
    ensures Tick(k, p, heard, cycle, ei, run).state == L0 <==>
      (IdleState(p.state) && (p.rxOk || run >= 8) && p.sentAfterRx >= k.idleAfterRx)
  {
  }

  lemma StepToL0(k: Knobs, p: Port, i: Input)
    requires p.c.state != L0
    ensures Step(k, p, i, true).0.c.state == L0 <==>
      (i.Clock? && IdleState(p.c.state) && (p.c.rxOk || i.run >= 8) && p.c.sentAfterRx >= k.idleAfterRx)
  {
    if i.Hear? && i.ev.TsEv? {
      var c := Trim(p.consec + [i.ev.f]);
      DecideStays(k, p.c, i.ev.f, Window(c, 2), Window(c, 8), i.cycle);
    }
    if i.Clock? { TickToL0(k, p.c, p.consec != [], i.cycle, i.ei, i.run); }
  }

  /** L0 is entered exactly from an idle state, on a cycle by which at least eight
      consecutive idle Symbols have been received during this visit and enough
      idle Symbols have been queued since the first of them. */
  lemma EntryToL0(k: Knobs, xs: seq<Input>, i: Input)
    ensures var v := Watched(k, xs); var seen := v.since + [i];
      v.p.c.state != L0 ==>
        (Run(k, START, xs + [i], true).0.c.state == L0 <==>
         (i.Clock? && IdleState(v.p.c.state) && Saw(seen, 8) && Queued(seen) >= k.idleAfterRx))
  {
    var v := Watched(k, xs);
    LatchedAlways(k, xs);
    assert (xs + [i])[..|xs|] == xs;
    SawOne(v.since, i, 8);
    QueuedOne(v.since, i);
    if v.p.c.state != L0 { StepToL0(k, v.p, i); }
  }

  // ------------------------------------------------------- one idle detour

  predicate Detour(p: Core, q: Core) { IdleState(p.state) && q.state == REC_LOCK }

  function Detours(k: Knobs, xs: seq<Input>): nat
    decreases |xs|
  {
    if xs == [] then 0
    else
      var p := Run(k, START, xs[..|xs| - 1], true).0;
      Detours(k, xs[..|xs| - 1]) + if Detour(p.c, Step(k, p, xs[|xs| - 1], true).0.c) then 1 else 0
  }

  predicate CountsDetour(p: Core, q: Core) {
    q.idleToRlock == (p.idleToRlock || Detour(p, q)) && !(p.idleToRlock && Detour(p, q))
  }

  lemma TickDetour(k: Knobs, p: Core, heard: bool, cycle: int, ei: bool, run: nat)
    ensures CountsDetour(p, Tick(k, p, heard, cycle, ei, run))
  {
  }

  lemma SendDetour(k: Knobs, p: Core)
    ensures CountsDetour(p, NextUnit(k, p).0)
  {
  }

  lemma DetourStep(k: Knobs, p: Port, i: Input)
    ensures CountsDetour(p.c, Step(k, p, i, true).0.c)
  {
    match i
    case Hear(ev, cycle) =>
      if ev.TsEv? {
        var c := Trim(p.consec + [ev.f]);
        DecideStays(k, p.c, ev.f, Window(c, 2), Window(c, 8), cycle);
      }
    case Clock(cycle, ei, run) => TickDetour(k, p.c, p.consec != [], cycle, ei, run);
    case Send => SendDetour(k, p.c);
    case SentIdle(_) =>
    case Directed(_, _) =>
  }

  /** An idle state gives up on to Recovery at most once in a whole run. */
  lemma {:induction false} OneDetour(k: Knobs, xs: seq<Input>)
    ensures Detours(k, xs) == if Run(k, START, xs, true).0.c.idleToRlock then 1 else 0
    decreases |xs|
  {
    if xs == [] {
    } else {
      OneDetour(k, xs[..|xs| - 1]);
      DetourStep(k, Run(k, START, xs[..|xs| - 1], true).0, xs[|xs| - 1]);
    }
  }

  // ------------------------------------------------------------ termination

  predicate Settled(p: Core) { p.state == DETECT || p.state == L0 }

  /** The longest the states after this one can last without any event. */
  function After(st: State): nat {
    match st
    case DETECT | L0 | CFG_LW_ACCEPT | CFG_LN_ACCEPT => 0
    case CFG_LW_START | CFG_LN_WAIT => 2 * MS
    case REC_LOCK => 26 * MS
    case CFG_IDLE | REC_IDLE => 50 * MS
    case CFG_COMPLETE | REC_CFG => 52 * MS
    case POLL_CONFIG => 26 * MS
    case POLL_ACTIVE => 74 * MS
  }

  /** Cycles that may still pass: those left in this state, at least the next
      one, and those of the states to come. */
  function Left(p: Core, cycle: int): int {
    if Settled(p) then 0
    else
      var rest := p.entered + Timeout(p.state).value - cycle;
      After(p.state) + if rest >= 1 then rest else 1
  }

  predicate Past(p: Core, cycle: int) { p.entered <= cycle && p.now <= cycle }

  predicate Closer(p: Core, q: Core, cycle: int) {
    Past(q, cycle + 1) && (Settled(q) || Left(q, cycle + 1) < Left(p, cycle))
  }

  lemma AdvanceCloser(k: Knobs, p: Core, cycle: int)
    requires p.entered <= cycle && p.now <= cycle + 1 && !Settled(p)
    ensures var q := Advance(k, p, cycle + 1); q == p || Closer(p, q, cycle)
  {
  }

  lemma ExpireCloser(p: Core, heard: bool, cycle: int)
    requires p.entered <= cycle && p.now <= cycle + 1 && !Settled(p)
    ensures Closer(p, Expire(p, heard, cycle + 1), cycle)
  {
  }

  /** A cycle without Logical Idle brings the end nearer. */
  lemma TickCloser(k: Knobs, p: Core, heard: bool, cycle: int, ei: bool)
    requires Past(p, cycle) && !Settled(p)
    ensures Closer(p, Tick(k, p, heard, cycle + 1, ei, 0), cycle)
  {
    var p1 := p.(now := cycle + 1);
    assert SeeIdle(p1, 0) == p1;
    AdvanceCloser(k, p1, cycle);
    ExpireCloser(p1, heard, cycle);
  }

  predicate NoFurther(p: Core, q: Core, cycle: int) {
    Past(q, cycle) && !Settled(q) && Left(q, cycle) <= Left(p, cycle)
  }

  /** Sending does not take it further away. */
  lemma SendNoFurther(k: Knobs, p: Core, cycle: int)
    requires Past(p, cycle) && !Settled(p)
    ensures NoFurther(p, NextUnit(k, p).0, cycle)
  {
    if p.state == CFG_LW_START && p.lwLeft.Some? && p.lwLeft.value <= 1 {
      assert NextUnit(k, p).0.state == CFG_LW_ACCEPT && NextUnit(k, p).0.entered == p.now;
    } else {
      assert NextUnit(k, p).0.state == p.state && NextUnit(k, p).0.entered == p.entered;
    }
  }

  lemma IdleNoFurther(p: Core, cycle: int, n: nat)
    requires Past(p, cycle) && !Settled(p)
    ensures NoFurther(p, IdleSent(p, n), cycle)
  {
  }

  lemma LeftBound(p: Core, cycle: int)
    requires Past(p, cycle)
    ensures Left(p, cycle) <= 100 * MS
  {
  }

  function Cycles(xs: seq<Input>): nat
    decreases |xs|
  {
    if xs == [] then 0 else Cycles(xs[..|xs| - 1]) + if xs[|xs| - 1].Clock? then 1 else 0
  }

  /** Nothing is received, nothing directed, and the cycles follow `cycle` one
      after the other. */
  predicate Quiet(xs: seq<Input>, cycle: int)
    decreases |xs|
  {
    xs == [] ||
    (Quiet(xs[..|xs| - 1], cycle) &&
     match xs[|xs| - 1]
     case Clock(c, _, run) => c == cycle + Cycles(xs) && run == 0
     case Send => true
     case SentIdle(_) => true
     case _ => false)
  }

  lemma QuietStep(k: Knobs, p: Port, cycle: int, i: Input)
    requires Past(p.c, cycle) && !Settled(p.c)
    requires i.Send? || i.SentIdle? || (i.Clock? && i.cycle == cycle + 1 && i.run == 0)
    ensures var q := Step(k, p, i, true).0.c;
      if i.Clock? then Closer(p.c, q, cycle) else NoFurther(p.c, q, cycle)
  {
    match i
    case Clock(_, ei, _) => TickCloser(k, p.c, p.consec != [], cycle, ei);
    case Send => SendNoFurther(k, p.c, cycle);
    case SentIdle(n) => IdleNoFurther(p.c, cycle, n);
  }

  /** Either the machine has settled on the way, or the end is that much nearer. */
  lemma {:induction false} QuietRun(k: Knobs, p: Port, cycle: int, xs: seq<Input>) returns (n: nat)
    requires Past(p.c, cycle) && Quiet(xs, cycle)
    ensures n <= |xs|
    ensures var q := Run(k, p, xs, true).0.c;
      Settled(Run(k, p, xs[..n], true).0.c) ||
      (Past(q, cycle + Cycles(xs)) && !Settled(q) && Left(q, cycle + Cycles(xs)) <= Left(p.c, cycle) - Cycles(xs))
    decreases |xs|
  {
    assert xs[..|xs|] == xs;
    if xs == [] { return 0; }
    var init := xs[..|xs| - 1];
    n := QuietRun(k, p, cycle, init);
    assert xs[..n] == init[..n];
    if !Settled(Run(k, p, xs[..n], true).0.c) {
      QuietStep(k, Run(k, p, init, true).0, cycle + Cycles(init), xs[|xs| - 1]);
      n := |xs|;
    }
  }

  /** From every state, 100 ms without an event, an idle Symbol or a direction
      bring the machine to DETECT or L0, whatever it sends meanwhile. */
  lemma Terminates(k: Knobs, p: Port, cycle: int, xs: seq<Input>) returns (n: nat)
    requires Past(p.c, cycle) && Quiet(xs, cycle) && Cycles(xs) >= 100 * MS
    ensures n <= |xs| && Settled(Run(k, p, xs[..n], true).0.c)
  {
    LeftBound(p.c, cycle);
    n := QuietRun(k, p, cycle, xs);
  }
}
