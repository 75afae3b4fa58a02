/** The main results about the Symbol pipeline: what is printed is what is
    parsed, and one COM is enough to forget any garbage. */
module StreamTheorems {
  import opened Common
  import opened Symbols
  import Scr = Scrambler
  import opened StreamSpec
  import opened StreamProofs

  // ---------------------------------------------------- exact event streams

  predicate AllLegal(us: seq<Unit>) { forall u | u in us :: Legal(u) }

  function Next(q: Pending, u: Unit): (Pending, seq<Event>) { (Holds(q, u), Hears(q, u)) }

  /** Every list of units, from any unit boundary, through scrambler and
      receiver: the events are those of the units, one after the other. */
  lemma {:induction false} ListHeard(r: Reader, l: bv16, q: Pending, us: seq<Unit>)
    requires Resting(r, l, q) && AllLegal(us)
    ensures var c := Carry(r, l, PrintAll(us)); var e := Fold(Next, q, us);
      Resting(c.0, c.1, e.0) && c.2 == e.1
    decreases |us|
  {
    if us == [] {
    } else {
      var init, last := us[..|us| - 1], us[|us| - 1];
      ListHeard(r, l, q, init);
      var c := Carry(r, l, PrintAll(init));
      CarryConcat(r, l, PrintAll(init), Print(last));
      UnitHeard(c.0, c.1, Fold(Next, q, init).0, last);
    }
  }

  // ------------------------------------------------ what the events mean

  /** The unit an event reports; none for what reports an error. */
  function UnitOf(e: Event): seq<Unit> {
    match e
    case IdleRun(n) => [IdleU(n)]
    case TsEv(f) =>
      if f.nFts.Some? && f.rate.Some? && f.tc.Some? && !f.inverted
      then [TsU(if f.ts1 then TS1_ID else TS2_ID, f.link, f.lane, f.nFts.value, f.rate.value, f.tc.value)] else []
    case SkpEv(n) => [SkpU(n)]
    case EiosEv => [EiosU]
    case DllpEv(b6) => [DllpU(b6)]
    case TlpEv(body, edb) => [TlpU(body, edb)]
    case _ => []
  }

  function UnitsOf(evs: seq<Event>): seq<Unit> { FlatMap(UnitOf, evs) }

  predicate Sound(e: Event) { !e.FrameErr? && !e.OsBad? && !e.IdleBad? && !e.FtsEv? }

  function UnitsHeld(q: Pending): seq<Unit> {
    match q case Nothing => [] case SomeSkp(n) => [SkpU(n)] case SomeIdle(n) => [IdleU(n)]
  }

  predicate EndsIdle(us: seq<Unit>) { us != [] && us[|us| - 1].IdleU? }

  function Join(done: seq<Unit>, u: Unit): seq<Unit> {
    if u.IdleU? && EndsIdle(done) then done[..|done| - 1] + [IdleU(done[|done| - 1].n + u.n)] else done + [u]
  }

  /** The list with neighbouring runs of Logical Idle made one. */
  function Coalesce(us: seq<Unit>): (r: seq<Unit>)
    decreases |us|
  {
    if us == [] then [] else Join(Coalesce(us[..|us| - 1]), us[|us| - 1])
  }

  lemma UnitsFlushed(q: Pending)
    ensures UnitsOf(Flush(q)) == UnitsHeld(q) && forall x | x in Flush(q) :: Sound(x)
  {
    if q.SomeSkp? { FlatMapOne(UnitOf, SkpEv(q.n)); }
    if q.SomeIdle? { FlatMapOne(UnitOf, IdleRun(q.n)); }
  }

  lemma UnitsTold(q: Pending, u: Unit)
    requires Legal(u)
    ensures UnitsOf(Tells(q, u)) == (if u.SkpU? || u.IdleU? then [] else [u]) && forall x | x in Tells(q, u) :: Sound(x)
  {
    if Tells(q, u) != [] { FlatMapOne(UnitOf, Tells(q, u)[0]); }
  }

  lemma UnitsNext(q: Pending, u: Unit)
    requires Legal(u)
    ensures UnitsOf(Hears(q, u)) ==
            (if q.SomeIdle? && u.IdleU? then [] else UnitsHeld(q)) + (if u.SkpU? || u.IdleU? then [] else [u])
    ensures forall x | x in Hears(q, u) :: Sound(x)
  {
    UnitsFlushed(q);
    UnitsTold(q, u);
    FlatMapConcat(UnitOf, if q.SomeIdle? && u.IdleU? then [] else Flush(q), Tells(q, u));
  }

  lemma JoinHeld(told: seq<Unit>, q: Pending, u: Unit)
    requires q.Nothing? ==> !EndsIdle(told)
    ensures told +
            ((if q.SomeIdle? && u.IdleU? then [] else UnitsHeld(q)) + (if u.SkpU? || u.IdleU? then [] else [u])) +
            UnitsHeld(Holds(q, u)) == Join(told + UnitsHeld(q), u)
  {
    if q.SomeIdle? && u.IdleU? {
      assert (told + UnitsHeld(q))[..|told|] == told;
    } else {
      JoinOther(told, q, u);
    }
  }

  lemma JoinOther(told: seq<Unit>, q: Pending, u: Unit)
    requires (q.Nothing? ==> !EndsIdle(told)) && !(q.SomeIdle? && u.IdleU?)
    ensures told + (UnitsHeld(q) + (if u.SkpU? || u.IdleU? then [] else [u])) + UnitsHeld(Holds(q, u)) ==
            Join(told + UnitsHeld(q), u)
  {
    assert Join(told + UnitsHeld(q), u) == (told + UnitsHeld(q)) + [u];
    if u.SkpU? || u.IdleU? {
      assert UnitsHeld(Holds(q, u)) == [u];
    } else {
      assert UnitsHeld(Holds(q, u)) == [];
    }
  }

  /** Reading the predicted events back gives the list, idle runs joined; what is
      still held is at most one trailing SKP set or idle run. */
  lemma {:induction false} EventsMean(us: seq<Unit>)
    requires AllLegal(us)
    ensures var e := Fold(Next, Nothing, us);
      UnitsOf(e.1) + UnitsHeld(e.0) == Coalesce(us) && (forall x | x in e.1 :: Sound(x)) &&
      (e.0.Nothing? ==> !EndsIdle(UnitsOf(e.1)))
    decreases |us|
  {
    if us == [] {
    } else {
      var init, last := us[..|us| - 1], us[|us| - 1];
      EventsMean(init);
      var e := Fold(Next, Nothing, init);
      FlatMapConcat(UnitOf, e.1, Hears(e.0, last));
      UnitsNext(e.0, last);
      JoinHeld(UnitsOf(e.1), e.0, last);
    }
  }

  // ------------------------------------------------------- print, then parse

  /** Any list of units that starts with an ordered set, scrambled from any
      register and received in any state garbage can leave: after what the COM
      cut short, the receiver reports exactly those units, with their contents
      and in their order, and no error. */
  lemma PrintThenParse(r: Reader, l: bv16, us: seq<Unit>)
    requires Good(r) && AllLegal(us) && us != [] && ComLed(us[0])
    ensures var c := Carry(r, l, PrintAll(us));
      var cut := Feed(r, K(COM)).1;
      var e := Fold(Next, Nothing, us);
      c.2 == cut + e.1 && Resting(c.0, c.1, e.0) &&
      UnitsOf(e.1) + UnitsHeld(e.0) == Coalesce(us) && forall x | x in e.1 :: Sound(x)
  {
    var u, rest := us[0], us[1..];
    ComLedList(r, l, u, rest);
    assert us == [u] + rest;
    EventsMean(us);
  }

  lemma FirstHears(u: Unit, rest: seq<Unit>)
    ensures var e := Fold(Next, Holds(Nothing, u), rest);
      Fold(Next, Nothing, [u] + rest) == (e.0, Tells(Nothing, u) + e.1)
  {
    FoldConcat(Next, Nothing, [u], rest);
    FoldOne(Next, Nothing, u);
    assert [] + Tells(Nothing, u) == Tells(Nothing, u);
  }

  lemma FirstPrints(u: Unit, rest: seq<Unit>)
    ensures PrintAll([u] + rest) == Print(u) + PrintAll(rest)
  {
    FlatMapConcat(Print, [u], rest);
    FlatMapOne(Print, u);
  }

  lemma ComLedList(r: Reader, l: bv16, u: Unit, rest: seq<Unit>)
    requires Good(r) && Legal(u) && AllLegal(rest) && ComLed(u)
    ensures var c := Carry(r, l, PrintAll([u] + rest)); var e := Fold(Next, Nothing, [u] + rest);
      Resting(c.0, c.1, e.0) && c.2 == Feed(r, K(COM)).1 + e.1
  {
    FirstPrints(u, rest);
    FirstHears(u, rest);
    ComLedHeard(r, l, u);
    var c := Carry(r, l, Print(u));
    CarryConcat(r, l, Print(u), PrintAll(rest));
    ListHeard(c.0, c.1, Holds(Nothing, u), rest);
    var cut, told, e := Feed(r, K(COM)).1, Tells(Nothing, u), Fold(Next, Holds(Nothing, u), rest);
    Associates(cut, told, e.1);
  }

  /** A fresh receiver reports nothing else at all. */
  lemma FreshReader()
    ensures Good(START) && Feed(START, K(COM)).1 == []
  {
  }

  // ------------------------------------------------------ self-stabilisation

  /** Nothing a Symbol can do makes a buffer longer than its bound. */
  predicate Bounded(r: Reader) { Good(r) && |r.buf| <= TS_LEN && |r.plain| <= MAX_PLAIN + 1 }

  lemma DispatchBounded(r: Reader, s: Sym, p: Byte)
    requires Bounded(r) && r.mode == IDLE && r.locked
    ensures Bounded(Dispatch(r, s, p).0)
  {
  }

  lemma OsBounded(r: Reader, s: Sym, p: Byte)
    requires Bounded(r) && r.mode == OS
    ensures Bounded(OsStep(r, s, p).0)
  {
    var full := r.(mode := IDLE, buf := r.buf + [s]);
    DispatchBounded(full, s, p);
  }

  lemma PacketBounded(r: Reader, s: Sym, p: Byte)
    requires Bounded(r) && (r.mode == TLP || r.mode == DLLP)
    ensures Bounded(Step(r, s, p).0)
  {
    DispatchBounded(r.(mode := IDLE), s, p);
  }

  lemma FeedBounded(r: Reader, s: Sym)
    requires Bounded(r)
    ensures Bounded(Feed(r, s).0)
  {
    var (p, rx) := Scr.FeedRx(r.rx, s);
    var r1 := r.(rx := rx, locked := r.locked || s == K(COM));
    if r1.locked {
      match r.mode
      case IDLE => DispatchBounded(r1, s, p);
      case OS => OsBounded(r1, s, p);
      case TLP => PacketBounded(r1, s, p);
      case DLLP => PacketBounded(r1, s, p);
    }
  }

  lemma {:induction false} BoundedAlways(xs: seq<Sym>)
    ensures Bounded(FeedAll(START, xs).0)
    decreases |xs|
  {
    if xs == [] {
    } else {
      BoundedAlways(xs[..|xs| - 1]);
      FeedBounded(FeedAll(START, xs[..|xs| - 1]).0, xs[|xs| - 1]);
    }
  }

  lemma AfterCom(garbage: seq<Sym>)
    ensures FeedAll(START, garbage + [K(COM)]).0 == InOs(Scr.SEED, [K(COM)])
  {
    var r := FeedAll(START, garbage).0;
    BoundedAlways(garbage);
    FoldConcat(Feed, START, garbage, [K(COM)]);
    FoldOne(Feed, r, K(COM));
    ComStarts(r);
  }

  lemma FirstCom()
    ensures FeedAll(START, [K(COM)]) == (InOs(Scr.SEED, [K(COM)]), [])
  {
    FoldOne(Feed, START, K(COM));
    ComStarts(START);
    FreshReader();
  }

  /** Whatever came before a COM, the receiver is afterwards in the state of a
      fresh one that has just seen its first COM: all later events agree. */
  lemma Stabilises(garbage: seq<Sym>, later: seq<Sym>)
    ensures FeedAll(START, garbage + [K(COM)]).0 == FeedAll(START, [K(COM)]).0
    ensures FeedAll(START, garbage + [K(COM)] + later).1 ==
            FeedAll(START, garbage + [K(COM)]).1 + FeedAll(START, [K(COM)] + later).1
  {
    AfterCom(garbage);
    FirstCom();
    FoldForgets(Feed, START, garbage + [K(COM)], [K(COM)], later);
  }
}
