/** Printing and parsing: whatever the transmitter frames and scrambles, the
    receiver delineates into exactly those units, from whatever state garbage
    has left it in. */
module StreamProofs {
  import opened Common
  import opened Symbols
  import Scr = Scrambler
  import opened StreamSpec

  // ---------------------------------------------------------------- printing

  datatype Unit =
    | TsU(ident: Byte, link: Num, lane: Num, nFts: Byte, rate: Byte, tc: Byte)
    | SkpU(n: nat)
    | EiosU
    | DllpU(b6: seq<Byte>)
    | TlpU(body: seq<Byte>, edb: bool)
    | IdleU(n: nat)

  predicate Legal(u: Unit) {
    match u
    case TsU(ident, link, lane, _, _, _) => (ident == TS1_ID || ident == TS2_ID) && !link.Odd? && !lane.Odd?
    case SkpU(n) => 1 <= n <= 5
    case EiosU => true
    case DllpU(b6) => |b6| == 6
    case TlpU(body, _) => |body| <= MAX_PLAIN
    case IdleU(n) => n >= 1
  }

  predicate ComLed(u: Unit) { u.TsU? || u.SkpU? || u.EiosU? }

  function UnitSyms(u: Unit): (r: seq<Sym>)
    ensures ComLed(u) ==> |r| > 0 && r[0] == K(COM)
  {
    match u
    case TsU(ident, link, lane, nFts, rate, tc) => Ts(ident, link, lane, nFts, rate, tc)
    case SkpU(n) => SkpOs(n)
    case EiosU => Eios()
    case DllpU(b6) => Wrap(SDP, b6, END)
    case TlpU(body, edb) => Wrap(STP, body, if edb then EDB else END)
    case IdleU(n) => Idle(n)
  }

  function Mark(xs: seq<Sym>, ts: bool): (r: seq<Scr.Tx>)
    ensures |r| == |xs|
  {
    seq(|xs|, i requires 0 <= i < |xs| => Scr.Tx(xs[i], ts))
  }

  lemma MarkSnoc(xs: seq<Sym>, x: Sym, ts: bool)
    ensures Mark(xs + [x], ts) == Mark(xs, ts) + [Scr.Tx(x, ts)]
  {
  }

  /** The Symbols of a unit; all but the first of a training set bear its mark. */
  function Print(u: Unit): seq<Scr.Tx> {
    var xs := UnitSyms(u);
    if xs == [] then [] else [Scr.Tx(xs[0], false)] + Mark(xs[1..], u.TsU?)
  }

  function PrintAll(us: seq<Unit>): seq<Scr.Tx> { FlatMap(Print, us) }

  function Scramble(l: bv16, x: Scr.Tx): (bv16, seq<Sym>) {
    var (b, m) := Scr.Step(l, x.s, x.inTs);
    (m, [Sym(b, x.s.k)])
  }

  /** The register after a stream, and what left the scrambler. */
  function Sent(l: bv16, xs: seq<Scr.Tx>): (bv16, seq<Sym>) { Fold(Scramble, l, xs) }

  // ------------------------------------------------- receiver and scrambler

  /** The receiver is locked and its register equals the transmitter's. */
  predicate Synced(r: Reader, l: bv16) { r.locked && r.rx.lfsr == l }

  /** Scrambled Symbols fed in, both registers followed: the receiver, the
      transmitter's register and the events. */
  function Carry(r: Reader, l: bv16, xs: seq<Scr.Tx>): (Reader, bv16, seq<Event>) {
    var (m, out) := Sent(l, xs);
    var (r1, ev) := FeedAll(r, out);
    (r1, m, ev)
  }

  lemma CarryConcat(r: Reader, l: bv16, xs: seq<Scr.Tx>, ys: seq<Scr.Tx>)
    ensures var a := Carry(r, l, xs); var b := Carry(a.0, a.1, ys); Carry(r, l, xs + ys) == (b.0, b.1, a.2 + b.2)
  {
    FoldConcat(Scramble, l, xs, ys);
    FoldConcat(Feed, r, Sent(l, xs).1, Sent(Sent(l, xs).0, ys).1);
  }

  function Raw(l: bv16, x: Scr.Tx): Sym { Sym(if x.s.k || x.inTs then x.s.b else x.s.b ^ Scr.Mask(l, 8), x.s.k) }

  /** One Symbol: the receiver recovers the byte and stays in step. */
  lemma CarryOne(r: Reader, l: bv16, x: Scr.Tx)
    requires Synced(r, l) && (!x.s.k ==> x.inTs == Scr.InTs(r.rx, x.s))
    ensures var c := Carry(r, l, [x]);
      var rx := Scr.Rx(c.1, x.s == K(COM), Left(r.rx, x.s));
      (c.0, c.2) == Step(r.(rx := rx), Raw(l, x), x.s.b)
  {
    FoldOne(Scramble, l, x);
    var raw := Sym(Scr.Step(l, x.s, x.inTs).0, x.s.k);
    FoldOne(Feed, r, raw);
    Scr.UndoesStep(l, x.s, x.inTs);
  }

  /** How much of a training set the receiver expects after a Symbol. */
  function Left(rx: Scr.Rx, s: Sym): nat {
    if s == K(COM) then 0
    else if rx.afterCom && (!s.k || s.b == PAD) then TS_LEN - 2
    else if rx.tsLeft > 0 then rx.tsLeft - 1
    else 0
  }

  // --------------------------------------------------- receiver states named

  /** What garbage can leave in the receiver: never more than one unit's worth. */
  predicate Good(r: Reader) {
    match r.mode
    case IDLE => true
    case OS => r.locked && r.idleRun == 0 && 1 <= |r.buf| < TS_LEN && r.buf[0] == K(COM) &&
      (|r.buf| >= 2 && r.buf[1] == K(SKP) ==> |r.buf| <= 1 + SKP_RX_MAX) &&
      (|r.buf| >= 2 && (r.buf[1] == K(IDL) || r.buf[1] == K(FTS)) ==> |r.buf| <= 3)
    case TLP => r.locked && r.idleRun == 0 && |r.plain| <= MAX_PLAIN
    case DLLP => r.locked && r.idleRun == 0 && |r.plain| <= 6
  }

  /** Symbols of a training set still to come after `buf`. */
  function TsLeft(buf: seq<Sym>): nat {
    if 2 <= |buf| <= TS_LEN && (!buf[1].k || buf[1].b == PAD) then TS_LEN - |buf| else 0
  }

  function InOs(l: bv16, buf: seq<Sym>): Reader {
    Reader(Scr.Rx(l, |buf| == 1, TsLeft(buf)), true, OS, buf, [], 0)
  }

  function InPacket(l: bv16, mode: Mode, start: Byte, plain: seq<Byte>): Reader {
    Reader(Scr.Rx(l, false, 0), true, mode, [K(start)], plain, 0)
  }

  /** What the receiver may still hold at a unit boundary. */
  datatype Pending = Nothing | SomeSkp(n: nat) | SomeIdle(n: nat)

  predicate Resting(r: Reader, l: bv16, q: Pending) {
    Synced(r, l) && !r.rx.afterCom && r.rx.tsLeft == 0 &&
    match q
    case Nothing => r.mode == IDLE && r.idleRun == 0
    case SomeSkp(n) => r.mode == OS && 1 <= n <= 5 && r.buf == SkpOs(n) && r.idleRun == 0
    case SomeIdle(n) => r.mode == IDLE && r.idleRun == n > 0
  }

  function Flush(q: Pending): seq<Event> {
    match q
    case Nothing => []
    case SomeSkp(n) => [SkpEv(n)]
    case SomeIdle(n) => [IdleRun(n)]
  }

  // ------------------------------------------------------ starting a unit

  lemma ComStarts(r: Reader)
    requires Good(r)
    ensures Feed(r, K(COM)).0 == InOs(Scr.SEED, [K(COM)])
  {
  }

  lemma ComFlushes(r: Reader, l: bv16, q: Pending)
    requires Resting(r, l, q)
    ensures Feed(r, K(COM)).1 == Flush(q)
  {
  }

  lemma CarryCom(r: Reader, l: bv16)
    ensures Carry(r, l, [Scr.Tx(K(COM), false)]) == (Feed(r, K(COM)).0, Scr.SEED, Feed(r, K(COM)).1)
  {
    FoldOne(Scramble, l, Scr.Tx(K(COM), false));
    FoldOne(Feed, r, K(COM));
  }

  lemma PacketStarts(r: Reader, l: bv16, q: Pending, start: Byte)
    requires Resting(r, l, q) && (start == STP || start == SDP)
    ensures var c := Carry(r, l, [Scr.Tx(K(start), false)]);
      c.0 == InPacket(c.1, if start == STP then TLP else DLLP, start, []) && c.2 == Flush(q)
  {
    CarryOne(r, l, Scr.Tx(K(start), false));
  }

  // ------------------------------------------------------ finishing a unit

  predicate Headed(buf: seq<Sym>) { |buf| > 0 && buf[0] == K(COM) }

  lemma TsOne(l: bv16, buf: seq<Sym>, s: Sym)
    requires 1 <= |buf| < TS_LEN && Headed(buf) && (if |buf| <= 2 then !s.k || s.b == PAD else !s.k)
    requires |buf| >= 2 ==> !buf[1].k || buf[1].b == PAD
    ensures var c := Carry(InOs(l, buf), l, [Scr.Tx(s, true)]);
      if |buf| + 1 < TS_LEN then (c.0, c.2) == (InOs(c.1, buf + [s]), [])
      else var f := ParseTs(buf + [s]);
        Resting(c.0, c.1, Nothing) && c.2 == [if f.None? then OsBad(buf + [s]) else TsEv(f.value)]
  {
    CarryOne(InOs(l, buf), l, Scr.Tx(s, true));
  }

  /** Fields of a training set that has just arrived. */
  function Got(u: Unit): TsFields
    requires u.TsU?
  {
    TsFields(u.ident == TS1_ID, u.link, u.lane, Some(u.nFts), Some(u.rate), Some(u.tc), false)
  }

  /** Symbols 1 and 2 of a training set are data or PAD, the others data. */
  predicate TsBody(xs: seq<Sym>) {
    |xs| < TS_LEN && forall i | 0 <= i < |xs| :: !xs[i].k || (i < 2 && xs[i].b == PAD)
  }

  lemma TsMore(xs: seq<Sym>, init: seq<Sym>, last: Sym)
    requires TsBody(xs) && xs != [] && init == xs[..|xs| - 1] && last == xs[|xs| - 1]
    ensures xs == init + [last] && TsBody(init) && ([K(COM)] + init) + [last] == [K(COM)] + xs
    ensures var buf := [K(COM)] + init;
      Headed(buf) && (if |buf| <= 2 then !last.k || last.b == PAD else !last.k) &&
      (|buf| >= 2 ==> !buf[1].k || buf[1].b == PAD)
  {
  }

  lemma {:induction false} TsPart(l: bv16, xs: seq<Sym>)
    requires TsBody(xs) && |xs| <= TS_LEN - 2
    ensures var c := Carry(InOs(l, [K(COM)]), l, Mark(xs, true));
      (c.0, c.2) == (InOs(c.1, [K(COM)] + xs), [])
    decreases |xs|
  {
    if xs == [] {
      assert Mark(xs, true) == [];
      assert [K(COM)] + xs == [K(COM)];
    } else {
      var init, last := xs[..|xs| - 1], xs[|xs| - 1];
      TsMore(xs, init, last);
      TsPart(l, init);
      MarkSnoc(init, last, true);
      var c := Carry(InOs(l, [K(COM)]), l, Mark(init, true));
      CarryConcat(InOs(l, [K(COM)]), l, Mark(init, true), [Scr.Tx(last, true)]);
      TsOne(c.1, [K(COM)] + init, last);
    }
  }

  lemma TsSplit(u: Unit, init: seq<Sym>, last: Sym)
    requires Legal(u) && u.TsU? && init == UnitSyms(u)[1..15] && last == UnitSyms(u)[15]
    ensures TsBody(init) && !last.k && UnitSyms(u)[1..] == init + [last] && ([K(COM)] + init) + [last] == UnitSyms(u)
  {
  }

  lemma TsFinish(u: Unit, l: bv16)
    requires Legal(u) && u.TsU?
    ensures var c := Carry(InOs(l, [K(COM)]), l, Mark(UnitSyms(u)[1..], true));
      Resting(c.0, c.1, Nothing) && c.2 == [TsEv(Got(u))]
  {
    var xs := UnitSyms(u)[1..];
    var init, last := UnitSyms(u)[1..15], UnitSyms(u)[15];
    TsSplit(u, init, last);
    TsPart(l, init);
    MarkSnoc(init, last, true);
    var c := Carry(InOs(l, [K(COM)]), l, Mark(init, true));
    CarryConcat(InOs(l, [K(COM)]), l, Mark(init, true), [Scr.Tx(last, true)]);
    TsOne(c.1, [K(COM)] + init, last);
    ParseTsBuilt(u.ident, u.link, u.lane, u.nFts, u.rate, u.tc);
  }

  lemma SkpMore(n: nat)
    ensures SkpOs(n + 1) == SkpOs(n) + [K(SKP)]
    ensures Mark(SkpOs(n + 1)[1..], false) == Mark(SkpOs(n)[1..], false) + [Scr.Tx(K(SKP), false)]
  {
  }

  lemma SkpOne(l: bv16, n: nat)
    requires n < 5
    ensures var c := Carry(InOs(l, SkpOs(n)), l, [Scr.Tx(K(SKP), false)]);
      (c.0, c.2) == (InOs(c.1, SkpOs(n) + [K(SKP)]), [])
  {
    CarryOne(InOs(l, SkpOs(n)), l, Scr.Tx(K(SKP), false));
  }

  lemma {:induction false} SkpFinish(n: nat, l: bv16)
    requires n <= 5
    ensures var c := Carry(InOs(l, [K(COM)]), l, Mark(SkpOs(n)[1..], false));
      (c.0, c.2) == (InOs(c.1, SkpOs(n)), [])
  {
    if n == 0 {
      assert SkpOs(0) == [K(COM)];
      assert Mark(SkpOs(n)[1..], false) == [];
    } else {
      SkpFinish(n - 1, l);
      SkpMore(n - 1);
      var c := Carry(InOs(l, [K(COM)]), l, Mark(SkpOs(n - 1)[1..], false));
      CarryConcat(InOs(l, [K(COM)]), l, Mark(SkpOs(n - 1)[1..], false), [Scr.Tx(K(SKP), false)]);
      SkpOne(c.1, n - 1);
    }
  }

  predicate IdlBuf(buf: seq<Sym>) { Headed(buf) && forall i | 1 <= i < |buf| :: buf[i] == K(IDL) }

  lemma EiosOne(l: bv16, buf: seq<Sym>)
    requires IdlBuf(buf) && |buf| <= 3
    ensures var c := Carry(InOs(l, buf), l, [Scr.Tx(K(IDL), false)]);
      if |buf| < 3 then (c.0, c.2) == (InOs(c.1, buf + [K(IDL)]), []) && IdlBuf(buf + [K(IDL)])
      else Resting(c.0, c.1, Nothing) && c.2 == [EiosEv]
  {
    CarryOne(InOs(l, buf), l, Scr.Tx(K(IDL), false));
  }

  lemma EiosSyms()
    ensures var x := Scr.Tx(K(IDL), false); Mark(Eios()[1..], false) == [x] + ([x] + [x])
  {
  }

  lemma EiosEnd(l: bv16, buf: seq<Sym>)
    requires IdlBuf(buf) && |buf| == 2
    ensures var x := Scr.Tx(K(IDL), false); var c := Carry(InOs(l, buf), l, [x] + [x]);
      Resting(c.0, c.1, Nothing) && c.2 == [EiosEv]
  {
    var x := Scr.Tx(K(IDL), false);
    EiosOne(l, buf);
    var c := Carry(InOs(l, buf), l, [x]);
    EiosOne(c.1, buf + [K(IDL)]);
    CarryConcat(InOs(l, buf), l, [x], [x]);
  }

  lemma EiosFinish(l: bv16)
    ensures var c := Carry(InOs(l, [K(COM)]), l, Mark(Eios()[1..], false));
      Resting(c.0, c.1, Nothing) && c.2 == [EiosEv]
  {
    var x := Scr.Tx(K(IDL), false);
    var buf := [K(COM)];
    EiosSyms();
    EiosOne(l, buf);
    var c := Carry(InOs(l, buf), l, [x]);
    EiosEnd(c.1, buf + [K(IDL)]);
    CarryConcat(InOs(l, buf), l, [x], [x] + [x]);
  }

  lemma {:induction false} PacketBody(l: bv16, mode: Mode, start: Byte, bytes: seq<Byte>)
    requires mode == TLP || mode == DLLP
    requires |bytes| <= if mode == TLP then MAX_PLAIN else 6
    ensures var c := Carry(InPacket(l, mode, start, []), l, Mark(AllD(bytes), false));
      (c.0, c.2) == (InPacket(c.1, mode, start, bytes), [])
    decreases |bytes|
  {
    if bytes == [] {
      assert Mark(AllD(bytes), false) == [];
    } else {
      var init, last := bytes[..|bytes| - 1], bytes[|bytes| - 1];
      PacketBody(l, mode, start, init);
      assert bytes == init + [last];
      assert AllD(bytes) == AllD(init) + [D(last)];
      MarkSnoc(AllD(init), D(last), false);
      var c := Carry(InPacket(l, mode, start, []), l, Mark(AllD(init), false));
      CarryConcat(InPacket(l, mode, start, []), l, Mark(AllD(init), false), [Scr.Tx(D(last), false)]);
      CarryOne(c.0, c.1, Scr.Tx(D(last), false));
    }
  }

  // ---------------------------------------------------------- whole units

  /** What the receiver holds after a unit, given what it held before. */
  function Holds(q: Pending, u: Unit): Pending {
    match u
    case SkpU(n) => SomeSkp(n)
    case IdleU(n) => SomeIdle(if q.SomeIdle? then q.n + n else n)
    case _ => Nothing
  }

  /** What it tells of a unit itself. */
  function Tells(q: Pending, u: Unit): seq<Event> {
    match u
    case TsU(_, _, _, _, _, _) => [TsEv(Got(u))]
    case SkpU(_) => []
    case EiosU => [EiosEv]
    case DllpU(b6) => [DllpEv(b6)]
    case TlpU(body, edb) => [TlpEv(body, edb)]
    case IdleU(n) => var m := if q.SomeIdle? then q.n else 0; if m < 8 <= m + n then [Idle8] else []
  }

  /** All it tells while a unit arrives: first what it was holding, unless the
      unit only makes the run of Logical Idle longer. */
  function Hears(q: Pending, u: Unit): seq<Event> {
    (if q.SomeIdle? && u.IdleU? then [] else Flush(q)) + Tells(q, u)
  }

  lemma ComLedFinish(u: Unit, l: bv16)
    requires Legal(u) && ComLed(u)
    ensures var c := Carry(InOs(l, [K(COM)]), l, Mark(UnitSyms(u)[1..], u.TsU?));
      Resting(c.0, c.1, Holds(Nothing, u)) && c.2 == Tells(Nothing, u)
  {
    match u
    case TsU(_, _, _, _, _, _) => TsFinish(u, l);
    case SkpU(n) => SkpFinish(n, l);
    case EiosU => EiosFinish(l);
  }

  /** A unit led by COM is heard in full whatever the receiver was doing. */
  lemma ComLedHeard(r: Reader, l: bv16, u: Unit)
    requires Good(r) && Legal(u) && ComLed(u)
    ensures var c := Carry(r, l, Print(u));
      Resting(c.0, c.1, Holds(Nothing, u)) && c.2 == Feed(r, K(COM)).1 + Tells(Nothing, u)
  {
    var com := [Scr.Tx(K(COM), false)];
    CarryCom(r, l);
    ComStarts(r);
    CarryConcat(r, l, com, Mark(UnitSyms(u)[1..], u.TsU?));
    ComLedFinish(u, Scr.SEED);
  }

  function PacketBytes(u: Unit): seq<Byte>
    requires u.DllpU? || u.TlpU?
  {
    if u.DllpU? then u.b6 else u.body
  }

  function PacketStop(u: Unit): Scr.Tx { Scr.Tx(K(if u.TlpU? && u.edb then EDB else END), false) }

  lemma PacketPrint(u: Unit)
    requires u.DllpU? || u.TlpU?
    ensures UnitSyms(u)[0] == K(if u.TlpU? then STP else SDP)
    ensures Print(u) == [Scr.Tx(UnitSyms(u)[0], false)] + (Mark(AllD(PacketBytes(u)), false) + [PacketStop(u)])
  {
    var stop := PacketStop(u).s;
    Tail(K(if u.TlpU? then STP else SDP), AllD(PacketBytes(u)), stop);
    MarkSnoc(AllD(PacketBytes(u)), stop, false);
  }

  lemma Tail(start: Sym, body: seq<Sym>, stop: Sym)
    ensures ([start] + body + [stop])[0] == start && ([start] + body + [stop])[1..] == body + [stop]
  {
  }

  lemma PacketFinish(l: bv16, u: Unit, mode: Mode, start: Byte)
    requires Legal(u) && (u.DllpU? || u.TlpU?) && mode == if u.TlpU? then TLP else DLLP
    ensures var c := Carry(InPacket(l, mode, start, []), l, Mark(AllD(PacketBytes(u)), false) + [PacketStop(u)]);
      Resting(c.0, c.1, Nothing) && c.2 == Tells(Nothing, u)
  {
    var body := Mark(AllD(PacketBytes(u)), false);
    PacketBody(l, mode, start, PacketBytes(u));
    var c := Carry(InPacket(l, mode, start, []), l, body);
    CarryConcat(InPacket(l, mode, start, []), l, body, [PacketStop(u)]);
    CarryOne(c.0, c.1, PacketStop(u));
  }

  lemma PacketHeard(r: Reader, l: bv16, q: Pending, u: Unit)
    requires Resting(r, l, q) && Legal(u) && (u.DllpU? || u.TlpU?)
    ensures var c := Carry(r, l, Print(u)); Resting(c.0, c.1, Holds(q, u)) && c.2 == Hears(q, u)
  {
    PacketPrint(u);
    var start := if u.TlpU? then STP else SDP;
    PacketStarts(r, l, q, start);
    var c := Carry(r, l, [Scr.Tx(K(start), false)]);
    CarryConcat(r, l, [Scr.Tx(K(start), false)], Mark(AllD(PacketBytes(u)), false) + [PacketStop(u)]);
    PacketFinish(c.1, u, c.0.mode, start);
  }

  /** One Symbol of Logical Idle at a unit boundary, whatever it looks like. */
  lemma IdleStep(r: Reader, l: bv16, q: Pending, raw: Sym)
    requires Resting(r, l, q) && !raw.k
    ensures var c := Step(r, raw, 0); Resting(c.0, l, Holds(q, IdleU(1))) && c.1 == Hears(q, IdleU(1))
  {
    if q.SomeSkp? {
      assert (r.buf + [raw])[1] == K(SKP) && |r.buf + [raw]| - 2 == q.n;
    }
  }

  lemma IdleStarts(r: Reader, l: bv16, q: Pending)
    requires Resting(r, l, q)
    ensures var c := Carry(r, l, [Scr.Tx(D(0), false)]);
      Resting(c.0, c.1, Holds(q, IdleU(1))) && c.2 == Hears(q, IdleU(1))
  {
    var x := Scr.Tx(D(0), false);
    CarryOne(r, l, x);
    var m := Carry(r, l, [x]).1;
    var r1 := r.(rx := Scr.Rx(m, false, 0));
    assert Left(r.rx, x.s) == 0 && Resting(r1, m, q);
    IdleStep(r1, m, q, Raw(l, x));
  }

  lemma IdleJoins(q: Pending, n: nat)
    requires n >= 1
    ensures var q1 := Holds(q, IdleU(n));
      Holds(q1, IdleU(1)) == Holds(q, IdleU(n + 1)) &&
      Hears(q, IdleU(n)) + Hears(q1, IdleU(1)) == Hears(q, IdleU(n + 1))
  {
  }

  lemma {:induction false} IdleHeard(r: Reader, l: bv16, q: Pending, n: nat)
    requires Resting(r, l, q) && n >= 1
    ensures var c := Carry(r, l, Mark(Idle(n), false));
      Resting(c.0, c.1, Holds(q, IdleU(n))) && c.2 == Hears(q, IdleU(n))
  {
    var x := Scr.Tx(D(0), false);
    if n == 1 {
      assert Mark(Idle(1), false) == [x];
      IdleStarts(r, l, q);
    } else {
      assert Idle(n) == Idle(n - 1) + [D(0)];
      MarkSnoc(Idle(n - 1), D(0), false);
      IdleHeard(r, l, q, n - 1);
      var c := Carry(r, l, Mark(Idle(n - 1), false));
      CarryConcat(r, l, Mark(Idle(n - 1), false), [x]);
      IdleStarts(c.0, c.1, Holds(q, IdleU(n - 1)));
      IdleJoins(q, n - 1);
    }
  }

  /** Any unit, from any unit boundary: exactly its own events, after those of
      what was pending. */
  lemma UnitHeard(r: Reader, l: bv16, q: Pending, u: Unit)
    requires Resting(r, l, q) && Legal(u)
    ensures var c := Carry(r, l, Print(u)); Resting(c.0, c.1, Holds(q, u)) && c.2 == Hears(q, u)
  {
    if ComLed(u) {
      ComLedHeard(r, l, u);
      ComFlushes(r, l, q);
    } else if u.IdleU? {
      assert Print(u) == Mark(Idle(u.n), false);
      IdleHeard(r, l, q, u.n);
    } else {
      PacketHeard(r, l, q, u);
    }
  }
}
