/** The 2.5 GT/s scrambler (tb/lr1/lr1_scrambler.py) and the closed form it must
    equal (tb/phy_receive/rx_golden.py). */
module Scrambler {
  import opened Common
  import opened Symbols

  const SEED: bv16 := 0xFFFF

  // ---------------------------------------------------------------- serial

  predicate Top(l: bv16) { l & 0x8000 != 0 }

  /** One serial shift: the top bit feeds back into bits 0, 3, 4 and 5. */
  function Shift(l: bv16): bv16 { (l << 1) ^ (if Top(l) then 0x0039 else 0) }

  function Shifts(l: bv16, n: nat): bv16 { if n == 0 then l else Shift(Shifts(l, n - 1)) }

  /** The weight of data bit `i`. */
  function Bit(i: nat): Byte
    requires i < 8
  {
    if i == 0 then 0x01 else if i == 1 then 0x02 else if i == 2 then 0x04 else if i == 3 then 0x08
    else if i == 4 then 0x10 else if i == 5 then 0x20 else if i == 6 then 0x40 else 0x80
  }

  /** The mask collected in `n` shifts: the top bit of each meets one data bit. */
  function Mask(l: bv16, n: nat): Byte
    requires n <= 8
  {
    if n == 0 then 0
    else Mask(l, n - 1) | (if Top(Shifts(l, n - 1)) then Bit(n - 1) else 0)
  }

  method LfsrByte(lfsr: bv16) returns (mask: Byte, l: bv16)
    ensures mask == Mask(lfsr, 8) && l == Shifts(lfsr, 8)
  {
    l, mask := lfsr, 0;
    for i := 0 to 8
      invariant mask == Mask(lfsr, i) && l == Shifts(lfsr, i)
    {
      mask := mask | (if Top(l) then Bit(i) else 0);
      l := Shift(l);
    }
  }

  // ----------------------------------------------------------- closed form

  /** One Symbol time, bit by bit. */
  function Advance(l: bv16): bv16 {
    ((l >> 8) & 1) | (((l >> 9) & 1) << 1) | (((l >> 10) & 1) << 2) |
    ((((l >> 11) ^ (l >> 8)) & 1) << 3) |
    ((((l >> 12) ^ (l >> 9) ^ (l >> 8)) & 1) << 4) |
    ((((l >> 13) ^ (l >> 10) ^ (l >> 9) ^ (l >> 8)) & 1) << 5) |
    ((((l >> 14) ^ (l >> 11) ^ (l >> 10) ^ (l >> 9)) & 1) << 6) |
    ((((l >> 15) ^ (l >> 12) ^ (l >> 11) ^ (l >> 10)) & 1) << 7) |
    (((l ^ (l >> 13) ^ (l >> 12) ^ (l >> 11)) & 1) << 8) |
    ((((l >> 1) ^ (l >> 14) ^ (l >> 13) ^ (l >> 12)) & 1) << 9) |
    ((((l >> 2) ^ (l >> 15) ^ (l >> 14) ^ (l >> 13)) & 1) << 10) |
    ((((l >> 3) ^ (l >> 15) ^ (l >> 14)) & 1) << 11) |
    ((((l >> 4) ^ (l >> 15)) & 1) << 12) |
    (((l >> 5) & 1) << 13) | (((l >> 6) & 1) << 14) | (((l >> 7) & 1) << 15)
  }

  /** Data bit i meets LFSR bit 15 - i. */
  function XorMask(l: bv16): Byte {
    (((l >> 15) & 1) as Byte) | ((((l >> 14) & 1) as Byte) << 1) |
    ((((l >> 13) & 1) as Byte) << 2) | ((((l >> 12) & 1) as Byte) << 3) |
    ((((l >> 11) & 1) as Byte) << 4) | ((((l >> 10) & 1) as Byte) << 5) |
    ((((l >> 9) & 1) as Byte) << 6) | ((((l >> 8) & 1) as Byte) << 7)
  }

  /** A register shifted up by n, with the n bits that fell out fed back. */
  function Word(low: bv16, out: bv16): bv16 { low ^ out ^ (out << 3) ^ (out << 4) ^ (out << 5) }

  lemma FirstShift(l: bv16)
    ensures Shift(l) == Word(l << 1, l >> 15)
  {
    if Top(l) { assert l >> 15 == 1; } else { assert l >> 15 == 0; }
  }

  // No fed-back bit reaches the top within eight shifts: one lemma a shift.

  lemma SecondShift(l: bv16)
    ensures Shift(Word(l << 1, l >> 15)) == Word(l << 2, l >> 14) && Top(Word(l << 1, l >> 15)) == (l & 0x4000 != 0)
  {
  }

  lemma ThirdShift(l: bv16)
    ensures Shift(Word(l << 2, l >> 14)) == Word(l << 3, l >> 13) && Top(Word(l << 2, l >> 14)) == (l & 0x2000 != 0)
  {
  }

  lemma FourthShift(l: bv16)
    ensures Shift(Word(l << 3, l >> 13)) == Word(l << 4, l >> 12) && Top(Word(l << 3, l >> 13)) == (l & 0x1000 != 0)
  {
  }

  lemma FifthShift(l: bv16)
    ensures Shift(Word(l << 4, l >> 12)) == Word(l << 5, l >> 11) && Top(Word(l << 4, l >> 12)) == (l & 0x0800 != 0)
  {
  }

  lemma SixthShift(l: bv16)
    ensures Shift(Word(l << 5, l >> 11)) == Word(l << 6, l >> 10) && Top(Word(l << 5, l >> 11)) == (l & 0x0400 != 0)
  {
  }

  lemma SeventhShift(l: bv16)
    ensures Shift(Word(l << 6, l >> 10)) == Word(l << 7, l >> 9) && Top(Word(l << 6, l >> 10)) == (l & 0x0200 != 0)
  {
  }

  lemma EighthShift(l: bv16)
    ensures Shift(Word(l << 7, l >> 9)) == Word(l << 8, l >> 8) && Top(Word(l << 7, l >> 9)) == (l & 0x0100 != 0)
  {
  }

  lemma EighthIsAdvance(l: bv16)
    ensures Word(l << 8, l >> 8) == Advance(l)
  {
  }

  lemma MaskBits(l: bv16)
    ensures XorMask(l) ==
      (if l & 0x8000 != 0 then 0x01 else 0) | (if l & 0x4000 != 0 then 0x02 else 0) |
      (if l & 0x2000 != 0 then 0x04 else 0) | (if l & 0x1000 != 0 then 0x08 else 0) |
      (if l & 0x0800 != 0 then 0x10 else 0) | (if l & 0x0400 != 0 then 0x20 else 0) |
      (if l & 0x0200 != 0 then 0x40 else 0) | (if l & 0x0100 != 0 then 0x80 else 0)
  {
  }

  /** The register after each shift, and its top bit before the next one. */
  lemma ShiftsInFull(l: bv16)
    ensures Shifts(l, 8) == Word(l << 8, l >> 8)
    ensures Top(Shifts(l, 0)) == (l & 0x8000 != 0)
    ensures Top(Shifts(l, 1)) == (l & 0x4000 != 0)
    ensures Top(Shifts(l, 2)) == (l & 0x2000 != 0)
    ensures Top(Shifts(l, 3)) == (l & 0x1000 != 0)
    ensures Top(Shifts(l, 4)) == (l & 0x0800 != 0)
    ensures Top(Shifts(l, 5)) == (l & 0x0400 != 0)
    ensures Top(Shifts(l, 6)) == (l & 0x0200 != 0)
    ensures Top(Shifts(l, 7)) == (l & 0x0100 != 0)
  {
    FirstShift(l);
    assert Shifts(l, 1) == Shift(Shifts(l, 0));
    SecondShift(l);
    assert Shifts(l, 2) == Shift(Shifts(l, 1));
    ThirdShift(l);
    assert Shifts(l, 3) == Shift(Shifts(l, 2));
    FourthShift(l);
    assert Shifts(l, 4) == Shift(Shifts(l, 3));
    FifthShift(l);
    assert Shifts(l, 5) == Shift(Shifts(l, 4));
    SixthShift(l);
    assert Shifts(l, 6) == Shift(Shifts(l, 5));
    SeventhShift(l);
    assert Shifts(l, 7) == Shift(Shifts(l, 6));
    EighthShift(l);
    assert Shifts(l, 8) == Shift(Shifts(l, 7));
  }

  lemma MaskInFull(l: bv16)
    ensures Mask(l, 8) ==
      (if l & 0x8000 != 0 then 0x01 else 0) | (if l & 0x4000 != 0 then 0x02 else 0) |
      (if l & 0x2000 != 0 then 0x04 else 0) | (if l & 0x1000 != 0 then 0x08 else 0) |
      (if l & 0x0800 != 0 then 0x10 else 0) | (if l & 0x0400 != 0 then 0x20 else 0) |
      (if l & 0x0200 != 0 then 0x40 else 0) | (if l & 0x0100 != 0 then 0x80 else 0)
  {
    ShiftsInFull(l);
    MaskOne(l);
    assert Mask(l, 2) == Mask(l, 1) | (if l & 0x4000 != 0 then 0x02 else 0);
    assert Mask(l, 3) == Mask(l, 2) | (if l & 0x2000 != 0 then 0x04 else 0);
    assert Mask(l, 4) == Mask(l, 3) | (if l & 0x1000 != 0 then 0x08 else 0);
    assert Mask(l, 5) == Mask(l, 4) | (if l & 0x0800 != 0 then 0x10 else 0);
    assert Mask(l, 6) == Mask(l, 5) | (if l & 0x0400 != 0 then 0x20 else 0);
    assert Mask(l, 7) == Mask(l, 6) | (if l & 0x0200 != 0 then 0x40 else 0);
    assert Mask(l, 8) == Mask(l, 7) | (if l & 0x0100 != 0 then 0x80 else 0);
  }

  lemma MaskOne(l: bv16)
    ensures Mask(l, 1) == if l & 0x8000 != 0 then 0x01 else 0
  {
    assert Mask(l, 0) == 0 && Shifts(l, 0) == l;
  }

  /** Eight serial shifts are one closed-form step, for every register. */
  lemma SerialIsClosed(l: bv16)
    ensures Shifts(l, 8) == Advance(l) && Mask(l, 8) == XorMask(l)
  {
    ShiftsInFull(l);
    EighthIsAdvance(l);
    MaskInFull(l);
    MaskBits(l);
  }

  // ---------------------------------------------------------- Symbol rules

  /** Scrambler.symbol: COM resets the register, SKP leaves it alone, everything
      else advances it; only data outside training sets is changed. */
  function Step(l: bv16, s: Sym, inTs: bool): (Byte, bv16) {
    if s == K(COM) then (s.b, SEED)
    else if s == K(SKP) then (s.b, l)
    else (if s.k || inTs then s.b else s.b ^ Mask(l, 8), Shifts(l, 8))
  }

  /** Descrambler.symbol of the golden model. */
  function GoldenStep(l: bv16, s: Sym, inTs: bool): (Byte, bv16) {
    if s.k && s.b == COM then (s.b, SEED)
    else if s.k && s.b == SKP then (s.b, l)
    else (if !s.k && !inTs then s.b ^ XorMask(l) else s.b, Advance(l))
  }

  /** A Symbol to send, and whether it lies in a training set. */
  datatype Tx = Tx(s: Sym, inTs: bool)

  function Run(l: bv16, xs: seq<Tx>): (seq<Byte>, bv16)
    decreases |xs|
  {
    if xs == [] then ([], l)
    else
      var (out, m) := Run(l, xs[..|xs| - 1]);
      var (b, m1) := Step(m, xs[|xs| - 1].s, xs[|xs| - 1].inTs);
      (out + [b], m1)
  }

  function GoldenRun(l: bv16, xs: seq<Tx>): (seq<Byte>, bv16)
    decreases |xs|
  {
    if xs == [] then ([], l)
    else
      var (out, m) := GoldenRun(l, xs[..|xs| - 1]);
      var (b, m1) := GoldenStep(m, xs[|xs| - 1].s, xs[|xs| - 1].inTs);
      (out + [b], m1)
  }

  /** The far end's scrambler and the golden descrambler give the same output and
      end in the same register on every Symbol stream. */
  lemma {:induction false} SameStreams(l: bv16, xs: seq<Tx>)
    ensures Run(l, xs) == GoldenRun(l, xs)
    decreases |xs|
  {
    if xs == [] {
    } else {
      SameStreams(l, xs[..|xs| - 1]);
      SameStep(Run(l, xs[..|xs| - 1]).1, xs[|xs| - 1]);
    }
  }

  lemma SameStep(l: bv16, x: Tx)
    ensures Step(l, x.s, x.inTs) == GoldenStep(l, x.s, x.inTs)
  {
    SerialIsClosed(l);
  }

  /** The stream as it comes out: the same K flags and training-set marks. */
  function Scrambled(l: bv16, xs: seq<Tx>): (r: seq<Tx>)
    ensures |r| == |xs|
    decreases |xs|
  {
    if xs == [] then []
    else
      var last := xs[|xs| - 1];
      var b := Step(Run(l, xs[..|xs| - 1]).1, last.s, last.inTs).0;
      Scrambled(l, xs[..|xs| - 1]) + [Tx(Sym(b, last.s.k), last.inTs)]
  }

  lemma UndoesStep(l: bv16, s: Sym, inTs: bool)
    ensures var (b, m) := Step(l, s, inTs); Step(l, Sym(b, s.k), inTs) == (s.b, m)
  {
    var mask := Mask(l, 8);
    assert (s.b ^ mask) ^ mask == s.b;
  }

  function Bytes(xs: seq<Tx>): seq<Byte> { seq(|xs|, i requires 0 <= i < |xs| => xs[i].s.b) }

  lemma BytesMore(xs: seq<Tx>)
    requires xs != []
    ensures Bytes(xs) == Bytes(xs[..|xs| - 1]) + [xs[|xs| - 1].s.b]
  {
  }

  /** Descrambling a scrambled stream with the same marks restores every byte and
      leaves the two registers equal. */
  lemma {:induction false} Undoes(l: bv16, xs: seq<Tx>)
    ensures Run(l, Scrambled(l, xs)) == (Bytes(xs), Run(l, xs).1)
    decreases |xs|
  {
    if xs == [] {
      assert Bytes(xs) == [];
    } else {
      var init, last := xs[..|xs| - 1], xs[|xs| - 1];
      Undoes(l, init);
      UndoesStep(Run(l, init).1, last.s, last.inTs);
      BytesMore(xs);
      assert Scrambled(l, xs)[..|xs| - 1] == Scrambled(l, init);
    }
  }

  // --------------------------------------------------------------- objects

  class Lfsr {
    var lfsr: bv16

    constructor ()
      ensures lfsr == SEED
    {
      lfsr := SEED;
    }

    method Symbol(s: Sym, inTs: bool) returns (out: Byte)
      modifies this
      ensures (out, lfsr) == Step(old(lfsr), s, inTs)
    {
      if s.k && s.b == COM {
        lfsr := SEED;
        return s.b;
      }
      if s.k && s.b == SKP { return s.b; }
      var mask, next := LfsrByte(lfsr);
      out := if s.k || inTs then s.b else s.b ^ mask;
      lfsr := next;
    }
  }

  /** The receive side finds training sets itself. */
  datatype Rx = Rx(lfsr: bv16, afterCom: bool, tsLeft: nat)

  /** The training-set mark the receiver gives a Symbol. */
  predicate InTs(r: Rx, s: Sym) {
    s != K(COM) && (if r.afterCom && (!s.k || s.b == PAD) then true else r.tsLeft > 0)
  }

  function FeedRx(r: Rx, s: Sym): (Byte, Rx) {
    if s == K(COM) then (s.b, Rx(SEED, true, 0))
    else
      var left := if r.afterCom && (!s.k || s.b == PAD) then TS_LEN - 1 else r.tsLeft;
      var (b, l) := Step(r.lfsr, s, InTs(r, s));
      (b, Rx(l, false, if left > 0 then left - 1 else left))
  }

  class RxDescrambler {
    const core: Lfsr
    var afterCom: bool
    var tsLeft: nat

    ghost function State(): Rx
      reads this, core
    {
      Rx(core.lfsr, afterCom, tsLeft)
    }

    constructor ()
      ensures State() == Rx(SEED, false, 0) && fresh(core)
    {
      core := new Lfsr();
      afterCom, tsLeft := false, 0;
    }

    method Feed(s: Sym) returns (plain: Byte, inTs: bool)
      modifies this, core
      ensures inTs == InTs(old(State()), s) && (plain, State()) == FeedRx(old(State()), s)
    {
      if s.k && s.b == COM {
        afterCom := true;
        tsLeft := 0;
        plain := core.Symbol(s, false);
        return plain, false;
      }
      if afterCom {
        afterCom := false;
        if !s.k || s.b == PAD { tsLeft := TS_LEN - 1; }
      }
      inTs := tsLeft > 0;
      if inTs { tsLeft := tsLeft - 1; }
      plain := core.Symbol(s, inTs);
    }
  }
}
