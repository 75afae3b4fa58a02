/** The algebra of a CRC register, for every width and polynomial: the register
    is written most significant bit first here. */
module CrcTheory {
  import opened Bits

  /** One serial step: the input bit meets the top bit, the register shifts up,
      and the polynomial is added when they differ. */
  function Step(poly: Bits, c: Bits, x: bool): (r: Bits)
    requires |poly| == |c| > 0
    ensures |r| == |c|
  {
    var s := c[1..] + [false];
    if x != c[0] then Xor(s, poly) else s
  }

  function Feed(poly: Bits, c: Bits, xs: Bits): (r: Bits)
    requires |poly| == |c| > 0
    ensures |r| == |c|
    decreases |xs|
  {
    if xs == [] then c else Feed(poly, Step(poly, c, xs[0]), xs[1..])
  }

  lemma {:induction false} FeedConcat(poly: Bits, c: Bits, xs: Bits, ys: Bits)
    requires |poly| == |c| > 0
    ensures Feed(poly, c, xs + ys) == Feed(poly, Feed(poly, c, xs), ys)
    decreases |xs|
  {
    if xs == [] {
      assert xs + ys == ys;
    } else {
      assert (xs + ys)[1..] == xs[1..] + ys;
      FeedConcat(poly, Step(poly, c, xs[0]), xs[1..], ys);
    }
  }

  lemma StepLinear(poly: Bits, c: Bits, d: Bits, x: bool, y: bool)
    requires |poly| == |c| == |d| > 0
    ensures Step(poly, Xor(c, d), x != y) == Xor(Step(poly, c, x), Step(poly, d, y))
  {
  }

  /** The register is linear in its start and its input together. */
  lemma {:induction false} FeedLinear(poly: Bits, c: Bits, d: Bits, xs: Bits, ys: Bits)
    requires |poly| == |c| == |d| > 0 && |xs| == |ys|
    ensures Feed(poly, Xor(c, d), Xor(xs, ys)) == Xor(Feed(poly, c, xs), Feed(poly, d, ys))
    decreases |xs|
  {
    if xs == [] {
      assert Xor(xs, ys) == [];
    } else {
      StepLinear(poly, c, d, xs[0], ys[0]);
      assert Xor(xs, ys)[1..] == Xor(xs[1..], ys[1..]);
      FeedLinear(poly, Step(poly, c, xs[0]), Step(poly, d, ys[0]), xs[1..], ys[1..]);
    }
  }

  lemma {:induction false} FeedZeros(poly: Bits, n: nat)
    requires |poly| > 0
    ensures Feed(poly, Zeros(|poly|), Zeros(n)) == Zeros(|poly|)
  {
    if n > 0 {
      assert Step(poly, Zeros(|poly|), false) == Zeros(|poly|);
      assert Zeros(n)[1..] == Zeros(n - 1);
      FeedZeros(poly, n - 1);
    }
  }

  /** A step that ends in a clear low bit added no polynomial. */
  lemma StepBack(poly: Bits, c: Bits, x: bool)
    requires |poly| == |c| > 0 && poly[|poly| - 1] && !Step(poly, c, x)[|c| - 1]
    ensures x == c[0] && Step(poly, c, x) == c[1..] + [false]
  {
  }

  /** Running backwards from zero: at most `w` input bits can only have come from
      the register that starts with them. */
  lemma {:induction false} BackFromZero(poly: Bits, c: Bits, xs: Bits)
    requires |poly| == |c| > 0 && poly[|poly| - 1] && |xs| <= |c|
    requires Feed(poly, c, xs) == Zeros(|c|)
    ensures c == xs + Zeros(|c| - |xs|)
    decreases |xs|
  {
    var w := |c|;
    if xs == [] {
      assert c == [] + Zeros(w);
    } else {
      var s := Step(poly, c, xs[0]);
      BackFromZero(poly, s, xs[1..]);
      assert !s[w - 1];
      StepBack(poly, c, xs[0]);
      Unshift(c, xs, w - |xs|);
    }
  }

  lemma Unshift(c: Bits, xs: Bits, k: nat)
    requires xs != [] && |c| == |xs| + k && c[0] == xs[0]
    requires c[1..] + [false] == xs[1..] + Zeros(k + 1)
    ensures c == xs + Zeros(k)
  {
    forall i | 1 <= i < |c| ensures c[i] == (xs + Zeros(k))[i] {
      assert c[i] == (c[1..] + [false])[i - 1] == (xs[1..] + Zeros(k + 1))[i - 1];
    }
  }

  /** Zero input never hides a nonzero register. */
  lemma {:induction false} ZeroInputInjective(poly: Bits, c: Bits, n: nat)
    requires |poly| == |c| > 0 && poly[|poly| - 1]
    requires Feed(poly, c, Zeros(n)) == Zeros(|c|)
    ensures c == Zeros(|c|)
    decreases n
  {
    if n > 0 {
      assert Zeros(n)[1..] == Zeros(n - 1);
      var s := Step(poly, c, false);
      ZeroInputInjective(poly, s, n - 1);
      assert Feed(poly, c, [false]) == s by { assert [false][1..] == []; }
      BackFromZero(poly, c, [false]);
      assert c == [false] + Zeros(|c| - 1) == Zeros(|c|);
    }
  }

  /** No error pattern whose ones lie within `w` consecutive bits leaves the
      register of a zero start at zero. */
  lemma BurstLeavesTrace(poly: Bits, before: nat, burst: Bits, after: nat)
    requires |poly| > 0 && poly[|poly| - 1] && |burst| <= |poly|
    requires Feed(poly, Zeros(|poly|), Zeros(before) + burst + Zeros(after)) == Zeros(|poly|)
    ensures burst == Zeros(|burst|)
  {
    var z := Zeros(|poly|);
    FeedConcat(poly, z, Zeros(before) + burst, Zeros(after));
    FeedConcat(poly, z, Zeros(before), burst);
    FeedZeros(poly, before);
    var c := Feed(poly, z, burst);
    ZeroInputInjective(poly, c, after);
    BackFromZero(poly, z, burst);
    assert forall i | 0 <= i < |burst| :: burst[i] == z[i];
  }

  // ------------------------------------------------------- the check field

  lemma XorNothing(a: Bits)
    ensures Xor(a, Zeros(|a|)) == a
  {
  }

  lemma XorZero(a: Bits, b: Bits)
    requires |a| == |b|
    ensures Xor(a, b) == Zeros(|a|) <==> a == b
  {
    if Xor(a, b) == Zeros(|a|) {
      forall i | 0 <= i < |a| ensures a[i] == b[i] {
        assert Xor(a, b)[i] == Zeros(|a|)[i];
      }
    }
  }

  lemma XorOnes(field: Bits, c: Bits)
    requires |field| == |c|
    ensures Xor(field, Ones(|c|)) == c <==> field == Not(c)
  {
    if Xor(field, Ones(|c|)) == c {
      forall i | 0 <= i < |c| ensures field[i] == !c[i] {
        assert Xor(field, Ones(|c|))[i] == c[i];
      }
    }
  }

  /** Feeding a register its own complement leaves the same residue whatever it
      holds, and nothing else of that length does. */
  lemma ResidueExact(poly: Bits, c: Bits, field: Bits)
    requires |poly| == |c| == |field| > 0 && poly[|poly| - 1]
    ensures Feed(poly, c, field) == Feed(poly, Zeros(|c|), Ones(|c|)) <==> field == Not(c)
  {
    var w := |c|;
    var z := Zeros(w);
    var diff := Xor(field, Ones(w));
    FeedLinear(poly, c, z, field, Ones(w));
    XorNothing(c);
    XorZero(Feed(poly, c, field), Feed(poly, z, Ones(w)));
    XorOnes(field, c);
    OwnBits(poly, c);
    if Feed(poly, c, diff) == z {
      BackFromZero(poly, c, diff);
      assert diff + Zeros(0) == diff;
    }
  }

  /** Feeding a register its own leading bits, when nothing follows them,
      empties it. */
  lemma {:induction false} OwnPrefix(poly: Bits, xs: Bits)
    requires |xs| <= |poly| && |poly| > 0
    ensures Feed(poly, xs + Zeros(|poly| - |xs|), xs) == Zeros(|poly|)
    decreases |xs|
  {
    var w := |poly|;
    if xs == [] {
      assert xs + Zeros(w) == Zeros(w);
    } else {
      var r := xs + Zeros(w - |xs|);
      assert Step(poly, r, xs[0]) == xs[1..] + Zeros(w - |xs[1..]|);
      OwnPrefix(poly, xs[1..]);
    }
  }

  lemma OwnBits(poly: Bits, c: Bits)
    requires |poly| == |c| > 0
    ensures Feed(poly, c, c) == Zeros(|c|)
  {
    OwnPrefix(poly, c);
    assert c + Zeros(0) == c;
  }

  /** Up to `w` input bits may as well be added to the register beforehand and
      the register run on zeros. */
  lemma InputFirst(poly: Bits, c: Bits, xs: Bits)
    requires |poly| == |c| > 0 && |xs| <= |c|
    ensures Feed(poly, c, xs) == Feed(poly, Xor(c, xs + Zeros(|c| - |xs|)), Zeros(|xs|))
  {
    var d := xs + Zeros(|c| - |xs|);
    FeedLinear(poly, c, d, xs, xs);
    OwnPrefix(poly, xs);
    XorZero(xs, xs);
    XorNothing(Feed(poly, c, xs));
  }

  /** The polynomial itself, its leading one included, vanishes. */
  lemma PolyVanishes(poly: Bits, after: nat)
    requires |poly| > 0
    ensures Feed(poly, Zeros(|poly|), [true] + poly + Zeros(after)) == Zeros(|poly|)
  {
    var z := Zeros(|poly|);
    FeedConcat(poly, z, [true] + poly, Zeros(after));
    FeedConcat(poly, z, [true], poly);
    assert [true][1..] == [];
    assert Step(poly, z, true) == poly;
    OwnBits(poly, poly);
    FeedZeros(poly, after);
  }

  /** An error that leaves a zero register at zero is seen from no start. */
  lemma InvisibleError(poly: Bits, c: Bits, xs: Bits, e: Bits)
    requires |poly| == |c| > 0 && |xs| == |e| && Feed(poly, Zeros(|c|), e) == Zeros(|c|)
    ensures Feed(poly, c, Xor(xs, e)) == Feed(poly, c, xs)
  {
    FeedLinear(poly, c, Zeros(|c|), xs, e);
    XorNothing(c);
    XorNothing(Feed(poly, c, xs));
  }
}
