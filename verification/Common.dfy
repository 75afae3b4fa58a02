/** Values shared by every layer of the model. */
module Common {

  /** None stands for Python's None. */
  datatype Option<+T> = None | Some(value: T)

  /** The three flow-control types (lr1_consts.FC_TYPES, in this order). */
  datatype FcType = P | NP | CPL

  /** A byte on the wire. */
  type Byte = bv8

  /** Data credits of one TLP: at most 4096 bytes of payload, 16 bytes a credit. */
  type Units = x: int | 0 <= x <= 256

  lemma Associates<T>(x: seq<T>, y: seq<T>, z: seq<T>)
    ensures (x + y) + z == x + (y + z)
  {
  }

  /** A machine run over a list of inputs: its last state and all it put out. */
  function Fold<S, X, Y>(f: (S, X) -> (S, seq<Y>), s: S, xs: seq<X>): (S, seq<Y>)
    decreases |xs|
  {
    if xs == [] then (s, [])
    else
      var (s1, ys) := Fold(f, s, xs[..|xs| - 1]);
      var (s2, more) := f(s1, xs[|xs| - 1]);
      (s2, ys + more)
  }

  lemma {:induction false} FoldConcat<S, X, Y>(f: (S, X) -> (S, seq<Y>), s: S, xs: seq<X>, zs: seq<X>)
    ensures var a := Fold(f, s, xs); var b := Fold(f, a.0, zs); Fold(f, s, xs + zs) == (b.0, a.1 + b.1)
    decreases |zs|
  {
    if zs == [] {
      assert xs + zs == xs;
      assert Fold(f, s, xs).1 + [] == Fold(f, s, xs).1;
    } else {
      var init := zs[..|zs| - 1];
      assert (xs + zs)[..|xs + zs| - 1] == xs + init;
      FoldConcat(f, s, xs, init);
      var a := Fold(f, s, xs);
      var b := Fold(f, a.0, init);
      var last := f(b.0, zs[|zs| - 1]);
      assert (a.1 + b.1) + last.1 == a.1 + (b.1 + last.1);
    }
  }

  /** Two beginnings that leave the same state, the second without output, differ
      in what the first puts out and in nothing later. */
  lemma FoldForgets<S, X, Y>(f: (S, X) -> (S, seq<Y>), s: S, xs: seq<X>, zs: seq<X>, later: seq<X>)
    requires Fold(f, s, xs).0 == Fold(f, s, zs).0 && Fold(f, s, zs).1 == []
    ensures Fold(f, s, xs + later).1 == Fold(f, s, xs).1 + Fold(f, s, zs + later).1
  {
    FoldConcat(f, s, xs, later);
    FoldConcat(f, s, zs, later);
    var a := Fold(f, Fold(f, s, xs).0, later).1;
    assert [] + a == a;
  }

  lemma FoldOne<S, X, Y>(f: (S, X) -> (S, seq<Y>), s: S, x: X)
    ensures Fold(f, s, [x]) == f(s, x)
  {
    assert [x][..0] == [];
    assert [] + f(s, x).1 == f(s, x).1;
  }

  function FlatMap<X, Y>(f: X -> seq<Y>, xs: seq<X>): seq<Y>
    decreases |xs|
  {
    if xs == [] then [] else FlatMap(f, xs[..|xs| - 1]) + f(xs[|xs| - 1])
  }

  lemma {:induction false} FlatMapConcat<X, Y>(f: X -> seq<Y>, xs: seq<X>, zs: seq<X>)
    ensures FlatMap(f, xs + zs) == FlatMap(f, xs) + FlatMap(f, zs)
    decreases |zs|
  {
    if zs == [] {
      assert xs + zs == xs;
      assert FlatMap(f, xs) + [] == FlatMap(f, xs);
    } else {
      var init, last := zs[..|zs| - 1], f(zs[|zs| - 1]);
      assert (xs + zs)[..|xs + zs| - 1] == xs + init;
      FlatMapConcat(f, xs, init);
      assert (FlatMap(f, xs) + FlatMap(f, init)) + last == FlatMap(f, xs) + (FlatMap(f, init) + last);
    }
  }

  lemma FlatMapOne<X, Y>(f: X -> seq<Y>, x: X)
    ensures FlatMap(f, [x]) == f(x)
  {
    assert [x][..0] == [];
    assert [] + f(x) == f(x);
  }
}
