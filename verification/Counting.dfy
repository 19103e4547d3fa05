/** How many elements of a sequence have a property. */
module Counting {
  import opened Tally

  function Bits<X>(xs: seq<X>, f: X -> bool): (ws: seq<nat>)
    ensures |ws| == |xs|
  {
    seq<nat>(|xs|, i requires 0 <= i < |xs| => Bit(f(xs[i])))
  }

  /** How many elements have the property. */
  function Count<X>(xs: seq<X>, f: X -> bool): nat {
    Sum(Bits(xs, f))
  }

  lemma CountUpdate<X>(xs: seq<X>, i: nat, x: X, f: X -> bool)
    requires i < |xs|
    ensures Count(xs[i := x], f) + Bit(f(xs[i])) == Count(xs, f) + Bit(f(x))
  {
    assert Bits(xs[i := x], f) == Bits(xs, f)[i := Bit(f(x))];
    SumUpdate(Bits(xs, f), i, Bit(f(x)));
  }

  lemma CountSame<X>(xs: seq<X>, ys: seq<X>, f: X -> bool)
    requires |ys| == |xs| && forall i :: 0 <= i < |xs| ==> f(ys[i]) == f(xs[i])
    ensures Count(ys, f) == Count(xs, f)
  {
    assert Bits(ys, f) == Bits(xs, f);
  }

  lemma CountPositive<X>(xs: seq<X>, f: X -> bool)
    ensures Count(xs, f) > 0 <==> exists i :: 0 <= i < |xs| && f(xs[i])
  {
    SumZero(Bits(xs, f));
    if i :| 0 <= i < |xs| && f(xs[i]) {
      assert Bits(xs, f)[i] == 1;
    }
  }

  lemma CountCover<X>(xs: seq<X>, f: X -> bool, g: X -> bool, h: X -> bool)
    requires forall i :: 0 <= i < |xs| && f(xs[i]) ==> g(xs[i]) || h(xs[i])
    ensures Count(xs, f) <= Count(xs, g) + Count(xs, h)
  {
    SumCover(Bits(xs, f), Bits(xs, g), Bits(xs, h));
  }
}
