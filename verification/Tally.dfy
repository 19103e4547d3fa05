/** Sums over the threads of a step machine: when a step changes what one thread
    contributes, the total changes by exactly that much. */
module Tally {
  function Bit(b: bool): nat {
    if b then 1 else 0
  }

  function Sum(ws: seq<nat>): nat {
    if ws == [] then 0 else ws[0] + Sum(ws[1..])
  }

  lemma {:induction false} SumUpdate(ws: seq<nat>, i: nat, v: nat)
    requires i < |ws|
    ensures Sum(ws[i := v]) + ws[i] == Sum(ws) + v
  {
    if i == 0 {
      assert ws[i := v][1..] == ws[1..];
    } else {
      assert ws[i := v][1..] == ws[1..][i - 1 := v];
      SumUpdate(ws[1..], i - 1, v);
    }
  }

  lemma {:induction false} SumZero(ws: seq<nat>)
    ensures Sum(ws) == 0 <==> forall i :: 0 <= i < |ws| ==> ws[i] == 0
  {
    if ws != [] {
      SumZero(ws[1..]);
      assert forall i :: 0 < i < |ws| ==> ws[i] == ws[1..][i - 1];
      assert forall i :: 0 <= i < |ws[1..]| ==> ws[1..][i] == ws[i + 1];
    }
  }

  lemma {:induction false} SumBound(ws: seq<nat>, vs: seq<nat>)
    requires |ws| == |vs| && forall i :: 0 <= i < |ws| ==> ws[i] <= vs[i]
    ensures Sum(ws) <= Sum(vs)
  {
    if ws != [] {
      SumBound(ws[1..], vs[1..]);
    }
  }

  /** Three parts that fit into a whole in every place fit into it in the sum. */
  lemma {:induction false} SumParts(xs: seq<nat>, ys: seq<nat>, zs: seq<nat>, ws: seq<nat>)
    requires |xs| == |ys| == |zs| == |ws|
    requires forall i :: 0 <= i < |ws| ==> xs[i] + ys[i] + zs[i] <= ws[i]
    ensures Sum(xs) + Sum(ys) + Sum(zs) <= Sum(ws)
  {
    if ws != [] {
      SumParts(xs[1..], ys[1..], zs[1..], ws[1..]);
    }
  }

  /** What two parts cover in every place they cover in the sum. */
  lemma {:induction false} SumCover(ws: seq<nat>, xs: seq<nat>, ys: seq<nat>)
    requires |xs| == |ys| == |ws|
    requires forall i :: 0 <= i < |ws| ==> ws[i] <= xs[i] + ys[i]
    ensures Sum(ws) <= Sum(xs) + Sum(ys)
  {
    if ws != [] {
      SumCover(ws[1..], xs[1..], ys[1..]);
    }
  }
}
