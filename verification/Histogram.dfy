/** The histogram of the metrics: cumulative buckets under any number of concurrent observers, one
    atomic access a step. */
module Histograms {
  import opened Counting

  /** What an observer does next: the bucket with index `next` for the value, the last one being +Inf, and
      after that the sum and the count. */
  datatype Observer = Idle | Buckets(value: real, next: nat) | AddSum(value: real) | AddCount(value: real)

  /** `finished` records the values of the observations that came to their end; the code does not. */
  datatype State = State(bounds: seq<real>, counts: seq<nat>, count: nat, observers: seq<Observer>, finished: seq<real>)

  datatype Move = Observe(value: real) | Advance

  predicate Sorted(bounds: seq<real>) {
    forall i, j :: 0 <= i < j < |bounds| ==> bounds[i] <= bounds[j]
  }

  function Insert(x: real, s: seq<real>): (r: seq<real>)
    requires Sorted(s)
    ensures Sorted(r) && multiset(r) == multiset(s) + multiset{x}
  {
    if s == [] || x <= s[0] then [x] + s
    else
      var rest := Insert(x, s[1..]);
      LeastFirst(x, s, rest);
      [s[0]] + rest
  }

  lemma LeastFirst(x: real, s: seq<real>, rest: seq<real>)
    requires s != [] && Sorted(s) && s[0] < x && Sorted(rest) && multiset(rest) == multiset(s[1..]) + multiset{x}
    ensures Sorted([s[0]] + rest) && multiset([s[0]] + rest) == multiset(s) + multiset{x}
  {
    assert s == [s[0]] + s[1..];
    forall k | 0 <= k < |rest|
      ensures s[0] <= rest[k]
    {
      assert rest[k] in multiset(rest);
      assert rest[k] == x || rest[k] in s[1..];
    }
  }

  /** std::sort: the values in order. */
  function Sort(s: seq<real>): (r: seq<real>)
    ensures Sorted(r) && multiset(r) == multiset(s)
  {
    if s == [] then []
    else
      assert s == [s[0]] + s[1..];
      Insert(s[0], Sort(s[1..]))
  }

  function Init(bounds: seq<real>, observers: nat): State {
    State(Sort(bounds), seq(|Sort(bounds)| + 1, _ => 0), 0, seq(observers, _ => Idle), [])
  }

  predicate WellFormed(s: State) {
    |s.counts| == |s.bounds| + 1 && Sorted(s.bounds)
  }

  function Become(s: State, t: nat, o: Observer): State
    requires t < |s.observers|
  {
    s.(observers := s.observers[t := o])
  }

  /** One step of observer `t`. */
  function Step(s: State, t: nat, mv: Move): (s': State)
    requires WellFormed(s)
    ensures WellFormed(s')
  {
    if t >= |s.observers| then s
    else
      match mv
      case Observe(value) => if s.observers[t].Idle? then Become(s, t, Buckets(value, 0)) else s
      case Advance =>
        match s.observers[t]
        case Idle => s
        case Buckets(value, i) =>
          if i < |s.bounds| then
            Become(s, t, Buckets(value, i + 1)).(
              counts := if value <= s.bounds[i] then s.counts[i := s.counts[i] + 1] else s.counts)
          else Become(s, t, AddSum(value)).(counts := s.counts[|s.bounds| := s.counts[|s.bounds|] + 1])
        case AddSum(value) => Become(s, t, AddCount(value))
        case AddCount(value) => Become(s, t, Idle).(count := s.count + 1, finished := s.finished + [value])
  }

  function Run(s: State, moves: seq<(nat, Move)>): (s': State)
    requires WellFormed(s)
    ensures WellFormed(s')
  {
    if moves == [] then s
    else
      var last := |moves| - 1;
      Step(Run(s, moves[..last]), moves[last].0, moves[last].1)
  }

  // ---------------------------------------------------------------- the invariant

  /** Bucket `i` is one that counts the value; the last one counts every value. */
  predicate Within(bounds: seq<real>, i: nat, value: real) {
    i < |bounds| ==> value <= bounds[i]
  }

  /** How many of the values belong into bucket `i`. */
  function Below(values: seq<real>, bounds: seq<real>, i: nat): (n: nat)
    ensures n <= |values|
  {
    if values == [] then 0
    else Below(values[..|values| - 1], bounds, i) + if Within(bounds, i, values[|values| - 1]) then 1 else 0
  }

  /** An observation under way that bucket `i` counts already. */
  predicate Passed(bounds: seq<real>, i: nat, o: Observer) {
    match o
    case Idle => false
    case Buckets(value, next) => i < next && Within(bounds, i, value)
    case AddSum(value) => Within(bounds, i, value)
    case AddCount(value) => Within(bounds, i, value)
  }

  predicate Busy(o: Observer) {
    !o.Idle?
  }

  function Passing(bounds: seq<real>, i: nat): Observer -> bool {
    o => Passed(bounds, i, o)
  }

  /** Every bucket counts exactly the observations of its values that are past it, and the count exactly
      the observations that came to their end. */
  ghost predicate Inv(s: State) {
    && WellFormed(s) && s.count == |s.finished|
    && (forall t :: 0 <= t < |s.observers| && s.observers[t].Buckets? ==> s.observers[t].next <= |s.bounds|)
    && forall i :: 0 <= i <= |s.bounds| ==>
         s.counts[i] == Below(s.finished, s.bounds, i) + Count(s.observers, Passing(s.bounds, i))
  }

  lemma BelowAppend(values: seq<real>, value: real, bounds: seq<real>, i: nat)
    ensures Below(values + [value], bounds, i) == Below(values, bounds, i) + if Within(bounds, i, value) then 1 else 0
  {
    assert (values + [value])[..|values|] == values;
  }

  /** A step moves bucket `i` against the observers past it. */
  lemma BucketKept(s: State, t: nat, i: nat)
    requires Inv(s) && t < |s.observers| && !s.observers[t].Idle? && i <= |s.bounds|
    ensures var s' := Step(s, t, Advance);
            s'.counts[i] == Below(s'.finished, s.bounds, i) + Count(s'.observers, Passing(s.bounds, i))
  {
    hide Count, Below;
    var s' := Step(s, t, Advance);
    CountUpdate(s.observers, t, s'.observers[t], Passing(s.bounds, i));
    if s.observers[t].AddCount? {
      BelowAppend(s.finished, s.observers[t].value, s.bounds, i);
    }
  }

  lemma ObserveKeepsInv(s: State, t: nat, value: real)
    requires Inv(s) && t < |s.observers| && s.observers[t].Idle?
    ensures Inv(Become(s, t, Buckets(value, 0)))
  {
    hide Count, Below;
    forall i | 0 <= i <= |s.bounds|
      ensures Count(s.observers[t := Buckets(value, 0)], Passing(s.bounds, i))
              == Count(s.observers, Passing(s.bounds, i))
    {
      CountUpdate(s.observers, t, Buckets(value, 0), Passing(s.bounds, i));
    }
  }

  lemma StepKeepsInv(s: State, t: nat, mv: Move)
    requires Inv(s)
    ensures Inv(Step(s, t, mv))
  {
    hide Count, Below;
    if t < |s.observers| && mv.Observe? && s.observers[t].Idle? {
      ObserveKeepsInv(s, t, mv.value);
    } else if t < |s.observers| && mv.Advance? && !s.observers[t].Idle? {
      forall i: nat | i <= |s.bounds| {
        BucketKept(s, t, i);
      }
    }
  }

  lemma {:induction false} RunKeepsInv(bounds: seq<real>, observers: nat, moves: seq<(nat, Move)>)
    ensures Inv(Run(Init(bounds, observers), moves))
  {
    hide Step;
    var s := Init(bounds, observers);
    if moves == [] {
      forall i: nat {
        CountPositive(s.observers, Passing(s.bounds, i));
      }
    } else {
      var last := |moves| - 1;
      RunKeepsInv(bounds, observers, moves[..last]);
      StepKeepsInv(Run(s, moves[..last]), moves[last].0, moves[last].1);
    }
  }

  // ---------------------------------------------------------------- what the buckets say

  /** A larger bound is not below a smaller one. */
  lemma {:induction false} BelowGrows(values: seq<real>, bounds: seq<real>, i: nat, j: nat)
    requires Sorted(bounds) && i <= j
    ensures Below(values, bounds, i) <= Below(values, bounds, j)
    ensures j >= |bounds| ==> Below(values, bounds, j) == |values|
  {
    if values != [] {
      BelowGrows(values[..|values| - 1], bounds, i, j);
    }
  }

  /** In every reachable state: a bucket exceeds a later one by no more than the observations that are past
      the first and not past the second. */
  lemma BucketsAreCumulative(s: State, i: nat, j: nat)
    requires Inv(s) && i <= j <= |s.bounds|
    ensures s.counts[i] <= s.counts[j] + Count(s.observers, o => Passed(s.bounds, i, o) && !Passed(s.bounds, j, o))
  {
    BelowGrows(s.finished, s.bounds, i, j);
    var between: Observer -> bool := o => Passed(s.bounds, i, o) && !Passed(s.bounds, j, o);
    CountCover(s.observers, Passing(s.bounds, i), Passing(s.bounds, j), between);
  }

  /** The count lags behind the +Inf bucket by no more than the observations under way. */
  lemma CountLagsBehind(s: State)
    requires Inv(s)
    ensures s.count <= s.counts[|s.bounds|] <= s.count + Count(s.observers, Busy)
  {
    BelowGrows(s.finished, s.bounds, 0, |s.bounds|);
    CountCover(s.observers, Passing(s.bounds, |s.bounds|), Busy, _ => false);
    CountPositive(s.observers, _ => false);
  }

  /** With no observation under way the buckets are exact, do not decrease along the bounds, and +Inf
      equals the count. */
  lemma QuiescentBuckets(s: State)
    requires Inv(s) && forall t :: 0 <= t < |s.observers| ==> s.observers[t].Idle?
    ensures forall i :: 0 <= i <= |s.bounds| ==> s.counts[i] == Below(s.finished, s.bounds, i)
    ensures forall i, j :: 0 <= i <= j <= |s.bounds| ==> s.counts[i] <= s.counts[j]
    ensures s.counts[|s.bounds|] == s.count == |s.finished|
  {
    forall i | 0 <= i <= |s.bounds|
      ensures s.counts[i] == Below(s.finished, s.bounds, i)
    {
      CountPositive(s.observers, Passing(s.bounds, i));
    }
    forall i, j | 0 <= i <= j <= |s.bounds|
      ensures s.counts[i] <= s.counts[j]
    {
      BelowGrows(s.finished, s.bounds, i, j);
    }
    BelowGrows(s.finished, s.bounds, 0, |s.bounds|);
  }

  // ---------------------------------------------------------------- the histogram itself

  function Total(values: seq<real>): real {
    if values == [] then 0.0 else Total(values[..|values| - 1]) + values[|values| - 1]
  }

  /** The histogram with one observer at a time. `observed` records the observed values. */
  class Histogram {
    const bounds: seq<real>
    const counts: array<nat>
    var sum: real
    var count: nat
    ghost var observed: seq<real>

    ghost predicate Valid()
      reads this, counts
    {
      && Sorted(bounds) && counts.Length == |bounds| + 1
      && (forall i :: 0 <= i <= |bounds| ==> counts[i] == Below(observed, bounds, i))
      && sum == Total(observed) && count == |observed|
    }

    constructor (buckets: seq<real>)
      ensures Valid() && fresh(counts) && observed == []
      ensures multiset(bounds) == multiset(buckets)
    {
      bounds := Sort(buckets);
      counts := new nat[|Sort(buckets)| + 1];
      sum, count, observed := 0.0, 0, [];
      new;
      for i := 0 to |bounds| + 1
        modifies counts
        invariant forall k :: 0 <= k < i ==> counts[k] == 0
      {
        counts[i] := 0;
      }
    }

    /** observe: one more in every bucket whose bound is not below the value, and in +Inf. */
    method Observe(seconds: real)
      requires Valid()
      modifies this, counts
      ensures Valid() && observed == old(observed) + [seconds]
      ensures forall i :: 0 <= i < |bounds| ==> counts[i] == old(counts[i]) + if seconds <= bounds[i] then 1 else 0
      ensures counts[|bounds|] == old(counts[|bounds|]) + 1
      ensures sum == old(sum) + seconds && count == old(count) + 1
    {
      for i := 0 to |bounds|
        invariant forall k :: 0 <= k < i ==> counts[k] == old(counts[k]) + if seconds <= bounds[k] then 1 else 0
        invariant forall k :: i <= k <= |bounds| ==> counts[k] == old(counts[k])
        invariant sum == old(sum) && count == old(count) && observed == old(observed)
      {
        if seconds <= bounds[i] { counts[i] := counts[i] + 1; }
      }
      counts[|bounds|] := counts[|bounds|] + 1;
      sum := sum + seconds;
      count := count + 1;
      observed := observed + [seconds];
      forall i | 0 <= i <= |bounds|
        ensures counts[i] == Below(observed, bounds, i)
      {
        BelowAppend(old(observed), seconds, bounds, i);
      }
      assert observed[..|observed| - 1] == old(observed);
    }
  }
}
