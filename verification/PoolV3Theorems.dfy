/** What the instrumented pool guarantees. */
module PoolV3Theorems {
  import opened Tally
  import opened QueueEffects
  import Q = QueueMachine
  import QI = QueueInvariant
  import V2 = ThreadPoolV2
  import I2 = PoolV2Invariant
  import T2 = PoolV2Theorems
  import S2 = PoolV2Submissions
  import opened ThreadPoolV3
  import opened PoolV3Invariant
  import opened PoolV3Steps
  import opened PoolV3Calls

  lemma SomeThread(s: State, f: Trait)
    requires WellFormed(s)
    ensures Count(s, f) > 0 <==> exists t :: 0 <= t < |s.stages| && f(s.v2.roles[t], s.v2.q.pcs[t], s.stages[t])
  {
    SumZero(Bits(s, f));
    if t :| 0 <= t < |s.stages| && f(s.v2.roles[t], s.v2.q.pcs[t], s.stages[t]) {
      assert Bits(s, f)[t] == 1;
    }
  }

  lemma NoThread(s: State, f: Trait)
    requires WellFormed(s) && forall t :: 0 <= t < |s.stages| ==> !f(s.v2.roles[t], s.v2.q.pcs[t], s.stages[t])
    ensures Count(s, f) == 0
  {
    SumZero(Bits(s, f));
  }

  /** Nobody is in a call or holds a task. */
  lemma AllIdle(s: State, k: nat)
    requires WellFormed(s)
    requires forall t :: 0 <= t < |s.stages| ==>
        && s.v2.q.pcs[t].Idle?
        && (s.v2.roles[t].Dequeuing? || s.v2.roles[t] == V2.Client(V2.NoCall))
    ensures Count(s, Pending(k)) == Count(s, Opens(k)) == Count(s, Values(k)) == Count(s, Exceptions(k))
            == Count(s, Unsettleds(k)) == 0
    ensures Count(s, Busy) == Count(s, Waitings()) == 0
  {
    NoThread(s, Pending(k));
    NoThread(s, Opens(k));
    NoThread(s, Values(k));
    NoThread(s, Exceptions(k));
    NoThread(s, Unsettleds(k));
    NoThread(s, Busy);
    NoThread(s, Waitings());
  }

  lemma InitInv(capacity: nat, workers: nat, clients: nat)
    requires capacity >= 2 && workers > 0
    ensures Inv(Init(capacity, workers, clients))
  {
    hide I2.Inv, QI.Inv, Count;
    T2.InitInv(capacity, workers, clients);
    forall k: nat {
      AllIdle(Init(capacity, workers, clients), k);
    }
    AllIdle(Init(capacity, workers, clients), 0);
  }

  /** In every reachable state every submission is rejected, inside enqueue, or was put into the queue,
      once; and submitted = completed + failed + rejected + in flight. */
  lemma Conservation(capacity: nat, workers: nat, clients: nat, moves: Schedule)
    requires capacity >= 2 && workers > 0
    ensures var s := Run(Init(capacity, workers, clients), moves);
            && Inv(s)
            && (forall id: nat ::
                  s.rejected[id] + Count(s, Pending(id)) + S2.Pushes(s.v2.q.pushed, id)
                  == Bit(id < s.submitted))
            && s.v2.q.head <= s.v2.q.tail
            && s.submitted == |s.completed| + |s.failed| + |s.rejected|
                              + Count(s, Waitings()) + (s.v2.q.tail - s.v2.q.head) + Count(s, Busy)
  {
    hide I2.Roles, I2.Accounts, I2.Tickets, I2.Draining, QI.Inv, Init, Promises, Threads;
    InitInv(capacity, workers, clients);
    RunKeepsInv(Init(capacity, workers, clients), moves);
    var s := Run(Init(capacity, workers, clients), moves);
    Bounds(s);
  }

  lemma Bounds(s: State)
    requires Inv(s)
    ensures s.v2.q.head <= s.v2.q.tail == |s.v2.q.pushed|
  {
    hide I2.Accounts, I2.Tickets, I2.RoleOk, QI.Inv, Submissions, Tasks, Promises, Threads;
    Results(s.v2.q, 0);
  }

  lemma PartOfOpen(role: V2.Role, pc: Q.Pc<V2.Job>, stage: Stage, k: nat)
    requires role.Running? ==> !Took(pc)
    ensures Bit(Valued(role, stage, k)) + Bit(Excepted(role, stage, k))
            + Bit(Unsettled(role, stage, k)) <= Bit(Open(role, pc, stage, k))
  {
  }

  /** A body runs at most once, its promise is settled at most once, with a value exactly when it counts
      as completed and with an exception exactly when it counts as failed. */
  lemma SettledOnce(s: State, k: nat)
    requires Inv(s)
    ensures s.values[k] + s.exceptions[k] <= s.ran[k] <= Bit(k < s.v2.q.head)
    ensures s.completed[k] <= s.values[k] && s.failed[k] <= s.exceptions[k]
  {
    hide I2.Accounts, I2.Tickets, I2.Draining, I2.RoleOk, QI.Inv, Submissions, Threads, Valued, Excepted, Unsettled,
        Open, Count;
    AllPartOfOpen(s, k);
  }

  lemma AllPartOfOpen(s: State, k: nat)
    requires WellFormed(s) && I2.Inv(s.v2)
    ensures Count(s, Values(k)) + Count(s, Exceptions(k)) + Count(s, Unsettleds(k)) <= Count(s, Opens(k))
  {
    hide I2.Accounts, I2.Tickets, I2.Draining, I2.RoleOk, QI.Inv, Valued, Excepted, Unsettled, Open;
    forall t | 0 <= t < |s.stages|
      ensures Bits(s, Values(k))[t] + Bits(s, Exceptions(k))[t] + Bits(s, Unsettleds(k))[t] <= Bits(s, Opens(k))[t]
    {
      assert I2.RoleOk(s.v2.q, s.v2.stop, s.v2.roles[t], s.v2.q.pcs[t]);
      T2.RunningIsOutside(s.v2, t);
      PartOfOpen(s.v2.roles[t], s.v2.q.pcs[t], s.stages[t], k);
    }
    SumParts(Bits(s, Values(k)), Bits(s, Exceptions(k)), Bits(s, Unsettleds(k)), Bits(s, Opens(k)));
  }

  lemma UnsettledIsDue(s: State, k: nat)
    requires WellFormed(s)
    ensures Count(s, Unsettleds(k)) == Count(s, ValuesDue(k)) + Count(s, ExceptionsDue(k))
  {
    var nobody: Trait := (role, pc, stage) => false;
    NoThread(s, nobody);
    SumCover(Bits(s, Unsettleds(k)), Bits(s, ValuesDue(k)), Bits(s, ExceptionsDue(k)));
    SumParts(Bits(s, ValuesDue(k)), Bits(s, ExceptionsDue(k)), Bits(s, nobody), Bits(s, Unsettleds(k)));
  }

  /** In every run: the bodies of ticket `k` that came to their end are counted once, by how they ended. The
      promise has a value, and the task counts as completed, only if the body returned; an exception, and it
      counts as failed, only if the body threw. Once settled, and once counted, it is if and only if. */
  lemma OutcomesMatch(capacity: nat, workers: nat, clients: nat, moves: Schedule, k: nat)
    requires capacity >= 2 && workers > 0
    ensures var s := Run(Init(capacity, workers, clients), moves);
            var returned, threw := Ends(Init(capacity, workers, clients), moves, k, false),
                                   Ends(Init(capacity, workers, clients), moves, k, true);
            && returned + threw == s.ran[k] <= 1
            && (s.completed[k] > 0 ==> s.values[k] > 0) && (s.values[k] > 0 ==> returned == 1)
            && (s.failed[k] > 0 ==> s.exceptions[k] > 0) && (s.exceptions[k] > 0 ==> threw == 1)
            && (s.values[k] + s.exceptions[k] > 0 ==>
                  (s.values[k] == 1 <==> returned == 1) && (s.exceptions[k] == 1 <==> threw == 1))
            && (s.completed[k] + s.failed[k] > 0 ==>
                  (s.completed[k] == 1 <==> returned == 1) && (s.failed[k] == 1 <==> threw == 1))
  {
    hide I2.Inv, QI.Inv, Step, Init, Submissions, Tasks, Threads, Count;
    var s0 := Init(capacity, workers, clients);
    var s := Run(s0, moves);
    InitInv(capacity, workers, clients);
    InitOwesNothing(capacity, workers, clients, k);
    RunKeepsInv(s0, moves);
    EndsBalance(s0, moves, k);
    UnsettledIsDue(s, k);
    SettledOnce(s, k);
  }

  lemma InitOwesNothing(capacity: nat, workers: nat, clients: nat, k: nat)
    requires capacity > 0
    ensures var s := Init(capacity, workers, clients);
            s.values[k] == s.exceptions[k] == Count(s, ValuesDue(k)) == Count(s, ExceptionsDue(k)) == 0
  {
    NoThread(Init(capacity, workers, clients), ValuesDue(k));
    NoThread(Init(capacity, workers, clients), ExceptionsDue(k));
  }

  lemma NoneWaiting(s: State, id: nat)
    requires WellFormed(s) && Count(s, Waitings()) == 0
    ensures Count(s, Pending(id)) == 0
  {
    SomeThread(s, Waitings());
    SomeThread(s, Pending(id));
  }

  lemma NoneBusy(s: State, k: nat)
    requires WellFormed(s) && Count(s, Busy) == 0
    ensures Count(s, Opens(k)) == Count(s, Values(k)) == Count(s, Exceptions(k)) == Count(s, Unsettleds(k)) == 0
  {
    SomeThread(s, Busy);
    SomeThread(s, Opens(k));
    SomeThread(s, Values(k));
    SomeThread(s, Exceptions(k));
    SomeThread(s, Unsettleds(k));
  }

  /** A taken task that nobody is busy with has begun its wrapper, so it is not an empty function. */
  lemma TakenIsTask(s: State, k: nat)
    requires Inv(s) && Count(s, Busy) == 0 && k < s.v2.q.head
    ensures k < |s.v2.q.pushed| && s.v2.q.pushed[k].Task?
  {
    hide I2.Accounts, I2.Draining, QI.Inv, Submissions, Tasks, Promises;
    Bounds(s);
    if s.v2.ended[k] > 0 {
      assert k in s.v2.ended;
    } else {
      T2.SomeThread(s.v2, (role: V2.Role, pc: Q.Pc<V2.Job>) => I2.Holds(role, pc, k));
      var u :| 0 <= u < |s.v2.roles| && I2.Holds(s.v2.roles[u], s.v2.q.pcs[u], k);
      SomeThread(s, Busy);
      assert I2.RoleOk(s.v2.q, s.v2.stop, s.v2.roles[u], s.v2.q.pcs[u]);
      assert ThreadOk(s, s.v2.roles[u], s.stages[u], s.phases[u]);
    }
  }

  /** With as many tasks done as were submitted everything is done. */
  lemma AllDone(s: State)
    requires Inv(s) && s.submitted <= |s.completed| + |s.failed|
    ensures s.rejected == multiset{} && |s.completed| + |s.failed| == s.submitted == s.v2.q.head == s.v2.q.tail
    ensures forall id: nat :: id < s.submitted ==> S2.Pushes(s.v2.q.pushed, id) == 1
    ensures |s.v2.q.pushed| == s.submitted
    ensures forall k: nat :: k < s.submitted ==>
              && s.v2.q.pushed[k].Task? && s.ran[k] == 1 && s.completed[k] + s.failed[k] == 1
              && s.values[k] == s.completed[k] && s.exceptions[k] == s.failed[k]
  {
    hide I2.Inv, QI.Inv;
    Bounds(s);
    forall id: nat | id < s.submitted
      ensures S2.Pushes(s.v2.q.pushed, id) == 1
    {
      NoneWaiting(s, id);
      assert s.rejected[id] == 0;
    }
    forall k: nat | k < s.submitted
      ensures s.v2.q.pushed[k].Task? && s.ran[k] == 1 && s.completed[k] + s.failed[k] == 1
      ensures s.values[k] == s.completed[k] && s.exceptions[k] == s.failed[k]
    {
      NoneBusy(s, k);
      TakenIsTask(s, k);
    }
  }

  lemma InitIsQuiet(capacity: nat, workers: nat, clients: nat, t: nat)
    requires t < workers + clients
    ensures var s := Init(capacity, workers, clients);
            |s.stages| == workers + clients && s.phases[t].NoPhase? && V2.CallOf(s.v2.roles[t]).NoCall?
  {
  }

  /** In every run, at the step in which a wait_all comes to its end: every task accepted before the call was
      taken. If nothing was submitted since the call, none of the submissions was rejected, every one was
      accepted at its first attempt, every body ended, every promise is settled, and every task counts as
      completed or as failed. */
  lemma WaitAllExact(capacity: nat, workers: nat, clients: nat, moves: Schedule, t: nat, mv: Move)
    requires capacity >= 2 && workers > 0 && t < workers + clients
    requires WaitAllReturns(Run(Init(capacity, workers, clients), moves), t, mv)
    ensures var s, called := Run(Init(capacity, workers, clients), moves),
                             AtCall(Init(capacity, workers, clients), moves, t);
            && called.v2.q.tail <= s.v2.q.head && called.submitted <= |s.completed| + |s.failed|
            && (s.submitted == called.submitted ==>
                  && s.rejected == multiset{} && |s.completed| + |s.failed| == s.submitted == s.v2.q.head == s.v2.q.tail
                  && (forall id: nat :: id < s.submitted ==> S2.Pushes(s.v2.q.pushed, id) == 1)
                  && |s.v2.q.pushed| == s.submitted
                  && forall k: nat :: k < s.submitted ==>
                       && s.v2.q.pushed[k].Task? && s.ran[k] == 1 && s.completed[k] + s.failed[k] == 1
                       && s.values[k] == s.completed[k] && s.exceptions[k] == s.failed[k])
  {
    hide I2.Inv, QI.Inv, Step, Init, Submissions, Tasks, Promises, WaitAllReturns;
    var s0 := Init(capacity, workers, clients);
    var s := Run(s0, moves);
    InitInv(capacity, workers, clients);
    RunKeepsInv(s0, moves);
    InitIsQuiet(capacity, workers, clients, t);
    AlwaysKnows(s0, moves, t);
    ReturnsFromPoll(s, t, mv);
    assert ThreadOk(s, s.v2.roles[t], s.stages[t], s.phases[t]);
    if s.submitted == AtCall(s0, moves, t).submitted {
      AllDone(s);
    }
  }

  /** The other threads leave the phase of thread `t` alone, and the counters do not decrease. */
  lemma {:induction false} OthersLeavePhase(s: State, moves: Schedule, t: nat)
    requires WellFormed(s) && t < |s.phases| && forall i :: 0 <= i < |moves| ==> moves[i].0 != t
    ensures var s' := Run(s, moves);
            && |s'.phases| == |s.phases| && s'.phases[t] == s.phases[t]
            && |s.completed| <= |s'.completed| && |s.failed| <= |s'.failed|
  {
    hide Step;
    if moves != [] {
      var last := |moves| - 1;
      OthersLeavePhase(s, moves[..last], t);
      StepGrows(Run(s, moves[..last]), moves[last].0, moves[last].1);
    }
  }

  /** A poll: whatever the other threads do between its two loads, it ends wait_all if and only if the tasks that
      counted as completed at the first load and those that count as failed at the second are enough. */
  lemma PollDecides(s: State, t: nat, n: nat, first: Move, between: Schedule, second: Move)
    requires WellFormed(s) && t < |s.phases| && s.phases[t] == LoadCompleted(n) && first.Advance? && second.Advance?
    requires forall i :: 0 <= i < |between| ==> between[i].0 != t
    requires !s.v2.crashed && !Run(Step(s, t, first), between).v2.crashed
    ensures var s' := Run(Step(s, t, first), between);
            && |s'.phases| == |s.phases|
            && Step(s', t, second)
               == ToPhase(s', t, if |s.completed| + |s'.failed| >= n then Returned(n) else LoadCompleted(n))
  {
    hide V2.Step, Run;
    LoadsCompleted(s, t, n, first);
    OthersLeavePhase(Step(s, t, first), between, t);
  }

  lemma LoadsCompleted(s: State, t: nat, n: nat, mv: Move)
    requires WellFormed(s) && t < |s.phases| && s.phases[t] == LoadCompleted(n) && mv.Advance? && !s.v2.crashed
    ensures Step(s, t, mv) == s.(phases := s.phases[t := LoadFailed(n, |s.completed|)])
  {
  }

  /** A poll that begins with all the submissions it waits for done ends wait_all, however many of them failed. */
  lemma DonePollEnds(s: State, t: nat, n: nat, first: Move, between: Schedule, second: Move)
    requires WellFormed(s) && t < |s.phases| && s.phases[t] == LoadCompleted(n) && first.Advance? && second.Advance?
    requires forall i :: 0 <= i < |between| ==> between[i].0 != t
    requires !s.v2.crashed && !Run(Step(s, t, first), between).v2.crashed
    requires |s.completed| + |s.failed| >= n
    ensures var s' := Run(Step(s, t, first), between);
            && |s'.phases| == |s.phases| && Step(s', t, second) == ToPhase(s', t, Returned(n))
            && forall mv: Move :: mv.Advance? ==>
                 Step(ToPhase(s', t, Returned(n)), t, mv) == ToPhase(ToPhase(s', t, Returned(n)), t, NoPhase)
  {
    hide V2.Step, Run;
    PollDecides(s, t, n, first, between, second);
    LoadsCompleted(s, t, n, first);
    OthersLeavePhase(Step(s, t, first), between, t);
  }

  /** wait_all is in the loop of its second phase, waiting for `n` tasks. */
  predicate Polling(phase: Phase, n: nat) {
    phase == LoadCompleted(n) || (phase.LoadFailed? && phase.submitted == n)
  }

  lemma StepGrows(s: State, t: nat, mv: Move)
    requires WellFormed(s)
    ensures var s' := Step(s, t, mv);
            && s.submitted <= s'.submitted && |s.rejected| <= |s'.rejected| && |s.phases| == |s'.phases|
            && |s.completed| <= |s'.completed| && |s.failed| <= |s'.failed|
            && forall u :: 0 <= u < |s.phases| && u != t ==> s'.phases[u] == s.phases[u]
  {
    hide V2.Step;
  }

  /** A poll cannot succeed for all the submissions while one of them was rejected. */
  lemma PollFails(s: State, t: nat, mv: Move)
    requires Inv(s) && |s.rejected| > 0 && t < |s.phases| && Polling(s.phases[t], s.submitted)
    ensures t < |Step(s, t, mv).phases| && Polling(Step(s, t, mv).phases[t], s.submitted)
  {
    hide I2.Inv, QI.Inv, Inner, CallStep, InvokeStep, WrapperStep, Promises;
    Bounds(s);
    assert ThreadOk(s, s.v2.roles[t], s.stages[t], s.phases[t]);
  }

  /** A submission that threw stays counted: from then on a wait_all that counts it never returns,
      unless somebody submits more. */
  lemma {:induction false} RejectionBlocksWaitAll(s: State, t: nat, moves: Schedule)
    requires Inv(s) && |s.rejected| > 0 && t < |s.phases| && Polling(s.phases[t], s.submitted)
    ensures var s' := Run(s, moves);
            && s.submitted <= s'.submitted && |s'.rejected| > 0 && |s'.phases| == |s.phases| && Inv(s')
            && (s'.submitted == s.submitted ==> Polling(s'.phases[t], s.submitted))
  {
    hide I2.Inv, Submissions, Tasks, Promises, Threads, Step;
    if moves != [] {
      var last := |moves| - 1;
      RejectionBlocksWaitAll(s, t, moves[..last]);
      var s', u, mv := Run(s, moves[..last]), moves[last].0, moves[last].1;
      StepKeepsInv(s', u, mv);
      StepGrows(s', u, mv);
      if Step(s', u, mv).submitted == s.submitted && u == t {
        PollFails(s', t, mv);
      }
    }
  }
}
