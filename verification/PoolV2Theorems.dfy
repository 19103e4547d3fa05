/** What the lock-free pool guarantees. */
module PoolV2Theorems {
  import opened Tally
  import Q = QueueMachine
  import QI = QueueInvariant
  import QT = QueueTheorems
  import S2 = PoolV2Submissions
  import opened QueueEffects
  import opened ThreadPoolV2
  import opened PoolV2Invariant
  import opened PoolV2Calls

  lemma NoThread(s: State, f: (Role, Q.Pc<Job>) -> bool)
    requires WellFormed(s) && forall t :: 0 <= t < |s.roles| ==> !f(s.roles[t], s.q.pcs[t])
    ensures Count(s, f) == 0
  {
    SumZero(Bits(s, f));
  }

  lemma InitInv(capacity: nat, workers: nat, clients: nat)
    requires capacity >= 2 && workers > 0
    ensures Inv(Init(capacity, workers, clients))
  {
    hide QI.Inv;
    var s := Init(capacity, workers, clients);
    QT.InitInv(capacity, workers + clients, Husk(0));
    assert s.roles[0] == Dequeuing && s.q.pcs[0] == Q.Idle;
    assert Staying(s.roles[0], s.q.pcs[0]);
    NoThread(s, Uncounted);
    NoThread(s, Active);
    NoThread(s, Unstarted);
    NoThread(s, Finishing);
    forall k: nat
      ensures Holders(s, k) == 0 && Runners(s, k) == 0
    {
      NoThread(s, (role: Role, pc: Q.Pc<Job>) => Holds(role, pc, k));
      NoThread(s, (role: Role, pc: Q.Pc<Job>) => Runs(role, k));
    }
  }

  /** In every reachable state: `tail_` counts the accepted tasks, `head_` the taken ones, and the
      pool's own counters lag behind by exactly the threads between the two updates. */
  lemma Accounting(capacity: nat, workers: nat, clients: nat, moves: Schedule)
    requires capacity >= 2 && workers > 0
    ensures var s := Run(Init(capacity, workers, clients), moves);
            && Inv(s)
            && s.q.tail == s.enqueued + Count(s, Uncounted)
            && s.q.head == s.completed + s.active + Count(s, Unstarted) + Count(s, Finishing)
            && s.active == Count(s, Active)
  {
    hide QI.Inv, Init;
    InitInv(capacity, workers, clients);
    RunKeepsInv(Init(capacity, workers, clients), moves);
  }

  lemma SomeThread(s: State, f: (Role, Q.Pc<Job>) -> bool)
    requires WellFormed(s)
    ensures Count(s, f) > 0 <==> exists t :: 0 <= t < |s.roles| && f(s.roles[t], s.q.pcs[t])
  {
    SumZero(Bits(s, f));
    if t :| 0 <= t < |s.roles| && f(s.roles[t], s.q.pcs[t]) {
      assert Bits(s, f)[t] == 1;
    }
  }

  /** A task body runs at most once, and only for a ticket that was taken. */
  lemma AtMostOnce(s: State, k: nat)
    requires Inv(s)
    ensures s.ended[k] <= s.begun[k] <= Bit(k < s.q.head)
  {
    hide QI.Inv, RoleOk;
    var runs, holds := (role: Role, pc: Q.Pc<Job>) => Runs(role, k), (role: Role, pc: Q.Pc<Job>) => Holds(role, pc, k);
    forall t | 0 <= t < |s.roles|
      ensures Bits(s, runs)[t] <= Bits(s, holds)[t]
    {
      assert RoleOk(s.q, s.stop, s.roles[t], s.q.pcs[t]);
      RunningIsOutside(s, t);
      assert Bits(s, runs)[t] == Bit(Runs(s.roles[t], k)) && Bits(s, holds)[t] == Bit(Holds(s.roles[t], s.q.pcs[t], k));
    }
    SumBound(Bits(s, runs), Bits(s, holds));
    assert Runners(s, k) <= Holders(s, k);
  }

  lemma RunningIsOutside(s: State, t: nat)
    requires Here(s, t)
    ensures s.roles[t].Running? || s.roles[t].Client? ==> !Took(s.q.pcs[t])
  {
    hide QI.Inv;
  }

  /** When every worker has left its loop, every task taken was run exactly once. */
  lemma UnrunWhenJoined(s: State)
    requires Inv(s) && Joined(s.roles)
    ensures s.q.head <= s.q.tail == |s.q.pushed| && s.q.tail - s.q.head <= s.latecomers
    ensures forall k: nat :: k < s.q.head ==> s.begun[k] == 1 && s.ended[k] == 1 && s.q.pushed[k].Task?
    ensures forall k: nat :: k >= s.q.head ==> s.begun[k] == 0 && s.ended[k] == 0
    ensures s.active == 0 && s.completed == s.q.head
  {
    hide QI.Inv, CallOk;
    Results(s.q, 0);
    forall t | 0 <= t < |s.roles|
      ensures !Unstarted(s.roles[t], s.q.pcs[t]) && !Active(s.roles[t], s.q.pcs[t])
              && !Finishing(s.roles[t], s.q.pcs[t])
    {
      assert RoleOk(s.q, s.stop, s.roles[t], s.q.pcs[t]);
      RunningIsOutside(s, t);
    }
    SomeThread(s, Unstarted);
    SomeThread(s, Active);
    SomeThread(s, Finishing);
    forall k: nat
      ensures k < s.q.head ==> s.begun[k] == 1 && s.ended[k] == 1 && s.q.pushed[k].Task?
      ensures k >= s.q.head ==> s.begun[k] == 0 && s.ended[k] == 0
    {
      SomeThread(s, (role: Role, pc: Q.Pc<Job>) => Holds(role, pc, k));
      AtMostOnce(s, k);
      assert k < s.q.head ==> k in s.ended;
    }
  }

  lemma InitCallsNothing(capacity: nat, workers: nat, clients: nat)
    ensures NobodyCalls(Init(capacity, workers, clients))
  {
  }

  /** In every run: when the destructor has returned in some thread, every worker has left its loop. */
  lemma DestructorJoins(capacity: nat, workers: nat, clients: nat, moves: Schedule, t: nat)
    requires capacity >= 2 && workers > 0
    requires var s := Run(Init(capacity, workers, clients), moves);
             t < |s.roles| && CallOf(s.roles[t]).StopReturned?
    ensures var s := Run(Init(capacity, workers, clients), moves);
            forall u :: 0 <= u < |s.roles| ==> s.roles[u].Client? || s.roles[u].Exited?
  {
    hide Inv, Step;
    InitInv(capacity, workers, clients);
    InitCallsNothing(capacity, workers, clients);
    ReturnedIsJoined(Init(capacity, workers, clients), moves, t);
  }

  /** In every run: the destructor comes to its end at exactly the steps of its thread after the last worker has
      left its loop. */
  lemma DestructorEnds(capacity: nat, workers: nat, clients: nat, moves: Schedule, t: nat, mv: Move)
    requires capacity >= 2 && workers > 0
    ensures var s := Run(Init(capacity, workers, clients), moves);
            DestructorReturns(s, t, mv)
            <==> && !s.crashed && t < |s.roles| && s.roles[t] == Client(StopJoin) && mv.Advance?
                 && forall u :: 0 <= u < |s.roles| ==> s.roles[u].Client? || s.roles[u].Exited?
  {
    hide QI.Inv, Step, Init, Tickets, Draining, Accounts;
    Accounting(capacity, workers, clients, moves);
    var s := Run(Init(capacity, workers, clients), moves);
    DestructorReturnsExactly(s, t, mv);
    if t < |s.roles| {
      assert RoleOk(s.q, s.stop, s.roles[t], s.q.pcs[t]);
    }
  }

  /** In every run, once the destructor has returned in some thread: every task taken was run exactly once,
      those submitted by running tasks included, and the accepted tasks that never run are at most as many as
      the clients that could still put a task into the queue when `stop_` was set. */
  lemma UnrunAreLate(capacity: nat, workers: nat, clients: nat, moves: Schedule, t: nat)
    requires capacity >= 2 && workers > 0
    requires var s := Run(Init(capacity, workers, clients), moves);
             t < |s.roles| && CallOf(s.roles[t]).StopReturned?
    ensures var s := Run(Init(capacity, workers, clients), moves);
            && s.q.head <= s.q.tail == |s.q.pushed| && s.q.tail - s.q.head <= s.latecomers
            && (forall k: nat :: k < s.q.head ==> s.begun[k] == 1 && s.ended[k] == 1 && s.q.pushed[k].Task?)
            && (forall k: nat :: k >= s.q.head ==> s.begun[k] == 0 && s.ended[k] == 0)
            && s.active == 0 && s.completed == s.q.head
  {
    hide Inv, Step, Init;
    Accounting(capacity, workers, clients, moves);
    DestructorJoins(capacity, workers, clients, moves, t);
    UnrunWhenJoined(Run(Init(capacity, workers, clients), moves));
  }

  /** So the destructor drains the queue, unless such a client was there when `stop_` was set. */
  lemma DrainsExactlyOnce(capacity: nat, workers: nat, clients: nat, moves: Schedule, t: nat)
    requires capacity >= 2 && workers > 0
    requires var s := Run(Init(capacity, workers, clients), moves);
             t < |s.roles| && CallOf(s.roles[t]).StopReturned? && s.latecomers == 0
    ensures var s := Run(Init(capacity, workers, clients), moves);
            && s.q.head == s.q.tail == |s.q.pushed|
            && (forall k: nat :: k < s.q.tail ==> s.begun[k] == 1 && s.ended[k] == 1 && s.q.pushed[k].Task?)
            && s.active == 0 && s.completed == s.q.tail
  {
    hide Step, Init;
    UnrunAreLate(capacity, workers, clients, moves, t);
  }

  /** With no active task, the tasks that were taken and have not ended are with workers between taking and
      counting, and none of them has begun. */
  lemma NoneActive(s: State)
    requires Inv(s) && s.active == 0
    ensures forall k: nat :: s.ended[k] == 0 ==> s.begun[k] == 0
    ensures forall k: nat :: k < s.q.head && s.ended[k] == 0 ==>
              exists u :: 0 <= u < |s.roles| && Unstarted(s.roles[u], s.q.pcs[u])
                          && Holds(s.roles[u], s.q.pcs[u], k)
    ensures Count(s, Unstarted) <= Count(s, (role: Role, pc: Q.Pc<Job>) => !role.Client?)
  {
    hide QI.Inv;
    SomeThread(s, Active);
    forall k: nat | s.ended[k] == 0
      ensures s.begun[k] == 0
      ensures k < s.q.head ==> exists u :: 0 <= u < |s.roles| && Unstarted(s.roles[u], s.q.pcs[u])
                                           && Holds(s.roles[u], s.q.pcs[u], k)
    {
      SomeThread(s, (role: Role, pc: Q.Pc<Job>) => Runs(role, k));
      if k < s.q.head {
        SomeThread(s, (role: Role, pc: Q.Pc<Job>) => Holds(role, pc, k));
        var u :| 0 <= u < |s.roles| && Holds(s.roles[u], s.q.pcs[u], k);
        assert !Active(s.roles[u], s.q.pcs[u]);
      }
    }
    forall u | 0 <= u < |s.roles|
      ensures Unstarted(s.roles[u], s.q.pcs[u]) ==> !s.roles[u].Client?
    {
      assert RoleOk(s.q, s.stop, s.roles[u], s.q.pcs[u]);
      RunningIsOutside(s, u);
    }
    SumBound(Bits(s, Unstarted), Bits(s, (role: Role, pc: Q.Pc<Job>) => !role.Client?));
  }

  /** In every run, at the step in which a wait_all returns: every task that was accepted before the call has
      been taken, none is running, and the unfinished ones are with workers between taking and counting: at
      most one for each worker, none of them begun. With no ticket claimed since the call the queue is empty. */
  lemma WaitAllBound(capacity: nat, workers: nat, clients: nat, moves: Schedule, t: nat, mv: Move)
    requires capacity >= 2 && workers > 0
    requires WaitReturns(Run(Init(capacity, workers, clients), moves), t, mv)
    ensures var s, called := Run(Init(capacity, workers, clients), moves),
                             CalledTail(Init(capacity, workers, clients), moves, t);
            && called <= s.q.head <= s.q.tail && s.active == 0
            && (s.q.tail == called ==> s.q.head == s.q.tail)
            && (forall k: nat :: s.ended[k] == 0 ==> s.begun[k] == 0)
            && (forall k: nat :: k < s.q.head && s.ended[k] == 0 ==>
                  exists u :: 0 <= u < |s.roles| && Unstarted(s.roles[u], s.q.pcs[u])
                              && Holds(s.roles[u], s.q.pcs[u], k))
            && s.q.head == s.completed + Count(s, Finishing) + Count(s, Unstarted)
            && Count(s, Unstarted) <= Count(s, (role: Role, pc: Q.Pc<Job>) => !role.Client?)
  {
    hide QI.Inv, Step, Init, Tickets, Draining;
    var s0 := Init(capacity, workers, clients);
    var s := Run(s0, moves);
    Accounting(capacity, workers, clients, moves);
    InitInv(capacity, workers, clients);
    InitCallsNothing(capacity, workers, clients);
    WaitReturnsExactly(s, t, mv);
    WaitsSinceItsCall(s0, moves, t);
    Results(s.q, t);
    assert RoleOk(s.q, s.stop, s.roles[t], s.q.pcs[t]);
    NoneActive(s);
  }

  /** When a wait_all returns with no ticket claimed since it was called, all the accepted tasks have ended if
      and only if no worker is between taking a task and counting it. */
  lemma WaitAllIsExact(capacity: nat, workers: nat, clients: nat, moves: Schedule, t: nat, mv: Move)
    requires capacity >= 2 && workers > 0
    requires var s := Run(Init(capacity, workers, clients), moves);
             WaitReturns(s, t, mv) && s.q.tail == CalledTail(Init(capacity, workers, clients), moves, t)
    ensures var s := Run(Init(capacity, workers, clients), moves);
            (forall k: nat :: k < s.q.tail ==> s.ended[k] == 1) <==> Count(s, Unstarted) == 0
  {
    hide Inv, Step, Init;
    Accounting(capacity, workers, clients, moves);
    WaitAllBound(capacity, workers, clients, moves, t, mv);
    EndedExactly(Run(Init(capacity, workers, clients), moves));
  }

  lemma EndedExactly(s: State)
    requires Inv(s) && s.active == 0 && s.q.head == s.q.tail
    ensures (forall k: nat :: k < s.q.tail ==> s.ended[k] == 1) <==> Count(s, Unstarted) == 0
  {
    hide QI.Inv;
    NoneActive(s);
    SomeThread(s, Unstarted);
    if u :| 0 <= u < |s.roles| && Unstarted(s.roles[u], s.q.pcs[u]) {
      assert RoleOk(s.q, s.stop, s.roles[u], s.q.pcs[u]);
      Results(s.q, u);
      var k := if Took(s.q.pcs[u]) then s.q.pcs[u].ticket else s.roles[u].ticket;
      assert Holds(s.roles[u], s.q.pcs[u], k);
      SomeThread(s, (role: Role, pc: Q.Pc<Job>) => Holds(role, pc, k));
      assert k < s.q.tail && s.ended[k] == 0;
    } else {
      forall k: nat | k < s.q.tail
        ensures s.ended[k] == 1
      {
        AtMostOnce(s, k);
      }
    }
  }

  /** In every run: wait_all returns at exactly the steps that find no active task after an empty queue. */
  lemma WaitAllReturns(capacity: nat, workers: nat, clients: nat, moves: Schedule, t: nat, mv: Move)
    requires capacity >= 2 && workers > 0
    ensures var s := Run(Init(capacity, workers, clients), moves);
            WaitReturns(s, t, mv)
            <==> && !s.crashed && t < |s.roles| && mv.Advance? && CallOf(s.roles[t]).WaitActive?
                 && forall u :: 0 <= u < |s.roles| ==> !s.roles[u].Running? && !s.roles[u].CountDown?
  {
    hide QI.Inv, Step, Init, Tickets, Draining;
    var s := Run(Init(capacity, workers, clients), moves);
    Accounting(capacity, workers, clients, moves);
    WaitReturnsExactly(s, t, mv);
    SomeThread(s, Active);
  }

  /** In every run: enqueue throws if it finds `stop_` set, before its first attempt or after a refused one, or
      after 1001 refused attempts; and only then. After any other refused attempt it makes the next one. */
  lemma EnqueueThrows(capacity: nat, workers: nat, clients: nat, moves: Schedule, t: nat, mv: Move)
    requires capacity >= 2 && workers > 0
    ensures var s, refusals := Run(Init(capacity, workers, clients), moves),
                               Refusals(Init(capacity, workers, clients), moves, t);
            && (GivesUp(s, t, mv)
                <==> && Able(s, t) && mv.Advance?
                     && var call := s.roles[t].call;
                        || (call.EnqCheckStop? && s.stop)
                        || (call.EnqRecheckStop? && (s.stop || refusals == 1001)))
            && (Able(s, t) && mv.Advance? && s.roles[t].call.EnqRecheckStop? && !s.stop && refusals <= 1000 ==>
                  CallOf(Step(s, t, mv).roles[t]) == EnqPush(s.roles[t].call.id, refusals))
            && (t < |s.roles| && CallOf(s.roles[t]).EnqRecheckStop? ==> 1 <= refusals <= 1001)
  {
    hide Inv, Step, Init;
    var s0 := Init(capacity, workers, clients);
    var s := Run(s0, moves);
    Accounting(capacity, workers, clients, moves);
    InitInv(capacity, workers, clients);
    InitCallsNothing(capacity, workers, clients);
    GivesUpExactly(s, t, mv);
    if t < |s.roles| {
      CountsRefusals(s0, moves, t);
      if Able(s, t) && mv.Advance? && Tries(s.roles[t].call) {
        TryGoes(s, t, mv);
      }
    }
  }

  lemma OnlyAccessesTouchTheQueue(s: State, t: nat, mv: Move)
    requires WellFormed(s) && !mv.Advance?
    ensures Step(s, t, mv).q == s.q
  {
    hide CallStep, WorkerStep;
    if t < |s.roles| && (s.roles[t].Client? || s.roles[t].Running?) {
      S2.CallStarts(s, t, mv);
    }
  }

  /** What a submission puts into the queue: the task if its first attempt is the one accepted, and
      otherwise what std::move left of it. */
  lemma AcceptedJob(s: State, t: nat, mv: Move)
    requires Inv(s) && t < |s.roles|
    requires Step(s, t, mv).q.tail > s.q.tail
    ensures var call := CallOf(s.roles[t]);
            && call.EnqPush?
            && Step(s, t, mv).q.pushed == s.q.pushed + [Offer(call.id, call.retries)]
  {
    hide QI.Inv, Q.Step, CallStep, WorkerStep, Local;
    assert RoleOk(s.q, s.stop, s.roles[t], s.q.pcs[t]);
    if !mv.Advance? {
      OnlyAccessesTouchTheQueue(s, t, mv);
    } else if !Inert(s, t, mv) {
      StepEffect(s, t, mv);
      if s.q.pcs[t].EnqCas? {
        InsideIsQueue(s, t, mv);
        AdvanceEffect(s.q, t, mv.spurious, mv.residue);
      } else {
        S2.PushedStays(s, t, Step(s, t, mv));
      }
    }
  }

  lemma CrashesExactly(s: State, t: nat, mv: Move)
    requires Inv(s) && !s.crashed
    ensures Step(s, t, mv).crashed <==>
              t < |s.roles| && s.roles[t].Running? && s.roles[t].ticket < |s.q.pushed|
              && s.q.pushed[s.roles[t].ticket].Husk?
  {
    hide QI.Inv, CallOk, CallStep, WorkerStep;
    if t < |s.roles| {
      assert RoleOk(s.q, s.stop, s.roles[t], s.q.pcs[t]);
    }
  }

  lemma PushedGrows(s: State, t: nat, mv: Move)
    requires Inv(s)
    ensures s.q.pushed <= Step(s, t, mv).q.pushed
  {
    hide QI.Inv, RoleOk, CallStep, WorkerStep, EffectOnCounters, EffectOnTickets, EffectOnDrain;
    if !Inert(s, t, mv) {
      assert Here(s, t);
      StepEffect(s, t, mv);
    }
  }

  // ---------------------------------------------------------------- what ends the process

  /** The step claims ticket `k` for an attempt of enqueue after the first one. */
  predicate ClaimsOnRetry(s: State, t: nat, mv: Move, k: nat)
    requires WellFormed(s)
  {
    && t < |s.roles| && s.q.tail == k && Step(s, t, mv).q.tail == k + 1
    && CallOf(s.roles[t]).EnqPush? && CallOf(s.roles[t]).retries > 0
  }

  /** Somewhere in the run, ticket `k` was claimed for an attempt after the first one. */
  predicate AcceptedOnRetry(s: State, moves: Schedule, k: nat)
    requires WellFormed(s)
  {
    && moves != []
    && var last := |moves| - 1;
       AcceptedOnRetry(s, moves[..last], k) || ClaimsOnRetry(Run(s, moves[..last]), moves[last].0, moves[last].1, k)
  }

  lemma StepAccepts(s: State, t: nat, mv: Move, k: nat)
    requires Inv(s)
    ensures var s' := Step(s, t, mv);
            && s.q.tail == |s.q.pushed| <= s'.q.tail == |s'.q.pushed|
            && (k < s'.q.tail ==>
                  (s'.q.pushed[k].Husk? <==> (k < s.q.tail && s.q.pushed[k].Husk?) || ClaimsOnRetry(s, t, mv, k)))
            && (k >= s'.q.tail ==> !ClaimsOnRetry(s, t, mv, k))
  {
    hide Accounts, Tickets, RoleOk, QI.Inv, Step, Count;
    var s' := Step(s, t, mv);
    Results(s.q, 0);
    StepKeepsInv(s, t, mv);
    Results(s'.q, 0);
    PushedGrows(s, t, mv);
    if s'.q.tail > s.q.tail {
      InRange(s, t, mv);
      AcceptedJob(s, t, mv);
    }
  }

  lemma InRange(s: State, t: nat, mv: Move)
    requires WellFormed(s) && Step(s, t, mv).q.tail > s.q.tail
    ensures t < |s.roles|
  {
    hide CallStep, WorkerStep;
  }

  /** The queue's history tells the attempts apart. */
  lemma {:induction false} RemaindersAreRetries(capacity: nat, workers: nat, clients: nat, moves: Schedule, k: nat)
    requires capacity >= 2 && workers > 0
    ensures var s := Run(Init(capacity, workers, clients), moves);
            && Inv(s)
            && (AcceptedOnRetry(Init(capacity, workers, clients), moves, k)
                <==> k < |s.q.pushed| && s.q.pushed[k].Husk?)
  {
    hide Step, Inv, ClaimsOnRetry;
    Accounting(capacity, workers, clients, moves);
    if moves != [] {
      var last := |moves| - 1;
      var s := Run(Init(capacity, workers, clients), moves[..last]);
      RemaindersAreRetries(capacity, workers, clients, moves[..last], k);
      StepAccepts(s, moves[last].0, moves[last].1, k);
      assert Run(Init(capacity, workers, clients), moves) == Step(s, moves[last].0, moves[last].1);
    }
  }

  /** At step `i` of the run a worker goes on with a task that it began and that was accepted on a retry. */
  predicate RunsRetry(s: State, moves: Schedule, i: nat)
    requires WellFormed(s)
  {
    && i < |moves|
    && var s', t := Run(s, moves[..i]), moves[i].0;
       t < |s'.roles| && s'.roles[t].Running? && AcceptedOnRetry(s, moves[..i], s'.roles[t].ticket)
  }

  /** Over whole runs: the process has ended if and only if some worker has begun a task that was accepted
      on an attempt after the first, and has gone on with it. */
  lemma {:induction false} CrashedExactly(capacity: nat, workers: nat, clients: nat, moves: Schedule)
    requires capacity >= 2 && workers > 0
    ensures Run(Init(capacity, workers, clients), moves).crashed
            <==> exists i: nat :: RunsRetry(Init(capacity, workers, clients), moves, i)
  {
    hide Step, Inv;
    var s0 := Init(capacity, workers, clients);
    if moves != [] {
      var last := |moves| - 1;
      var front, t, mv := moves[..last], moves[last].0, moves[last].1;
      var s := Run(s0, front);
      assert Run(s0, moves) == Step(s, t, mv);
      CrashedExactly(capacity, workers, clients, front);
      assert forall i: nat :: i < last ==> front[..i] == moves[..i];
      assert forall i: nat :: i < last ==> (RunsRetry(s0, front, i) <==> RunsRetry(s0, moves, i));
      if s.crashed {
        StaysCrashed(s, t, mv);
        var i: nat :| RunsRetry(s0, front, i);
        assert RunsRetry(s0, moves, i);
      } else {
        Accounting(capacity, workers, clients, front);
        CrashesExactly(s, t, mv);
        if t < |s.roles| && s.roles[t].Running? {
          RemaindersAreRetries(capacity, workers, clients, front, s.roles[t].ticket);
        }
        assert Step(s, t, mv).crashed <==> RunsRetry(s0, moves, last);
      }
    }
  }

  lemma StaysCrashed(s: State, t: nat, mv: Move)
    requires WellFormed(s) && s.crashed
    ensures Step(s, t, mv) == s
  {
  }

  /** Once such a task has begun, there is no way around it: it does not end, and whatever its worker does
      next ends the process. */
  lemma BegunRetryIsFatal(capacity: nat, workers: nat, clients: nat, moves: Schedule, k: nat)
    requires capacity >= 2 && workers > 0
    requires var s := Run(Init(capacity, workers, clients), moves);
             !s.crashed && k in s.begun && AcceptedOnRetry(Init(capacity, workers, clients), moves, k)
    ensures var s := Run(Init(capacity, workers, clients), moves);
            && s.ended[k] == 0
            && exists t :: 0 <= t < |s.roles| && s.roles[t].Running? && s.roles[t].ticket == k
                           && forall mv :: Step(s, t, mv).crashed
  {
    hide Step, Roles, Accounts, Draining;
    var s := Run(Init(capacity, workers, clients), moves);
    RemaindersAreRetries(capacity, workers, clients, moves, k);
    assert s.ended[k] == 0 by {
      assert k !in s.ended;
    }
    SomeThread(s, (role: Role, pc: Q.Pc<Job>) => Runs(role, k));
    var t :| 0 <= t < |s.roles| && Runs(s.roles[t], k);
    forall mv
      ensures Step(s, t, mv).crashed
    {
      CrashesExactly(s, t, mv);
    }
  }

  /** A run whose accepted submissions were all accepted on their first attempt does not end the process. */
  lemma {:induction false} FirstAttemptsNeverCrash(capacity: nat, workers: nat, clients: nat, moves: Schedule)
    requires capacity >= 2 && workers > 0
    requires var s := Run(Init(capacity, workers, clients), moves);
             forall k :: 0 <= k < |s.q.pushed| ==> s.q.pushed[k].Task?
    ensures !Run(Init(capacity, workers, clients), moves).crashed
  {
    hide Step, Inv;
    if moves != [] {
      var last := |moves| - 1;
      var s, t, mv := Run(Init(capacity, workers, clients), moves[..last]), moves[last].0, moves[last].1;
      Accounting(capacity, workers, clients, moves[..last]);
      PushedGrows(s, t, mv);
      assert Run(Init(capacity, workers, clients), moves) == Step(s, t, mv);
      assert forall k :: 0 <= k < |s.q.pushed| ==> s.q.pushed[k] == Step(s, t, mv).q.pushed[k];
      FirstAttemptsNeverCrash(capacity, workers, clients, moves[..last]);
      CrashesExactly(s, t, mv);
    }
  }
}
