/** What the mutex pool guarantees. */
module PoolV1Theorems {
  import opened Counting
  import opened Tally
  import opened ThreadPoolV1
  import opened PoolV1Invariant

  lemma InitInv(workers: nat, clients: nat)
    requires workers > 0
    ensures Inv(Init(workers, clients))
  {
    var s := Init(workers, clients);
    assert !s.roles[0].Client?;
    CountPositive(s.roles, Active);
    CountPositive(s.roles, Finishing);
    forall k: nat
      ensures Count(s.roles, Runners(k)) == 0
    {
      CountPositive(s.roles, Runners(k));
    }
  }

  /** In every reachable state with a worker asleep, each queued task has its own enqueuer about to call
      notify_one or its own awake worker about to test the queue; and once the destructor called
      notify_all no worker is asleep. */
  lemma NoWorkIsSleptThrough(workers: nat, clients: nat, moves: Schedule)
    requires workers > 0
    ensures var s := Run(Init(workers, clients), moves);
            && (SomeoneSleeps(s.roles) ==> |s.queue| <= Count(s.roles, Notifying) + Count(s.roles, Testing))
            && (s.announced ==> !SomeoneSleeps(s.roles))
  {
    hide Roles, Fifo, Tickets, Draining, Init;
    InitInv(workers, clients);
    RunKeepsInv(Init(workers, clients), moves);
  }

  /** A queued task is never left to sleeping workers alone. */
  lemma SomeoneWillTest(s: State)
    requires Inv(s) && s.queue != [] && SomeoneSleeps(s.roles)
    ensures exists t :: 0 <= t < |s.roles| && (Notifying(s.roles[t]) || Testing(s.roles[t]))
  {
    hide Roles, Fifo, Tickets, Draining;
    CountPositive(s.roles, Notifying);
    CountPositive(s.roles, Testing);
  }

  /** In every reachable state: what was enqueued is queued, active or finished; the queue holds the tasks
      that were not taken yet in the order of enqueue, and no task ended more than once. */
  lemma Accounting(workers: nat, clients: nat, moves: Schedule)
    requires workers > 0
    ensures var s := Run(Init(workers, clients), moves);
            && s.popped <= |s.pushed| && s.queue == s.pushed[s.popped..]
            && |s.pushed| + Count(s.roles, Finishing) == |s.queue| + s.active + |s.ended|
            && s.active == Count(s.roles, Active)
            && forall k: nat :: s.ended[k] <= Bit(k < s.popped)
  {
    hide Roles, WakeUps, Draining, Init;
    InitInv(workers, clients);
    RunKeepsInv(Init(workers, clients), moves);
    var s := Run(Init(workers, clients), moves);
    forall k: nat
      ensures s.ended[k] <= Bit(k < s.popped)
    {
      assert s.ended[k] + Count(s.roles, Runners(k)) == Bit(k < s.popped);
    }
  }

  /** A worker takes the oldest task. */
  lemma TakesOldest(s: State, t: nat, mv: Move)
    requires Inv(s) && t < |s.roles| && s.roles[t].WorkerTest? && Step(s, t, mv).popped > s.popped
    ensures var s' := Step(s, t, mv);
            && s'.roles[t] == Running(s.popped, NoCall) && s.popped < |s.pushed|
            && s.queue == [s.pushed[s.popped]] + s'.queue && s'.pushed == s.pushed
  {
    hide Roles, Tickets, WakeUps, Draining, CallStep;
  }

  predicate InWait(call: Call) {
    call.WaitLock? || call.WaitTest? || call.WaitBlock? || call.WaitSleep?
  }

  /** The step in which a wait_all of thread `t` comes to its end. */
  predicate WaitReturns(s: State, t: nat, mv: Move) {
    t < |s.roles| && InWait(CallOf(s.roles[t])) && !InWait(CallOf(Step(s, t, mv).roles[t]))
  }

  /** wait_all comes to its end at exactly the tests at which every task enqueued so far has ended and no worker
      is between the end of a task and the decrement of `active_tasks_`. */
  lemma WaitAllIsExact(s: State, t: nat, mv: Move)
    requires Inv(s)
    ensures WaitReturns(s, t, mv)
            <==> && t < |s.roles| && mv.Advance? && CallOf(s.roles[t]).WaitTest?
                 && Count(s.roles, Finishing) == 0 && forall k: nat :: k < |s.pushed| ==> s.ended[k] == 1
  {
    hide Inv, Step;
    ReturnsOnTest(s, t, mv);
    AllEnded(s);
  }

  lemma ReturnsOnTest(s: State, t: nat, mv: Move)
    ensures WaitReturns(s, t, mv)
            <==> t < |s.roles| && mv.Advance? && CallOf(s.roles[t]).WaitTest? && s.queue == [] && s.active == 0
  {
    hide Joined, SomeoneSleeps, Count;
  }

  lemma AllEnded(s: State)
    requires Inv(s)
    ensures s.queue == [] && s.active == 0
            <==> Count(s.roles, Finishing) == 0 && forall k: nat :: k < |s.pushed| ==> s.ended[k] == 1
  {
    hide Roles, WakeUps, Draining;
    CountPositive(s.roles, Active);
    CountPositive(s.roles, Finishing);
    if s.queue == [] && s.active == 0 {
      forall k: nat | k < |s.pushed|
        ensures s.ended[k] == 1
      {
        CountPositive(s.roles, Runners(k));
        assert s.ended[k] + Count(s.roles, Runners(k)) == Bit(k < s.popped);
      }
    } else if s.queue != [] {
      assert s.ended[s.popped] + Count(s.roles, Runners(s.popped)) == 0 && s.popped < |s.pushed|;
    } else {
      SomebodyActive(s);
    }
  }

  lemma SomebodyActive(s: State)
    requires Inv(s) && s.active != 0
    ensures Count(s.roles, Finishing) > 0 || exists k: nat :: k < |s.pushed| && s.ended[k] == 0
  {
    hide WakeUps, Draining;
    CountPositive(s.roles, Active);
    CountPositive(s.roles, Finishing);
    var u :| 0 <= u < |s.roles| && Active(s.roles[u]);
    if s.roles[u].Running? {
      var k := s.roles[u].ticket;
      assert RoleOk(s, s.roles[u]);
      CountPositive(s.roles, Runners(k));
      assert s.ended[k] + Count(s.roles, Runners(k)) == Bit(k < s.popped);
    }
  }

  predicate InEnqueue(call: Call) {
    call.EnqCheckStop? || call.EnqPush? || call.EnqNotify?
  }

  /** enqueue comes to its end without a task in the queue, by its exception, exactly if it finds `stop_` set; and
      puts a task into the queue exactly when it is past that check and the lock is free. */
  lemma EnqueueThrows(s: State, t: nat, mv: Move)
    requires t < |s.roles| && (s.roles[t].Client? || s.roles[t].Running?) && InEnqueue(s.roles[t].call)
    ensures var call, s' := s.roles[t].call, Step(s, t, mv);
            && (call.EnqCheckStop? ==> (!InEnqueue(CallOf(s'.roles[t])) <==> mv.Advance? && s.stop))
            && (call.EnqPush? ==> InEnqueue(CallOf(s'.roles[t])))
            && (|s'.pushed| > |s.pushed| <==> mv.Advance? && call.EnqPush? && s.owner.Free?)
            && (|s'.pushed| > |s.pushed| ==> s'.pushed == s.pushed + [call.id] && CallOf(s'.roles[t]).EnqNotify?)
  {
    hide Joined, SomeoneSleeps, Count;
  }

  /** A client and a running task can call the pool alike: what the call's first step is. */
  lemma CallsBegin(s: State, t: nat, op: Op)
    requires t < |s.roles| && (s.roles[t].Client? || s.roles[t].Running?) && CallOf(s.roles[t]).NoCall?
    requires s.roles[t].Running? ==> !op.Shutdown?
    ensures Step(s, t, Invoke(op))
            == Become(s, t, WithCall(s.roles[t], match op
                                                 case Submit(id) => EnqCheckStop(id)
                                                 case WaitAll => WaitLock
                                                 case Shutdown => StopSet))
  {
    hide Joined, SomeoneSleeps;
  }

  /** In enqueue, before its task is in the queue. */
  predicate Submitting(role: Role) {
    CallOf(role).EnqCheckStop? || CallOf(role).EnqPush?
  }

  predicate CallsEnqueue(s: State, t: nat, mv: Move) {
    && t < |s.roles| && mv.Invoke? && mv.op.Submit?
    && (s.roles[t].Client? || s.roles[t].Running?) && CallOf(s.roles[t]).NoCall?
  }

  /** The step of thread `t` finds `stop_` set on entering enqueue. */
  predicate FindsStop(s: State, t: nat, mv: Move) {
    t < |s.roles| && mv.Advance? && CallOf(s.roles[t]).EnqCheckStop? && s.stop
  }

  /** How many submissions a run holds, and how many of them found `stop_` set. */
  function Submissions(s: State, moves: Schedule): (nat, nat) {
    if moves == [] then (0, 0)
    else
      var last := |moves| - 1;
      var (calls, refused) := Submissions(s, moves[..last]);
      var before, t, mv := Run(s, moves[..last]), moves[last].0, moves[last].1;
      (calls + Bit(CallsEnqueue(before, t, mv)), refused + Bit(FindsStop(before, t, mv)))
  }

  lemma StepEnters(s: State, t: nat, mv: Move)
    requires t < |s.roles|
    ensures var s' := Step(s, t, mv);
            Bit(Submitting(s'.roles[t])) + |s'.pushed| + Bit(FindsStop(s, t, mv))
            == Bit(Submitting(s.roles[t])) + |s.pushed| + Bit(CallsEnqueue(s, t, mv))
  {
    hide CallStep, WorkerStep, WakeWorkers, WakeWaiters;
    if s.roles[t].Client? || s.roles[t].Running? {
      if !(s.roles[t].Running? && mv.Finish? && s.roles[t].call.NoCall?) { CallEnters(s, t, mv); }
    } else if !s.roles[t].WorkerSleep? && mv.Advance? {
      WorkerCallsNothing(s, t);
      WorkerPushesNothing(s, t);
    }
  }

  lemma CallEnters(s: State, t: nat, mv: Move)
    requires t < |s.roles| && (s.roles[t].Client? || s.roles[t].Running?)
    ensures var s' := CallStep(s, t, s.roles[t].call, mv);
            Bit(Submitting(s'.roles[t])) + |s'.pushed| + Bit(FindsStop(s, t, mv))
            == Bit(Submitting(s.roles[t])) + |s.pushed| + Bit(CallsEnqueue(s, t, mv))
  {
    hide CallStep, Joined, SomeoneSleeps, Count;
    var call := s.roles[t].call;
    if Quiet(s, t, mv) {
      CallIs(s, t, mv);
    } else if call.EnqPush? {
      Pushes(s, t, mv.target);
    } else {
      EntersNothing(s, t, mv.target);
    }
  }

  lemma Pushes(s: State, t: nat, target: nat)
    requires t < |s.roles| && (s.roles[t].Client? || s.roles[t].Running?) && s.roles[t].call.EnqPush?
    ensures var s' := CallStep(s, t, s.roles[t].call, Advance(target));
            if s.owner.Free? then |s'.pushed| == |s.pushed| + 1 && CallOf(s'.roles[t]).EnqNotify? else s' == s
  {
  }

  lemma EntersNothing(s: State, t: nat, target: nat)
    requires t < |s.roles| && (s.roles[t].Client? || s.roles[t].Running?)
    requires s.roles[t].call.StopSet? || s.roles[t].call.StopNotify? || s.roles[t].call.EnqNotify?
    ensures var s' := CallStep(s, t, s.roles[t].call, Advance(target));
            s'.pushed == s.pushed && !Submitting(s'.roles[t])
  {
    hide Joined, SomeoneSleeps, Count;
  }

  lemma WorkerPushesNothing(s: State, t: nat)
    requires t < |s.roles|
    ensures WorkerStep(s, t).pushed == s.pushed
  {
  }

  lemma SubmittingCounted(s: State, t: nat, mv: Move)
    requires t < |s.roles|
    ensures var s' := Step(s, t, mv);
            Count(s'.roles, Submitting) + Bit(Submitting(s.roles[t]))
            == Count(s.roles, Submitting) + Bit(Submitting(s'.roles[t]))
  {
    hide Step, Count;
    var s' := Step(s, t, mv);
    CountUpdate(s.roles, t, s'.roles[t], Submitting);
    forall w | 0 <= w < |s.roles|
      ensures Submitting(s'.roles[w]) == Submitting(s.roles[t := s'.roles[t]][w])
    {
      StepWakes(s, t, mv, w);
    }
    CountSame(s.roles[t := s'.roles[t]], s'.roles, Submitting);
  }

  /** In every run: every submission put its task into the queue, or found `stop_` set on entering enqueue, or is
      still on its way; so none is refused before the destructor was called. */
  lemma {:induction false} NothingRefusedBeforeStop(workers: nat, clients: nat, moves: Schedule)
    ensures var s, (calls, refused) := Run(Init(workers, clients), moves), Submissions(Init(workers, clients), moves);
            && calls == |s.pushed| + refused + Count(s.roles, Submitting)
            && (!s.stop ==> refused == 0)
  {
    hide Step, Count;
    var s0 := Init(workers, clients);
    if moves == [] {
      CountPositive(s0.roles, Submitting);
    } else {
      var last := |moves| - 1;
      var s, t, mv := Run(s0, moves[..last]), moves[last].0, moves[last].1;
      NothingRefusedBeforeStop(workers, clients, moves[..last]);
      if t < |s.roles| {
        StepEnters(s, t, mv);
        SubmittingCounted(s, t, mv);
      }
      StopStays(s, t, mv);
    }
  }

  lemma StopStays(s: State, t: nat, mv: Move)
    ensures s.stop ==> Step(s, t, mv).stop
    ensures t >= |s.roles| ==> Step(s, t, mv) == s
  {
    hide Joined, SomeoneSleeps, Count, WakeWorkers, WakeWaiters;
  }

  /** Whoever sleeps on a condition may wake up for no reason, and then goes for the lock. */
  lemma SleepersMayWake(s: State, t: nat)
    requires t < |s.roles|
    ensures s.roles[t].WorkerSleep? ==> Step(s, t, Wake) == Become(s, t, WorkerLock)
    ensures CallOf(s.roles[t]).WaitSleep? ==> Step(s, t, Wake) == Become(s, t, WithCall(s.roles[t], WaitLock))
  {
  }

  lemma UnrunWhenJoined(s: State)
    requires Inv(s) && Joined(s.roles)
    ensures |s.queue| <= s.latecomers && s.active == 0
    ensures forall k: nat :: s.ended[k] == Bit(k < |s.pushed| - |s.queue|)
  {
    hide Roles, WakeUps;
    CountPositive(s.roles, Active);
    forall k: nat
      ensures s.ended[k] == Bit(k < |s.pushed| - |s.queue|)
    {
      CountPositive(s.roles, Runners(k));
      assert s.ended[k] + Count(s.roles, Runners(k)) == Bit(k < s.popped);
    }
  }

  predicate InDestructor(call: Call) {
    call.StopSet? || call.StopNotify? || call.StopJoin?
  }

  /** The step in which a destructor in thread `t` comes to its end. */
  predicate DestructorReturns(s: State, t: nat, mv: Move) {
    t < |s.roles| && InDestructor(CallOf(s.roles[t])) && !InDestructor(CallOf(Step(s, t, mv).roles[t]))
  }

  /** The destructor comes to its end at exactly the steps of its thread after the last worker has left its loop. */
  lemma DestructorEnds(s: State, t: nat, mv: Move)
    requires Inv(s)
    ensures DestructorReturns(s, t, mv)
            <==> && t < |s.roles| && s.roles[t] == Client(StopJoin) && mv.Advance?
                 && forall u :: 0 <= u < |s.roles| ==> s.roles[u].Client? || s.roles[u].Exited?
    ensures t < |s.roles| && CallOf(s.roles[t]).StopReturned? && mv.Advance? ==>
              CallOf(Step(s, t, mv).roles[t]).NoCall?
  {
    hide Fifo, Tickets, WakeUps, Draining, WorkerStep;
    if t < |s.roles| {
      assert RoleOk(s, s.roles[t]);
    }
  }

  /** What a step can do to another thread: wake it up. */
  predicate SameOrWoken(r: Role, r': Role) {
    r' == r || (r.WorkerSleep? && r'.WorkerLock?) || (CallOf(r).WaitSleep? && r' == WithCall(r, WaitLock))
  }

  lemma CallWakes(s: State, u: nat, mv: Move, w: nat)
    requires u < |s.roles| && (s.roles[u].Client? || s.roles[u].Running?) && w < |s.roles|
    ensures var s' := CallStep(s, u, s.roles[u].call, mv);
            && (w != u ==> SameOrWoken(s.roles[w], s'.roles[w]))
            && (s.roles[w].Client? ==> s'.roles[w].Client?)
            && (s.roles[w].Exited? ==> s'.roles[w].Exited?)
  {
    hide CallStep;
    if mv.Advance? && (s.roles[u].call.EnqNotify? || s.roles[u].call.StopNotify?) {
      NotifyWakes(s, u, mv.target, w);
    } else {
      CallShape(s, u, mv);
    }
  }

  lemma NotifyWakes(s: State, u: nat, target: nat, w: nat)
    requires u < |s.roles| && (s.roles[u].Client? || s.roles[u].Running?) && w < |s.roles|
    requires s.roles[u].call.EnqNotify? || s.roles[u].call.StopNotify?
    ensures var s' := CallStep(s, u, s.roles[u].call, Advance(target));
            && (w != u ==> SameOrWoken(s.roles[w], s'.roles[w]))
            && (s.roles[w].Client? ==> s'.roles[w].Client?)
            && (s.roles[w].Exited? ==> s'.roles[w].Exited?)
  {
    hide Joined, SomeoneSleeps, Count;
  }

  lemma WorkerWakes(s: State, u: nat, w: nat)
    requires u < |s.roles| && !s.roles[u].Client? && !s.roles[u].Running? && w < |s.roles|
    ensures var s' := WorkerStep(s, u);
            && (w != u ==> SameOrWoken(s.roles[w], s'.roles[w]))
            && (s.roles[w].Client? ==> s'.roles[w].Client?)
            && (s.roles[w].Exited? ==> s'.roles[w].Exited?)
  {
  }

  lemma StepWakes(s: State, u: nat, mv: Move, w: nat)
    requires w < |s.roles|
    ensures var s' := Step(s, u, mv);
            && (w != u ==> SameOrWoken(s.roles[w], s'.roles[w]))
            && (s.roles[w].Client? ==> s'.roles[w].Client?)
            && (s.roles[w].Exited? ==> s'.roles[w].Exited?)
  {
    hide CallStep, WorkerStep, SameOrWoken;
    assert SameOrWoken(s.roles[w], s.roles[w]) by { SameIsFine(s.roles[w]); }
    if u < |s.roles| {
      if s.roles[u].Client? || s.roles[u].Running? {
        CallWakes(s, u, mv, w);
      } else {
        WorkerWakes(s, u, w);
      }
    }
  }

  lemma SameIsFine(r: Role)
    ensures SameOrWoken(r, r)
  {
  }

  /** Nothing but the end of the destructor makes its thread have returned. */
  lemma JoinedOnReturn(s: State, t: nat, u: nat, mv: Move)
    requires Inv(s) && t < |s.roles| && CallOf(Step(s, u, mv).roles[t]).StopReturned?
    ensures CallOf(s.roles[t]).StopReturned? || Joined(s.roles)
  {
    hide Inv, Step, Joined;
    StepWakes(s, u, mv, t);
    if u == t {
      ReturnsWhenJoined(s, t, mv);
    }
  }

  lemma ReturnsWhenJoined(s: State, t: nat, mv: Move)
    requires t < |s.roles| && CallOf(Step(s, t, mv).roles[t]).StopReturned?
    ensures CallOf(s.roles[t]).StopReturned? || Joined(s.roles)
  {
    hide CallStep, WorkerStep;
    if s.roles[t].Client? || s.roles[t].Running? {
      if !(s.roles[t].Running? && mv.Finish? && s.roles[t].call.NoCall?) { CallReturnsWhenJoined(s, t, mv); }
    } else {
      WorkerCallsNothing(s, t);
    }
  }

  lemma CallReturnsWhenJoined(s: State, t: nat, mv: Move)
    requires t < |s.roles| && (s.roles[t].Client? || s.roles[t].Running?)
    requires CallOf(CallStep(s, t, s.roles[t].call, mv).roles[t]).StopReturned?
    ensures CallOf(s.roles[t]).StopReturned? || Joined(s.roles)
  {
    hide Joined, SomeoneSleeps, Count;
  }

  lemma WorkerCallsNothing(s: State, t: nat)
    requires t < |s.roles| && !s.roles[t].Client? && !s.roles[t].Running?
    ensures CallOf(WorkerStep(s, t).roles[t]).NoCall?
  {
  }

  lemma JoinedStays(s: State, u: nat, mv: Move)
    requires Joined(s.roles)
    ensures Joined(Step(s, u, mv).roles)
  {
    hide Step;
    forall w | 0 <= w < |s.roles| {
      StepWakes(s, u, mv, w);
    }
  }

  /** In every run: when the destructor has returned in some thread, every worker has left its loop. */
  lemma {:induction false} DestructorJoins(workers: nat, clients: nat, moves: Schedule, t: nat)
    requires workers > 0
    requires var s := Run(Init(workers, clients), moves); t < |s.roles| && CallOf(s.roles[t]).StopReturned?
    ensures var s := Run(Init(workers, clients), moves);
            Inv(s) && forall u :: 0 <= u < |s.roles| ==> s.roles[u].Client? || s.roles[u].Exited?
  {
    hide Inv, Step, Joined;
    InitInv(workers, clients);
    RunKeepsInv(Init(workers, clients), moves);
    if moves != [] {
      var last := |moves| - 1;
      var s, u, mv := Run(Init(workers, clients), moves[..last]), moves[last].0, moves[last].1;
      RunKeepsInv(Init(workers, clients), moves[..last]);
      JoinedOnReturn(s, t, u, mv);
      if CallOf(s.roles[t]).StopReturned? {
        DestructorJoins(workers, clients, moves[..last], t);
        JoinedIs(s);
      }
      JoinedStays(s, u, mv);
      JoinedIs(Step(s, u, mv));
    }
  }

  lemma JoinedIs(s: State)
    ensures Joined(s.roles) <==> forall u :: 0 <= u < |s.roles| ==> s.roles[u].Client? || s.roles[u].Exited?
  {
  }

  /** In every run, once the destructor has returned in some thread: every task taken ended exactly once, and the
      queue holds at most as many tasks as there were clients past enqueue's stop check when `stop_` was set. */
  lemma UnrunAreLate(workers: nat, clients: nat, moves: Schedule, t: nat)
    requires workers > 0
    requires var s := Run(Init(workers, clients), moves); t < |s.roles| && CallOf(s.roles[t]).StopReturned?
    ensures var s := Run(Init(workers, clients), moves);
            && |s.queue| <= s.latecomers && s.active == 0
            && forall k: nat :: s.ended[k] == Bit(k < |s.pushed| - |s.queue|)
  {
    hide Inv, Step, Init;
    DestructorJoins(workers, clients, moves, t);
    UnrunWhenJoined(Run(Init(workers, clients), moves));
  }

  /** So the destructor drains the queue, unless such a client was there when `stop_` was set. */
  lemma DrainsExactlyOnce(workers: nat, clients: nat, moves: Schedule, t: nat)
    requires workers > 0
    requires var s := Run(Init(workers, clients), moves);
             t < |s.roles| && CallOf(s.roles[t]).StopReturned? && s.latecomers == 0
    ensures var s := Run(Init(workers, clients), moves);
            s.queue == [] && s.active == 0 && forall k: nat :: k < |s.pushed| ==> s.ended[k] == 1
  {
    hide Step, Init;
    UnrunAreLate(workers, clients, moves, t);
  }

  // ---------------------------------------------------------------- what wait_all does not guarantee

  ghost predicate Reaches(s: State, s': State) {
    exists moves :: Run(s, moves) == s'
  }

  lemma ReachesStep(s: State, s': State, t: nat, mv: Move, next: State)
    requires Reaches(s, s') && Step(s', t, mv) == next
    ensures Reaches(s, next)
  {
    var moves :| Run(s, moves) == s';
    assert (moves + [(t, mv)])[..|moves|] == moves;
    assert Run(s, moves + [(t, mv)]) == next;
  }

  /** The pool with one worker, one client and one task, without a destructor. */
  function Scene(queue: seq<nat>, owner: Owner, active: int, worker: Role, call: Call, id: nat, popped: nat,
      ended: multiset<nat>): State {
    State(queue, owner, false, active, [worker, Client(call)], [id], popped, ended, false, 0)
  }

  lemma TaskWaits(id: nat) returns (s: State)
    ensures Reaches(Init(1, 1), s) && s == Scene([id], Free, 0, WorkerLock, NoCall, id, 0, multiset{})
  {
    hide Reaches;
    var s0, a := Init(1, 1), Advance(0);
    assert Reaches(s0, s0) by { AtOnce(s0); }
    assert s0.roles == [WorkerLock, Client(NoCall)];
    var s1 := s0.(roles := [WorkerLock, Client(EnqCheckStop(id))]);
    ReachesStep(s0, s0, 1, Invoke(Submit(id)), s1);
    var s2 := s0.(roles := [WorkerLock, Client(EnqPush(id))]);
    ReachesStep(s0, s1, 1, a, s2);
    var s3 := Scene([id], Free, 0, WorkerLock, EnqNotify, id, 0, multiset{});
    ReachesStep(s0, s2, 1, a, s3);
    s := Scene([id], Free, 0, WorkerLock, NoCall, id, 0, multiset{});
    ReachesStep(s0, s3, 1, a, s);
  }

  lemma AtOnce(s: State)
    ensures Reaches(s, s)
  {
    assert Run(s, []) == s;
  }

  /** wait_all tests its predicate while the task runs. */
  lemma WaitSeesTask(id: nat, s1: State) returns (s: State)
    requires Reaches(Init(1, 1), s1) && s1 == Scene([id], Free, 0, WorkerLock, NoCall, id, 0, multiset{})
    ensures Reaches(Init(1, 1), s) && s == Scene([], HeldBy(1), 1, Running(0, NoCall), WaitBlock, id, 1, multiset{})
  {
    hide Reaches, Init;
    var s0, a := Init(1, 1), Advance(0);
    var s2 := Scene([id], HeldBy(0), 0, WorkerTest, NoCall, id, 0, multiset{});
    ReachesStep(s0, s1, 0, a, s2);
    var s3 := Scene([], Free, 1, Running(0, NoCall), NoCall, id, 1, multiset{});
    ReachesStep(s0, s2, 0, a, s3);
    var s4 := s3.(roles := [Running(0, NoCall), Client(WaitLock)]);
    ReachesStep(s0, s3, 1, Invoke(WaitAll), s4);
    var s5 := Scene([], HeldBy(1), 1, Running(0, NoCall), WaitTest, id, 1, multiset{});
    ReachesStep(s0, s4, 1, a, s5);
    s := Scene([], HeldBy(1), 1, Running(0, NoCall), WaitBlock, id, 1, multiset{});
    ReachesStep(s0, s5, 1, a, s);
  }

  /** The task ends, is counted down and announced before wait_all sleeps. */
  lemma WaitSleepsTooLate(id: nat, s1: State) returns (s: State)
    requires Reaches(Init(1, 1), s1) && s1 == Scene([], HeldBy(1), 1, Running(0, NoCall), WaitBlock, id, 1, multiset{})
    ensures Reaches(Init(1, 1), s) && s == Scene([], Free, 0, WorkerLock, WaitSleep, id, 1, multiset{0})
  {
    hide Reaches, Init;
    var s0, a := Init(1, 1), Advance(0);
    var s2 := Scene([], HeldBy(1), 1, CountDown(0), WaitBlock, id, 1, multiset{0});
    ReachesStep(s0, s1, 0, Finish, s2);
    var s3 := Scene([], HeldBy(1), 0, Announce, WaitBlock, id, 1, multiset{0});
    ReachesStep(s0, s2, 0, a, s3);
    var s4 := Scene([], HeldBy(1), 0, WorkerLock, WaitBlock, id, 1, multiset{0});
    ReachesStep(s0, s3, 0, a, s4);
    s := Scene([], Free, 0, WorkerLock, WaitSleep, id, 1, multiset{0});
    ReachesStep(s0, s4, 1, a, s);
  }

  lemma WorkerSleeps(id: nat, s1: State) returns (s: State)
    requires Reaches(Init(1, 1), s1) && s1 == Scene([], Free, 0, WorkerLock, WaitSleep, id, 1, multiset{0})
    ensures Reaches(Init(1, 1), s) && s == Scene([], Free, 0, WorkerSleep, WaitSleep, id, 1, multiset{0})
  {
    hide Reaches, Init;
    var s0, a := Init(1, 1), Advance(0);
    var s2 := Scene([], HeldBy(0), 0, WorkerTest, WaitSleep, id, 1, multiset{0});
    ReachesStep(s0, s1, 0, a, s2);
    var s3 := Scene([], HeldBy(0), 0, WorkerBlock, WaitSleep, id, 1, multiset{0});
    ReachesStep(s0, s2, 0, a, s3);
    s := Scene([], Free, 0, WorkerSleep, WaitSleep, id, 1, multiset{0});
    ReachesStep(s0, s3, 0, a, s);
  }

  lemma {:induction false} AllAsleep(s: State, moves: Schedule)
    requires s.roles == [WorkerSleep, Client(WaitSleep)] && forall i :: 0 <= i < |moves| ==> !moves[i].1.Wake?
    ensures Run(s, moves) == s
  {
    if moves != [] {
      AllAsleep(s, moves[..|moves| - 1]);
    }
  }

  /** The announcement of the last task can come while wait_all, having seen that task active, holds the
      lock and does not sleep yet. wait_all then sleeps although every task has ended, and without a
      spurious wake-up it sleeps for ever. */
  lemma WaitAllSleepsForEver(id: nat) returns (s: State)
    ensures Reaches(Init(1, 1), s) && CallOf(s.roles[1]).WaitSleep?
    ensures s.queue == [] && s.active == 0 && s.pushed == [id] && s.ended == multiset{0}
    ensures forall moves: Schedule :: (forall i :: 0 <= i < |moves| ==> !moves[i].1.Wake?) ==> Run(s, moves) == s
  {
    hide Reaches, Init, Step, Run;
    s := TaskWaits(id);
    s := WaitSeesTask(id, s);
    s := WaitSleepsTooLate(id, s);
    s := WorkerSleeps(id, s);
    forall moves: Schedule | forall i :: 0 <= i < |moves| ==> !moves[i].1.Wake?
      ensures Run(s, moves) == s
    {
      AllAsleep(s, moves);
    }
  }

  // ---------------------------------------------------------------- exactly when an announcement is missed

  predicate SomeoneAnnounces(roles: seq<Role>) {
    exists u :: 0 <= u < |roles| && roles[u].Announce?
  }

  /** Thread `t` sleeps in wait_all, what it waits for is so, and no worker is about to announce that. */
  predicate Stuck(s: State, t: nat) {
    && t < |s.roles| && CallOf(s.roles[t]).WaitSleep?
    && s.queue == [] && s.active == 0 && !SomeoneAnnounces(s.roles)
  }

  /** The step puts thread `t` to sleep in wait_all when what it waits for is so and nobody is left to announce it. */
  predicate SleepsTooLate(s: State, t: nat, u: nat, mv: Move) {
    && u == t < |s.roles| && mv.Advance? && CallOf(s.roles[t]).WaitBlock?
    && s.queue == [] && s.active == 0 && !SomeoneAnnounces(s.roles)
  }

  lemma WorkersDoNotStrand(s: State, t: nat, u: nat)
    requires s.active >= 0 && !Stuck(s, t) && u < |s.roles| && !s.roles[u].Client? && !s.roles[u].Running?
    ensures !Stuck(WorkerStep(s, u), t)
  {
    var s' := WorkerStep(s, u);
    if s.roles[u].CountDown? {
      assert s'.roles[u].Announce?;
    }
    if w :| 0 <= w < |s.roles| && w != u && s.roles[w].Announce? {
      assert s'.roles[w].Announce?;
    }
  }

  /** What a step of a call does to its thread, if it notifies nobody. */
  lemma CallShape(s: State, u: nat, mv: Move)
    requires u < |s.roles| && (s.roles[u].Client? || s.roles[u].Running?)
    requires mv.Advance? ==> !s.roles[u].call.EnqNotify? && !s.roles[u].call.StopNotify?
    ensures var call, s' := s.roles[u].call, CallStep(s, u, s.roles[u].call, mv);
            var call' := CallOf(s'.roles[u]);
            && s'.roles == s.roles[u := WithCall(s.roles[u], call')]
            && s'.active == s.active && |s'.queue| - |s.queue| == |s'.pushed| - |s.pushed| >= 0
            && (call'.WaitSleep? <==> (call.WaitSleep? && !mv.Wake?) || (mv.Advance? && call.WaitBlock?))
            && (call.WaitBlock? ==> s'.queue == s.queue)
  {
    hide Joined;
    if Quiet(s, u, mv) {
      QuietShape(s, u, mv);
    } else {
      assert s.roles == s.roles[u := s.roles[u]];
    }
  }

  lemma QuietShape(s: State, u: nat, mv: Move)
    requires u < |s.roles| && (s.roles[u].Client? || s.roles[u].Running?) && Quiet(s, u, mv)
    ensures var call, s' := s.roles[u].call, CallStep(s, u, s.roles[u].call, mv);
            var call' := CallOf(s'.roles[u]);
            && s'.roles == s.roles[u := WithCall(s.roles[u], call')]
            && s'.active == s.active && s'.queue == s.queue && s'.pushed == s.pushed
            && (call'.WaitSleep? <==> (call.WaitSleep? && !mv.Wake?) || (mv.Advance? && call.WaitBlock?))
  {
    hide CallStep, Joined;
    CallIs(s, u, mv);
  }

  /** A notification for workers wakes no waiter. */
  lemma NotifyShape(s: State, u: nat, target: nat)
    requires u < |s.roles| && (s.roles[u].Client? || s.roles[u].Running?)
    requires s.roles[u].call.EnqNotify? || s.roles[u].call.StopNotify?
    ensures var s' := CallStep(s, u, s.roles[u].call, Advance(target));
            && s'.active == s.active && s'.queue == s.queue && s'.pushed == s.pushed
            && forall w :: 0 <= w < |s.roles| ==>
                 && (s'.roles[w].Announce? <==> s.roles[w].Announce?)
                 && (CallOf(s'.roles[w]).WaitSleep? <==> CallOf(s.roles[w]).WaitSleep?)
  {
    hide Joined, SomeoneSleeps;
  }

  /** Who sleeps in wait_all, and who announces, after a step of a call. */
  lemma CallSleeps(s: State, t: nat, u: nat, mv: Move)
    requires t < |s.roles| && u < |s.roles| && (s.roles[u].Client? || s.roles[u].Running?)
    ensures var s' := CallStep(s, u, s.roles[u].call, mv);
            && s'.active == s.active && |s'.queue| - |s.queue| == |s'.pushed| - |s.pushed| >= 0
            && (CallOf(s'.roles[t]).WaitSleep? <==>
                  (CallOf(s.roles[t]).WaitSleep? && !(u == t && mv.Wake?))
                  || (u == t && mv.Advance? && CallOf(s.roles[t]).WaitBlock?))
            && (u == t && CallOf(s.roles[t]).WaitBlock? ==> s'.queue == s.queue)
            && (SomeoneAnnounces(s'.roles) <==> SomeoneAnnounces(s.roles))
  {
    hide CallStep;
    if mv.Advance? && (s.roles[u].call.EnqNotify? || s.roles[u].call.StopNotify?) {
      NotifyShape(s, u, mv.target);
    } else {
      CallShape(s, u, mv);
      var s' := CallStep(s, u, s.roles[u].call, mv);
      assert forall w :: 0 <= w < |s.roles| ==> (s'.roles[w].Announce? <==> s.roles[w].Announce?);
    }
  }

  lemma CallsStrandThemselves(s: State, t: nat, u: nat, mv: Move)
    requires !Stuck(s, t) && u < |s.roles| && (s.roles[u].Client? || s.roles[u].Running?)
    ensures Stuck(CallStep(s, u, s.roles[u].call, mv), t) <==> SleepsTooLate(s, t, u, mv)
  {
    hide CallStep, SomeoneAnnounces;
    if t < |s.roles| {
      CallSleeps(s, t, u, mv);
    }
  }

  /** That is the only step that leaves a waiter stuck: a worker that makes wait_all's predicate true
      announces it afterwards, and whoever sleeps then is woken. */
  lemma StuckExactly(s: State, t: nat, u: nat, mv: Move)
    requires Inv(s) && !Stuck(s, t)
    ensures Stuck(Step(s, u, mv), t) <==> SleepsTooLate(s, t, u, mv)
  {
    hide Roles, Fifo, WakeUps, Draining, CallStep, WorkerStep;
    if u < |s.roles| {
      if s.roles[u].WorkerSleep? || (s.roles[u].Running? && mv.Finish? && s.roles[u].call.NoCall?) {
        RoleChangeStrandsNobody(s, t, u, Step(s, u, mv));
      } else if s.roles[u].Client? || s.roles[u].Running? {
        CallsStrandThemselves(s, t, u, mv);
      } else if mv.Advance? {
        WorkersDoNotStrand(s, t, u);
      }
    }
  }

  lemma RoleChangeStrandsNobody(s: State, t: nat, u: nat, s': State)
    requires !Stuck(s, t) && u < |s.roles| == |s'.roles| && s'.roles == s.roles[u := s'.roles[u]]
    requires !CallOf(s'.roles[u]).WaitSleep? && !s.roles[u].Announce? && s'.queue == s.queue && s'.active == s.active
    ensures !Stuck(s', t)
  {
    if w :| 0 <= w < |s.roles| && s.roles[w].Announce? {
      assert s'.roles[w].Announce?;
    }
  }

  lemma IdleWorkersFreeNobody(s: State, t: nat, u: nat)
    requires Stuck(s, t) && u < |s.roles| && !s.roles[u].Client? && !s.roles[u].Running? && !s.roles[u].CountDown?
    ensures Stuck(WorkerStep(s, u), t) && WorkerStep(s, u).pushed == s.pushed
  {
  }

  /** What frees a stuck waiter: a new task, or a spurious wake-up of that waiter, and nothing else. */
  lemma StuckEnds(s: State, t: nat, u: nat, mv: Move)
    requires Inv(s) && Stuck(s, t)
    ensures !Stuck(Step(s, u, mv), t) <==> (u == t && mv.Wake?) || |Step(s, u, mv).pushed| > |s.pushed|
  {
    hide Roles, Fifo, WakeUps, Draining, CallStep, WorkerStep, SomeoneAnnounces;
    CountPositive(s.roles, Active);
    if u < |s.roles| {
      assert !Active(s.roles[u]);
      if s.roles[u].Client? {
        CallSleeps(s, t, u, mv);
      } else if s.roles[u].WorkerSleep? {
        WakeFreesNobody(s, t, u);
      } else {
        IdleWorkersFreeNobody(s, t, u);
      }
    }
  }

  lemma WakeFreesNobody(s: State, t: nat, u: nat)
    requires Stuck(s, t) && u < |s.roles| && s.roles[u].WorkerSleep?
    ensures Stuck(Become(s, u, WorkerLock), t)
  {
  }

  /** At step `i` of the run thread `t` went to sleep too late, and it was stuck ever since. */
  ghost predicate StuckSince(s: State, moves: Schedule, t: nat, i: nat) {
    && i < |moves| && SleepsTooLate(Run(s, moves[..i]), t, moves[i].0, moves[i].1)
    && forall j :: i < j <= |moves| ==> Stuck(Run(s, moves[..j]), t)
  }

  /** Over whole runs: when everything enqueued has been done and counted down, a thread that still sleeps in
      wait_all has a worker on its way to wake it, unless it went to sleep after that worker's announcement;
      and exactly then it is stuck. */
  lemma {:induction false} WaitersAreWoken(workers: nat, clients: nat, moves: Schedule, t: nat)
    requires workers > 0
    ensures var s := Run(Init(workers, clients), moves);
            && Inv(s)
            && (Stuck(s, t) <==> exists i: nat :: StuckSince(Init(workers, clients), moves, t, i))
            && (t < |s.roles| && CallOf(s.roles[t]).WaitSleep? && s.queue == [] && s.active == 0 ==>
                  SomeoneAnnounces(s.roles) || exists i: nat :: StuckSince(Init(workers, clients), moves, t, i))
  {
    hide Inv, Step, SomeoneAnnounces;
    var s0 := Init(workers, clients);
    InitInv(workers, clients);
    assert moves[..|moves|] == moves;
    if moves == [] {
    } else {
      var last := |moves| - 1;
      var front, u, mv := moves[..last], moves[last].0, moves[last].1;
      var s := Run(s0, front);
      WaitersAreWoken(workers, clients, front, t);
      StepKeepsInv(s, u, mv);
      assert Run(s0, moves) == Step(s, u, mv);
      if Stuck(Run(s0, moves), t) {
        if Stuck(s, t) {
          var i: nat :| StuckSince(s0, front, t, i);
          Extends(s0, moves, t, i);
        } else {
          StuckExactly(s, t, u, mv);
          assert StuckSince(s0, moves, t, last);
        }
      }
    }
  }

  lemma Extends(s: State, moves: Schedule, t: nat, i: nat)
    requires moves != [] && StuckSince(s, moves[..|moves| - 1], t, i) && Stuck(Run(s, moves), t)
    ensures StuckSince(s, moves, t, i)
  {
    hide Stuck, SleepsTooLate, Run;
    var front := moves[..|moves| - 1];
    assert front[..i] == moves[..i];
    forall j | i < j <= |moves|
      ensures Stuck(Run(s, moves[..j]), t)
    {
      if j < |moves| { assert front[..j] == moves[..j]; } else { assert moves[..j] == moves; }
    }
  }

  // ---------------------------------------------------------------- submissions that overlap the destructor

  /** `workers` workers, of which `out` have exited; `late` clients, of which `entered` are or were past the
      stop check and `sent` have returned; and a client that calls the destructor. */
  function Cast(workers: nat, late: nat, entered: nat, out: nat, sent: nat, last: Call): (roles: seq<Role>)
    ensures |roles| == workers + late + 1
  {
    seq(workers + late + 1, u requires 0 <= u =>
          if u < workers then (if u < out then Exited else WorkerLock)
          else if u < workers + late then Client(if workers + sent <= u < workers + entered then EnqPush(u) else NoCall)
          else Client(last))
  }

  function Ids(first: nat, n: nat): (ids: seq<nat>)
    ensures |ids| == n
  {
    seq(n, i requires 0 <= i => first + i)
  }

  /** Before the stop, with `entered` clients past the stop check. */
  function Entering(workers: nat, late: nat, entered: nat, last: Call): State {
    State([], Free, false, 0, Cast(workers, late, entered, 0, 0, last), [], 0, multiset{}, false, 0)
  }

  /** After the stop, with `out` workers gone and `sent` late tasks in the queue. */
  function Leaving(workers: nat, late: nat, out: nat, sent: nat, last: Call): State {
    State(Ids(workers, sent), Free, true, 0, Cast(workers, late, late, out, sent, last), Ids(workers, sent), 0,
          multiset{}, !last.StopNotify?, late)
  }

  lemma {:induction false} ClientsEnter(workers: nat, late: nat, entered: nat)
    requires entered <= late
    ensures Reaches(Init(workers, late + 1), Entering(workers, late, entered, NoCall))
    ensures Count(Cast(workers, late, entered, 0, 0, NoCall), Late) == entered
  {
    hide Reaches;
    var s0, a := Init(workers, late + 1), Advance(0);
    if entered == 0 {
      AtOnce(s0);
      assert s0.roles == Cast(workers, late, 0, 0, 0, NoCall);
      CountPositive(s0.roles, Late);
    } else {
      ClientsEnter(workers, late, entered - 1);
      var s, u := Entering(workers, late, entered - 1, NoCall), workers + entered - 1;
      ReachesStep(s0, s, u, Invoke(Submit(u)), Become(s, u, Client(EnqCheckStop(u))));
      var cast := Cast(workers, late, entered, 0, 0, NoCall);
      assert s.roles[u := Client(EnqCheckStop(u))][u := Client(EnqPush(u))] == cast;
      assert s.roles[u := Client(EnqPush(u))] == cast;
      ReachesStep(s0, Become(s, u, Client(EnqCheckStop(u))), u, a, Entering(workers, late, entered, NoCall));
      CountUpdate(s.roles, u, Client(EnqPush(u)), Late);
    }
  }

  /** The destructor sets `stop_` and wakes the workers. */
  lemma StopsMeanwhile(workers: nat, late: nat)
    ensures Reaches(Init(workers, late + 1), Leaving(workers, late, 0, 0, StopJoin))
  {
    hide Reaches, Count;
    var s0, a, t := Init(workers, late + 1), Advance(0), workers + late;
    ClientsEnter(workers, late, late);
    var s1, s2 := Entering(workers, late, late, NoCall), Entering(workers, late, late, StopSet);
    assert s1.roles[t := Client(StopSet)] == s2.roles;
    ReachesStep(s0, s1, t, Invoke(Shutdown), s2);
    CountUpdate(s1.roles, t, Client(StopSet), Late);
    var s3 := Leaving(workers, late, 0, 0, StopNotify);
    assert s2.roles[t := Client(StopNotify)] == s3.roles;
    ReachesStep(s0, s2, t, a, s3);
    var s4 := Leaving(workers, late, 0, 0, StopJoin);
    assert WakeWorkers(s3.roles) == s3.roles && s3.roles[t := Client(StopJoin)] == s4.roles;
    ReachesStep(s0, s3, t, a, s4);
  }

  lemma {:induction false} WorkersLeave(workers: nat, late: nat, out: nat)
    requires out <= workers
    ensures Reaches(Init(workers, late + 1), Leaving(workers, late, out, 0, StopJoin))
  {
    hide Reaches, Init;
    if out == 0 {
      StopsMeanwhile(workers, late);
    } else {
      WorkersLeave(workers, late, out - 1);
      var s0, a, u := Init(workers, late + 1), Advance(0), out - 1;
      var s, s' := Leaving(workers, late, out - 1, 0, StopJoin), Leaving(workers, late, out, 0, StopJoin);
      var testing := Become(s, u, WorkerTest).(owner := HeldBy(u));
      ReachesStep(s0, s, u, a, testing);
      assert testing.roles[u := Exited] == s'.roles;
      ReachesStep(s0, testing, u, a, s');
    }
  }

  lemma {:induction false} LateTasksArrive(workers: nat, late: nat, sent: nat)
    requires sent <= late
    ensures Reaches(Init(workers, late + 1), Leaving(workers, late, workers, sent, StopJoin))
  {
    hide Reaches, Init;
    if sent == 0 {
      WorkersLeave(workers, late, workers);
    } else {
      LateTasksArrive(workers, late, sent - 1);
      var s0, a, u := Init(workers, late + 1), Advance(0), workers + sent - 1;
      var s, s' := Leaving(workers, late, workers, sent - 1, StopJoin), Leaving(workers, late, workers, sent, StopJoin);
      assert Ids(workers, sent - 1) + [u] == Ids(workers, sent);
      var pushed := Become(s, u, Client(EnqNotify)).(queue := Ids(workers, sent), pushed := Ids(workers, sent));
      ReachesStep(s0, s, u, a, pushed);
      assert pushed.roles[u := Client(NoCall)] == s'.roles;
      ReachesStep(s0, pushed, u, a, s');
    }
  }

  /** The bound of UnrunAreLate is met: for any number of workers, and of clients past the stop check when
      `stop_` is set, the destructor can return with all their tasks accepted and none of them run. */
  lemma OverlapLosesTasks(workers: nat, late: nat) returns (s: State)
    ensures Reaches(Init(workers, late + 1), s) && Joined(s.roles) && |s.roles| == workers + late + 1
    ensures s.roles[workers + late] == Client(StopReturned)
    ensures forall u :: workers <= u < workers + late ==> s.roles[u] == Client(NoCall)
    ensures s.latecomers == late == |s.queue| == |s.pushed| && s.ended == multiset{}
  {
    hide Reaches, Init;
    LateTasksArrive(workers, late, late);
    s := Leaving(workers, late, workers, late, StopJoin);
    var t := workers + late;
    var s' := Leaving(workers, late, workers, late, StopReturned);
    assert s.roles[t := Client(StopReturned)] == s'.roles;
    ReachesStep(Init(workers, late + 1), s, t, Advance(0), s');
    s := s';
  }
}
