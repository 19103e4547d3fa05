/** Runs of the instrumented pool that show what its wait_all does not guarantee. */
module PoolV3Counterexamples {
  import opened RingArithmetic
  import Q = QueueMachine
  import QI = QueueInvariant
  import V2 = ThreadPoolV2
  import R2 = PoolV2Runs
  import C2 = PoolV2Counterexamples
  import opened ThreadPoolV3
  import opened PoolV3Invariant
  import opened PoolV3Steps
  import opened PoolV3Theorems
  import opened PoolV3Runs

  // ---------------------------------------------------------------- a rejected submission

  /** The inner wait_all returns at once, and the second phase reads the number of submissions. */
  lemma Polls(s0: State, s: State, t: nat) returns (s': State)
    requires WellFormed(s0) && Live(s, t) && Reaches(s0, s) && s.v2.roles[t] == V2.Client(V2.NoCall)
    requires s.v2.q.pcs[t] == Q.Idle && s.v2.q.head == s.v2.q.tail && s.v2.active == 0
    ensures Reaches(s0, s') && s' == s.(phases := s.phases[t := LoadCompleted(s.submitted)])
  {
    hide Step, V2.Step, Reaches, R2.After, R2.PassesBy;
    var n := s.v2.q.tail;
    Calls(s, t, WaitAll);
    var s1 := s.(v2 := V2.Become(s.v2, t, V2.Client(V2.WaitLoop(n))));
    ReachesStep(s0, s, t, Invoke(WaitAll), s1);
    C2.FindsAllDone(s1.v2, t);
    ReachesAfter(s0, s1, t, 5);
    var s2 := s.(v2 := V2.Become(s.v2, t, V2.Client(V2.WaitReturned(n))));
    assert s1.v2.roles[t := V2.Client(V2.WaitReturned(n))] == s2.v2.roles;
    ReturnsFromWait(s2, t, n);
    var s3 := s.(phases := s.phases[t := LoadSubmitted]);
    assert s2.v2.roles[t := V2.Client(V2.NoCall)] == s.v2.roles;
    ReachesStep(s0, s2, t, GO, s3);
    s' := s.(phases := s.phases[t := LoadCompleted(s.submitted)]);
    LoadsSubmitted(s3, t);
    assert s3.phases[t := LoadCompleted(s.submitted)] == s'.phases;
    ReachesStep(s0, s3, t, GO, s');
  }

  lemma ReturnsFromWait(s: State, t: nat, n: nat)
    requires Live(s, t) && s.v2.roles[t] == V2.Client(V2.WaitReturned(n))
    ensures Step(s, t, GO) == s.(v2 := V2.Become(s.v2, t, V2.Client(V2.NoCall)), phases := s.phases[t := LoadSubmitted])
  {
    hide Q.Next;
  }

  lemma LoadsSubmitted(s: State, t: nat)
    requires WellFormed(s) && R2.Live(s.v2, t) && s.phases[t] == LoadSubmitted
    ensures Step(s, t, GO) == ToPhase(s, t, LoadCompleted(s.submitted))
  {
  }

  lemma Rejects(s: State, t: nat)
    requires Live(s, t) && s.v2.stop && s.v2.roles[t] == V2.Client(V2.EnqCheckStop(0))
    ensures var s1 := s.(v2 := V2.Become(s.v2, t, V2.Client(V2.EnqReturned(0, false))));
            && Step(s, t, GO) == s1
            && Step(s1, t, GO)
               == s.(v2 := V2.Become(s.v2, t, V2.Client(V2.NoCall)), rejected := s.rejected + multiset{0})
  {
    hide Q.Next;
    var s1 := s.(v2 := V2.Become(s.v2, t, V2.Client(V2.EnqReturned(0, false))));
    assert s1.v2.roles[t := V2.Client(V2.NoCall)] == s.v2.roles[t := V2.Client(V2.NoCall)];
  }

  lemma SetsStop(s: State, t: nat)
    requires Live(s, t) && s.v2.roles[t] == V2.Client(V2.StopStore)
    ensures var v2' := V2.Step(s.v2, t, R2.GO);
            && Step(s, t, GO) == s.(v2 := v2')
            && v2' == V2.Become(s.v2, t, V2.Client(V2.StopJoin)).(stop := true, latecomers := v2'.latecomers)
  {
    hide Q.Next;
  }

  /** One client calls the destructor; the other one's submission is then rejected and stays counted. Its
      wait_all polls, and never returns unless somebody submits more. */
  lemma RejectedWaitNeverReturns(capacity: nat) returns (s: State)
    requires capacity >= 2
    ensures Reaches(Init(capacity, 1, 2), s) && s.rejected == multiset{0} && s.submitted == 1
    ensures |s.phases| == 3 && s.phases[2] == LoadCompleted(1)
    ensures forall moves: Schedule ::
              Run(s, moves).submitted == 1 ==> |Run(s, moves).phases| > 2 && Polling(Run(s, moves).phases[2], 1)
  {
    hide Step, V2.Step, Reaches;
    var s0 := Init(capacity, 1, 2);
    ReachesSelf(s0);
    Calls(s0, 1, Shutdown);
    var s1 := s0.(v2 := V2.Become(s0.v2, 1, V2.Client(V2.StopStore)));
    ReachesStep(s0, s0, 1, Invoke(Shutdown), s1);
    SetsStop(s1, 1);
    var s2 := s1.(v2 := V2.Step(s1.v2, 1, R2.GO));
    ReachesStep(s0, s1, 1, GO, s2);
    Calls(s2, 2, Submit);
    var s3 := s2.(v2 := V2.Become(s2.v2, 2, V2.Client(V2.EnqCheckStop(0))), submitted := 1);
    ReachesStep(s0, s2, 2, Invoke(Submit), s3);
    Rejects(s3, 2);
    var s4 := s3.(v2 := V2.Become(s3.v2, 2, V2.Client(V2.EnqReturned(0, false))));
    ReachesStep(s0, s3, 2, GO, s4);
    var s5 := s3.(v2 := V2.Become(s3.v2, 2, V2.Client(V2.NoCall)), rejected := multiset{} + multiset{0});
    ReachesStep(s0, s4, 2, GO, s5);
    s := Polls(s0, s5, 2);
    NeverReturns(capacity, s);
  }

  lemma NeverReturns(capacity: nat, s: State)
    requires capacity >= 2 && WellFormed(s) && Reaches(Init(capacity, 1, 2), s) && |s.rejected| > 0
    requires |s.phases| > 2 && Polling(s.phases[2], s.submitted)
    ensures forall moves: Schedule ::
              Run(s, moves).submitted == s.submitted ==>
                |Run(s, moves).phases| > 2 && Polling(Run(s, moves).phases[2], s.submitted)
  {
    hide Step, Inv;
    InitInv(capacity, 1, 2);
    var before :| Run(Init(capacity, 1, 2), before) == s;
    RunKeepsInv(Init(capacity, 1, 2), before);
    forall moves: Schedule
      ensures Run(s, moves).submitted == s.submitted ==>
                |Run(s, moves).phases| > 2 && Polling(Run(s, moves).phases[2], s.submitted)
    {
      RejectionBlocksWaitAll(s, 2, moves);
    }
  }

  // ---------------------------------------------------------------- a submission that overlaps wait_all

  /** A client submits, the queue has a free cell, and enqueue returns. */
  lemma Submits(s0: State, s: State, t: nat) returns (s': State)
    requires WellFormed(s0) && Live(s, t) && Reaches(s0, s) && s.v2.roles[t] == V2.Client(V2.NoCall)
    requires !s.v2.stop && s.v2.q.pcs[t] == Q.Idle && QI.At(s.v2.q, s.v2.q.tail).sequence == s.v2.q.tail
    ensures Reaches(s0, s')
    ensures var k, q := s.v2.q.tail, s.v2.q;
            s' == s.(submitted := s.submitted + 1,
                     v2 := s.v2.(enqueued := s.v2.enqueued + 1,
                                 q := q.(tail := k + 1, pushed := q.pushed + [V2.Task(s.submitted)],
                                         slots := q.slots[Slot(k, |q.slots|) := Q.Cell(k + 1, V2.Task(s.submitted))])))
  {
    hide Step, V2.Step, Reaches, R2.After, R2.PassesBy, Slot;
    var id, q := s.submitted, s.v2.q;
    Calls(s, t, Submit);
    var s1 := s.(v2 := V2.Become(s.v2, t, V2.Client(V2.EnqCheckStop(id))), submitted := id + 1);
    ReachesStep(s0, s, t, Invoke(Submit), s1);
    R2.EntersQueue(s.v2, t, id);
    StepPasses(s1, t);
    var s2 := s1.(v2 := V2.Become(s.v2, t, V2.Client(V2.EnqPush(id, 0))).(
                          q := Q.Goto(q, t, Q.EnqLoadTail(V2.Task(id)))));
    ReachesStep(s0, s1, t, GO, s2);
    R2.Accepted(s2.v2, t, id, 0, V2.Task(id));
    ReachesAfter(s0, s2, t, 8);
    s' := s2.(v2 := R2.After(s2.v2, t, 8));
    assert s2.v2.roles[t := V2.Client(V2.NoCall)] == s.v2.roles;
    assert s2.v2.q.pcs[t := Q.Idle] == q.pcs;
  }

  /** A worker takes the oldest task. */
  lemma Takes(s0: State, s: State, t: nat, job: V2.Job) returns (s': State)
    requires WellFormed(s0) && Live(s, t) && Reaches(s0, s) && s.v2.roles[t] == V2.Dequeuing && s.v2.q.pcs[t] == Q.Idle
    requires QI.At(s.v2.q, s.v2.q.head) == Q.Cell(s.v2.q.head + 1, job)
    ensures Reaches(s0, s')
    ensures var k, q := s.v2.q.head, s.v2.q;
            s' == s.(v2 := V2.Become(s.v2, t, V2.CountUp(k, job)).(
                       q := q.(head := k + 1, slots := q.slots[Slot(k, |q.slots|) := Q.Cell(k + |q.slots|, V2.Husk(0))],
                               taken := q.taken[k := job])))
  {
    hide Step, V2.Step, Reaches, R2.After, R2.PassesBy, Slot;
    R2.Takes(s.v2, t);
    ReachesAfter(s0, s, t, 7);
    s' := s.(v2 := R2.After(s.v2, t, 7));
    assert s.v2.q.pcs[t := Q.Idle] == s.v2.q.pcs;
  }

  /** The worker goes through the wrapper of a task that returns, up to its counter. */
  lemma Completes(s0: State, s: State, t: nat, k: nat, job: V2.Job) returns (s': State)
    requires WellFormed(s0) && Live(s, t) && Reaches(s0, s) && s.v2.roles[t] == V2.CountUp(k, job) && job.Task?
    ensures Reaches(s0, s')
    ensures s' == s.(v2 := V2.Become(s.v2, t, V2.Running(k, job, V2.NoCall)).(
                             active := s.v2.active + 1, begun := s.v2.begun + multiset{k}),
                     stages := s.stages[t := Leave], ran := s.ran + multiset{k}, values := s.values + multiset{k},
                     completed := s.completed + multiset{k})
  {
    hide Step, V2.Step, Reaches;
    BeginsWrapper(s, t, k, job);
    var s1 := s.(v2 := V2.Become(s.v2, t, V2.Running(k, job, V2.NoCall)).(
                         active := s.v2.active + 1, begun := s.v2.begun + multiset{k}),
                 stages := s.stages[t := Enter]);
    ReachesStep(s0, s, t, GO, s1);
    WrapperGoes(s1, t, k, job, GO);
    var s2 := s1.(stages := s.stages[t := Body]);
    assert s1.stages[t := Body] == s2.stages;
    ReachesStep(s0, s1, t, GO, s2);
    WrapperGoes(s2, t, k, job, EndBody(false));
    var s3 := s1.(stages := s.stages[t := SetValue], ran := s.ran + multiset{k});
    assert s2.stages[t := SetValue] == s3.stages;
    ReachesStep(s0, s2, t, EndBody(false), s3);
    WrapperGoes(s3, t, k, job, GO);
    var s4 := s3.(stages := s.stages[t := Observe(true)], values := s.values + multiset{k});
    assert s3.stages[t := Observe(true)] == s4.stages;
    ReachesStep(s0, s3, t, GO, s4);
    WrapperGoes(s4, t, k, job, GO);
    var s5 := s4.(stages := s.stages[t := CountCompleted]);
    assert s4.stages[t := CountCompleted] == s5.stages;
    ReachesStep(s0, s4, t, GO, s5);
    WrapperGoes(s5, t, k, job, GO);
    s' := s5.(stages := s.stages[t := Leave], completed := s.completed + multiset{k});
    assert s5.stages[t := Leave] == s'.stages;
    ReachesStep(s0, s5, t, GO, s');
  }

  /** wait_all can return although a task that it counted has not begun, because a task submitted meanwhile
      was counted in its place: two workers, two clients. */
  lemma OverlapEndsWaitEarly(capacity: nat) returns (s: State)
    requires capacity >= 2
    ensures Reaches(Init(capacity, 2, 2), s) && |s.phases| == 4 && s.phases[2] == Returned(1) && s.submitted == 2
    ensures s.v2.q.pushed == [V2.Task(0), V2.Task(1)] && s.completed == multiset{1} && s.failed == multiset{}
    ensures s.ran[0] == s.values[0] == s.exceptions[0] == s.v2.begun[0] == 0
  {
    hide Step, V2.Step, Reaches;
    var s0 := Init(capacity, 2, 2);
    ReachesSelf(s0);
    var q := s0.v2.q;
    assert Slot(0, capacity) == 0 && Slot(1, capacity) == 1;
    assert s0.v2.roles == [V2.Dequeuing, V2.Dequeuing, V2.Client(V2.NoCall), V2.Client(V2.NoCall)];
    var s1 := Submits(s0, s0, 2);
    var s2 := Takes(s0, s1, 0, V2.Task(0));
    var s3 := Polls(s0, s2, 2);
    var s4 := Submits(s0, s3, 3);
    var s5 := Takes(s0, s4, 1, V2.Task(1));
    var s6 := Completes(s0, s5, 1, 1, V2.Task(1));
    s := EndsPolling(s0, s6, 2);
  }

  /** One poll finds as many tasks done as were counted. */
  lemma EndsPolling(s0: State, s: State, t: nat) returns (s': State)
    requires WellFormed(s0) && WellFormed(s) && R2.Live(s.v2, t) && Reaches(s0, s)
    requires s.phases[t] == LoadCompleted(1) && |s.completed| == 1
    ensures Reaches(s0, s') && s' == s.(phases := s.phases[t := Returned(1)])
  {
    hide Reaches;
    var s1 := s.(phases := s.phases[t := LoadFailed(1, 1)]);
    ReachesStep(s0, s, t, GO, s1);
    s' := s.(phases := s.phases[t := Returned(1)]);
    assert s1.phases[t := Returned(1)] == s'.phases;
    ReachesStep(s0, s1, t, GO, s');
  }
}
