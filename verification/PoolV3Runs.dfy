/** Pieces of the instrumented pool's code that one thread runs on its own. */
module PoolV3Runs {
  import Q = QueueMachine
  import V2 = ThreadPoolV2
  import R2 = PoolV2Runs
  import opened ThreadPoolV3

  const GO: Move := Advance(false, V2.Husk(0))

  ghost predicate Reaches(s: State, s': State)
    requires WellFormed(s)
  {
    exists moves :: Run(s, moves) == s'
  }

  lemma ReachesSelf(s: State)
    requires WellFormed(s)
    ensures Reaches(s, s)
  {
    assert Run(s, []) == s;
  }

  lemma ReachesStep(s: State, s': State, t: nat, mv: Move, next: State)
    requires WellFormed(s) && WellFormed(s') && Reaches(s, s') && Step(s', t, mv) == next
    ensures Reaches(s, next)
  {
    hide Step;
    var moves :| Run(s, moves) == s';
    assert (moves + [(t, mv)])[..|moves|] == moves;
    assert Run(s, moves + [(t, mv)]) == next;
  }

  // ---------------------------------------------------------------- steps of the inner pool

  predicate Live(s: State, t: nat) {
    WellFormed(s) && R2.Live(s.v2, t) && s.phases[t].NoPhase?
  }

  lemma PassingRole(s: V2.State, t: nat)
    requires R2.Live(s, t) && R2.Passing(s.roles[t])
    ensures var s' := V2.Step(s, t, R2.GO); !s'.crashed && !s'.roles[t].Running?
  {
    hide Q.Next;
  }

  lemma StepPasses(s: State, t: nat)
    requires Live(s, t) && R2.Passing(s.v2.roles[t])
    ensures Step(s, t, GO) == s.(v2 := V2.Step(s.v2, t, R2.GO)) && Live(Step(s, t, GO), t)
  {
    hide V2.Step;
    PassingRole(s.v2, t);
  }

  /** Where the inner pool's code is not watched, its steps are those of the whole. */
  lemma {:induction false} ReachesAfter(s0: State, s: State, t: nat, n: nat)
    requires WellFormed(s0) && Live(s, t) && Reaches(s0, s) && R2.PassesBy(s.v2, t, n)
    ensures Reaches(s0, s.(v2 := R2.After(s.v2, t, n))) && Live(s.(v2 := R2.After(s.v2, t, n)), t)
  {
    hide Step, V2.Step, Reaches, R2.Passing;
    if n > 0 {
      assert R2.PassesBy(s.v2, t, n - 1);
      ReachesAfter(s0, s, t, n - 1);
      var s1 := s.(v2 := R2.After(s.v2, t, n - 1));
      assert R2.Passing(s1.v2.roles[t]);
      StepPasses(s1, t);
      ReachesStep(s0, s1, t, GO, s.(v2 := R2.After(s.v2, t, n)));
    }
  }

  lemma Calls(s: State, t: nat, op: Op)
    requires Live(s, t) && s.v2.roles[t] == V2.Client(V2.NoCall)
    ensures Step(s, t, Invoke(op)) ==
              match op
              case Submit =>
                s.(v2 := V2.Become(s.v2, t, V2.Client(V2.EnqCheckStop(s.submitted))), submitted := s.submitted + 1)
              case WaitAll => s.(v2 := V2.Become(s.v2, t, V2.Client(V2.WaitLoop(s.v2.q.tail))))
              case Shutdown => s.(v2 := V2.Become(s.v2, t, V2.Client(V2.StopStore)))
  {
    hide Q.Next;
  }

  // ---------------------------------------------------------------- the wrapper of a task

  lemma BeginsWrapper(s: State, t: nat, k: nat, job: V2.Job)
    requires Live(s, t) && s.v2.roles[t] == V2.CountUp(k, job)
    ensures Step(s, t, GO)
            == s.(v2 := V2.Become(s.v2, t, V2.Running(k, job, V2.NoCall)).(
                          active := s.v2.active + 1, begun := s.v2.begun + multiset{k}),
                  stages := s.stages[t := Enter])
  {
    hide V2.Step;
    R2.Begins(s.v2, t, k, job);
  }

  lemma WrapperGoes(s: State, t: nat, k: nat, job: V2.Job, mv: Move)
    requires Live(s, t) && s.v2.roles[t] == V2.Running(k, job, V2.NoCall) && job.Task?
    ensures Step(s, t, mv) == WrapperStep(s, t, k, mv)
  {
    hide WrapperStep, V2.Step;
  }

  /** The state after `n` steps of thread `t` in a row. */
  function After(s: State, t: nat, n: nat): (s': State)
    requires WellFormed(s)
    ensures WellFormed(s')
  {
    if n == 0 then s else Step(After(s, t, n - 1), t, GO)
  }

  /** Thread `t` is in the wrapper of the task with ticket `k`, outside of any call. */
  predicate InWrapper(s: State, t: nat, k: nat, job: V2.Job) {
    Live(s, t) && s.v2.roles[t] == V2.Running(k, job, V2.NoCall) && job.Task?
  }

  lemma WrapperAdvances(s: State, t: nat, k: nat, job: V2.Job)
    requires InWrapper(s, t, k, job)
    ensures After(s, t, 1) == WrapperStep(s, t, k, GO)
  {
    hide WrapperStep, Step;
    WrapperGoes(s, t, k, job, GO);
    assert After(s, t, 0) == s;
  }

  lemma {:induction false} AfterAfter(s: State, t: nat, m: nat, n: nat)
    requires WellFormed(s)
    ensures After(s, t, m + n) == After(After(s, t, m), t, n)
  {
    hide Step;
    if n > 0 {
      AfterAfter(s, t, m, n - 1);
    }
  }

  /** A body that returned: its promise gets the value, it counts as completed, and the worker goes on. */
  lemma ReturnIsCounted(s: State, t: nat, k: nat, job: V2.Job)
    requires InWrapper(s, t, k, job) && s.stages[t].SetValue?
    ensures After(s, t, 4) == s.(v2 := V2.Become(s.v2, t, V2.CountDown(k)).(ended := s.v2.ended + multiset{k}),
                                 stages := s.stages[t := Leave], values := s.values + multiset{k},
                                 completed := s.completed + multiset{k})
  {
    hide Step, After, V2.Step, Inner;
    var s1 := s.(stages := s.stages[t := Observe(true)], values := s.values + multiset{k});
    WrapperAdvances(s, t, k, job);
    var s2 := s1.(stages := s.stages[t := CountCompleted]);
    assert s1.stages[t := CountCompleted] == s2.stages;
    WrapperAdvances(s1, t, k, job);
    AfterAfter(s, t, 1, 1);
    var s3 := s2.(stages := s.stages[t := Leave], completed := s.completed + multiset{k});
    assert s2.stages[t := Leave] == s3.stages;
    WrapperAdvances(s2, t, k, job);
    AfterAfter(s, t, 2, 1);
    WrapperAdvances(s3, t, k, job);
    AfterAfter(s, t, 3, 1);
    Leaves(s3, t, k, job);
  }

  /** A body that threw: its promise gets the exception, it counts as failed, and the worker goes on. */
  lemma ThrowIsCounted(s: State, t: nat, k: nat, job: V2.Job)
    requires InWrapper(s, t, k, job) && s.stages[t].SetException?
    ensures After(s, t, 4) == s.(v2 := V2.Become(s.v2, t, V2.CountDown(k)).(ended := s.v2.ended + multiset{k}),
                                 stages := s.stages[t := Leave], exceptions := s.exceptions + multiset{k},
                                 failed := s.failed + multiset{k})
  {
    hide Step, After, V2.Step, Inner;
    var s1 := s.(stages := s.stages[t := CountFailed], exceptions := s.exceptions + multiset{k});
    WrapperAdvances(s, t, k, job);
    var s2 := s1.(stages := s.stages[t := Observe(false)], failed := s.failed + multiset{k});
    assert s1.stages[t := Observe(false)] == s2.stages;
    WrapperAdvances(s1, t, k, job);
    AfterAfter(s, t, 1, 1);
    var s3 := s2.(stages := s.stages[t := Leave]);
    assert s2.stages[t := Leave] == s3.stages;
    WrapperAdvances(s2, t, k, job);
    AfterAfter(s, t, 2, 1);
    WrapperAdvances(s3, t, k, job);
    AfterAfter(s, t, 3, 1);
    Leaves(s3, t, k, job);
  }

  lemma Leaves(s: State, t: nat, k: nat, job: V2.Job)
    requires InWrapper(s, t, k, job) && s.stages[t].Leave?
    ensures WrapperStep(s, t, k, GO)
            == s.(v2 := V2.Become(s.v2, t, V2.CountDown(k)).(ended := s.v2.ended + multiset{k}))
  {
    hide V2.Step, V2.CallStep;
    R2.Ends(s.v2, t, k, job);
  }

  /** The wrapper of a task runs its body, and whatever the body does at its end, the worker is back in its loop
      after four more steps: with the promise settled and the task counted, as completed if the body returned
      and as failed if it threw. */
  lemma BodyIsCounted(s: State, t: nat, k: nat, job: V2.Job, throws: bool)
    requires InWrapper(s, t, k, job) && s.stages[t].Body?
    ensures After(Step(s, t, EndBody(throws)), t, 4)
            == s.(v2 := V2.Become(s.v2, t, V2.CountDown(k)).(ended := s.v2.ended + multiset{k}),
                  stages := s.stages[t := Leave], ran := s.ran + multiset{k},
                  values := if throws then s.values else s.values + multiset{k},
                  completed := if throws then s.completed else s.completed + multiset{k},
                  exceptions := if throws then s.exceptions + multiset{k} else s.exceptions,
                  failed := if throws then s.failed + multiset{k} else s.failed)
  {
    hide Step, After, V2.Step, Inner;
    WrapperGoes(s, t, k, job, EndBody(throws));
    var s1 := s.(stages := s.stages[t := if throws then SetException else SetValue], ran := s.ran + multiset{k});
    assert s1.stages[t := Leave] == s.stages[t := Leave];
    if throws { ThrowIsCounted(s1, t, k, job); } else { ReturnIsCounted(s1, t, k, job); }
  }
}
