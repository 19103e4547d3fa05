/** What a run of the instrumented pool says about the bodies of its tasks and about the calls of one thread. */
module PoolV3Calls {
  import opened Tally
  import opened QueueEffects
  import Q = QueueMachine
  import QI = QueueInvariant
  import V2 = ThreadPoolV2
  import I2 = PoolV2Invariant
  import C2 = PoolV2Calls
  import opened ThreadPoolV3
  import opened PoolV3Invariant
  import opened PoolV3Steps

  // ---------------------------------------------------------------- how bodies end

  /** The step of thread `t` ends the body of the task with ticket `k`, by an exception or not. */
  predicate EndsBody(s: State, t: nat, mv: Move, k: nat, throws: bool)
    requires WellFormed(s)
  {
    && !s.v2.crashed && t < |s.stages| && mv == EndBody(throws) && s.phases[t].NoPhase? && s.stages[t].Body?
    && s.v2.roles[t].Running? && s.v2.roles[t].job.Task? && s.v2.roles[t].ticket == k && s.v2.roles[t].call.NoCall?
  }

  /** How often that happened in the run. */
  function Ends(s: State, moves: Schedule, k: nat, throws: bool): nat
    requires WellFormed(s)
  {
    if moves == [] then 0
    else
      var last := |moves| - 1;
      Ends(s, moves[..last], k, throws)
      + Bit(EndsBody(Run(s, moves[..last]), moves[last].0, moves[last].1, k, throws))
  }

  /** The body returned, and its promise has no value yet. */
  predicate ValueDue(role: V2.Role, stage: Stage, k: nat) {
    I2.Runs(role, k) && stage.SetValue?
  }

  /** The body threw, and its promise has no exception yet. */
  predicate ExceptionDue(role: V2.Role, stage: Stage, k: nat) {
    I2.Runs(role, k) && stage.SetException?
  }

  function ValuesDue(k: nat): Trait {
    (role, pc, stage) => ValueDue(role, stage, k)
  }

  function ExceptionsDue(k: nat): Trait {
    (role, pc, stage) => ExceptionDue(role, stage, k)
  }

  ghost predicate DueMoves(s: State, t: nat, mv: Move, k: nat, s': State)
    requires WellFormed(s) && WellFormed(s') && t < |s.stages| == |s'.stages|
  {
    var r, g, r', g' := s.v2.roles[t], s.stages[t], s'.v2.roles[t], s'.stages[t];
    && s'.values[k] + Bit(ValueDue(r', g', k))
       == s.values[k] + Bit(ValueDue(r, g, k)) + Bit(EndsBody(s, t, mv, k, false))
    && s'.exceptions[k] + Bit(ExceptionDue(r', g', k))
       == s.exceptions[k] + Bit(ExceptionDue(r, g, k)) + Bit(EndsBody(s, t, mv, k, true))
  }

  /** A step of the inner pool ends no body. */
  lemma InnerMovesNothingDue(s: State, t: nat, mv: V2.Move, outer: Move, s': State, k: nat)
    requires Here(s, t) && Plain(s, t, mv) && !outer.EndBody? && WellFormed(s')
    requires s'.v2 == Inner(s, t, mv).v2 && s'.stages == Inner(s, t, mv).stages
    requires s'.values == s.values && s'.exceptions == s.exceptions
    ensures DueMoves(s, t, outer, k, s')
  {
    hide I2.Inv, I2.RoleOk, QI.Inv, V2.Step;
    InnerRole(s, t, mv);
  }

  lemma WrapperMovesDue(s: State, t: nat, mv: Move, k: nat, s': State)
    requires Here(s, t) && !s.v2.crashed && s.phases[t].NoPhase? && V2.CallOf(s.v2.roles[t]).NoCall?
    requires s.v2.roles[t].Running? && s.v2.roles[t].job.Task?
    requires if mv.Advance? then !s.stages[t].Leave? else mv.EndBody?
    requires WellFormed(s') && |s'.stages| == |s.stages| && s' == WrapperStep(s, t, s.v2.roles[t].ticket, mv)
    ensures DueMoves(s, t, mv, k, s')
  {
    hide I2.Inv, QI.Inv, WrapperStep;
    WrapperChanges(s, t, s.v2.roles[t].ticket, mv);
  }

  lemma LeaveMovesNothingDue(s: State, t: nat, mv: Move, k: nat)
    requires Here(s, t) && !s.v2.crashed && s.v2.roles[t].Running? && s.v2.roles[t].job.Task? && mv.Advance?
             && s.v2.roles[t].call.NoCall? && s.stages[t].Leave?
    ensures DueMoves(s, t, mv, k, Inner(s, t, V2.Finish))
  {
    hide I2.Inv, QI.Inv, V2.Step, Inner;
    LeaveIs(s, t);
  }

  lemma CallMovesNothingDue(s: State, t: nat, mv: Move, k: nat)
    requires Here(s, t) && !s.v2.crashed && s.phases[t].NoPhase? && !V2.CallOf(s.v2.roles[t]).NoCall? && mv.Advance?
    ensures DueMoves(s, t, mv, k, CallStep(s, t, mv))
  {
    hide I2.Inv, QI.Inv, V2.Step, DueMoves;
    assert Plain(s, t, V2.Advance(mv.spurious, mv.residue));
    InnerMovesNothingDue(s, t, V2.Advance(mv.spurious, mv.residue), mv, CallStep(s, t, mv), k);
  }

  lemma InvokeMovesNothingDue(s: State, t: nat, mv: Move, k: nat)
    requires Here(s, t) && !s.v2.crashed && s.phases[t].NoPhase? && V2.CallOf(s.v2.roles[t]).NoCall? && mv.Invoke?
    requires s.v2.roles[t].Client? || (s.v2.roles[t].Running? && s.v2.roles[t].job.Task? && s.stages[t].Body?)
    ensures DueMoves(s, t, mv, k, InvokeStep(s, t, mv.op))
  {
    hide I2.Inv, QI.Inv, V2.Step, DueMoves;
    var inner := match mv.op
                 case Submit => V2.Invoke(V2.Submit(s.submitted))
                 case WaitAll => V2.Invoke(V2.WaitAll)
                 case Shutdown => V2.Invoke(V2.Shutdown);
    InnerMovesNothingDue(s, t, inner, mv, InvokeStep(s, t, mv.op), k);
  }

  /** A body that returns makes a value due, one that throws an exception, and nothing else does. */
  lemma StepMovesDue(s: State, t: nat, mv: Move, k: nat)
    requires Inv(s) && t < |s.stages|
    ensures |Step(s, t, mv).stages| == |s.stages| && DueMoves(s, t, mv, k, Step(s, t, mv))
  {
    hide I2.RoleOk, I2.Accounts, I2.Tickets, I2.Draining, QI.Inv, Inner, CallStep, InvokeStep, PhaseStep, WrapperStep,
        DueMoves, Submissions, Tasks, Promises, ThreadOk;
    InvIsHere(s, t);
    SameThreads(s, t, mv);
    var role := s.v2.roles[t];
    if Still(s, t, mv) {
      StillIsSame(s, t, mv, k);
    } else if role.Running? && role.job.Husk? {
      HuskMovesNothingDue(s, t, mv, k);
    } else if !s.phases[t].NoPhase? {
      PhaseMovesNothingDue(s, t, mv, k);
    } else if !V2.CallOf(role).NoCall? {
      CallMovesNothingDue(s, t, mv, k);
    } else if mv.Invoke? {
      if role.Running? { WrapperIs(s, t, mv); }
      InvokeMovesNothingDue(s, t, mv, k);
    } else if role.Running? {
      WrapperIs(s, t, mv);
      if mv.Advance? && s.stages[t].Leave? {
        LeaveMovesNothingDue(s, t, mv, k);
      } else {
        WrapperMovesDue(s, t, mv, k, Step(s, t, mv));
      }
    } else {
      WorkerMovesNothingDue(s, t, mv, k);
    }
  }

  lemma WrapperIs(s: State, t: nat, mv: Move)
    requires WellFormed(s) && t < |s.stages| && !s.v2.crashed && s.phases[t].NoPhase?
    requires s.v2.roles[t].Running? && s.v2.roles[t].job.Task? && s.v2.roles[t].call.NoCall?
    ensures Step(s, t, mv) == WrapperStep(s, t, s.v2.roles[t].ticket, mv)
    ensures mv.Advance? && s.stages[t].Leave? ==> Step(s, t, mv) == Inner(s, t, V2.Finish)
    ensures mv.Invoke? && !Still(s, t, mv) ==> Step(s, t, mv) == InvokeStep(s, t, mv.op)
  {
    hide V2.Step, Inner, InvokeStep;
  }

  lemma SameThreads(s: State, t: nat, mv: Move)
    requires WellFormed(s)
    ensures |Step(s, t, mv).stages| == |s.stages|
  {
    hide V2.Step;
  }

  lemma WorkerMovesNothingDue(s: State, t: nat, mv: Move, k: nat)
    requires Here(s, t) && !s.v2.crashed && s.phases[t].NoPhase? && mv.Advance?
    requires !s.v2.roles[t].Client? && !s.v2.roles[t].Running?
    ensures DueMoves(s, t, mv, k, Inner(s, t, V2.Advance(mv.spurious, mv.residue)))
  {
    hide I2.Inv, QI.Inv, V2.Step, DueMoves;
    var inner := V2.Advance(mv.spurious, mv.residue);
    InnerMovesNothingDue(s, t, inner, mv, Inner(s, t, inner), k);
  }

  lemma StillIsSame(s: State, t: nat, mv: Move, k: nat)
    requires WellFormed(s) && t < |s.stages| && Still(s, t, mv)
    ensures Step(s, t, mv) == s && DueMoves(s, t, mv, k, s)
  {
    hide Inner, CallStep, PhaseStep;
  }

  lemma HuskMovesNothingDue(s: State, t: nat, mv: Move, k: nat)
    requires Inv(s) && !Still(s, t, mv) && s.v2.roles[t].Running? && s.v2.roles[t].job.Husk?
    ensures |Step(s, t, mv).stages| == |s.stages| && DueMoves(s, t, mv, k, Step(s, t, mv))
  {
    hide QI.Inv, I2.Inv, Step, Submissions, Tasks, Promises, Threads;
    HuskStep(s, t, mv);
  }

  lemma PhaseMovesNothingDue(s: State, t: nat, mv: Move, k: nat)
    requires WellFormed(s) && t < |s.stages| && !s.v2.crashed && !s.phases[t].NoPhase? && mv.Advance?
    ensures var s' := Step(s, t, mv); |s'.stages| == |s.stages| && DueMoves(s, t, mv, k, s')
  {
  }

  /** Over whole runs: the bodies of ticket `k` that returned are its promise's values, set or due, and those
      that threw its exceptions. */
  lemma {:induction false} EndsBalance(s0: State, moves: Schedule, k: nat)
    requires Inv(s0) && s0.values[k] == s0.exceptions[k] == Count(s0, ValuesDue(k)) == Count(s0, ExceptionsDue(k)) == 0
    ensures var s := Run(s0, moves);
            && Ends(s0, moves, k, false) == s.values[k] + Count(s, ValuesDue(k))
            && Ends(s0, moves, k, true) == s.exceptions[k] + Count(s, ExceptionsDue(k))
  {
    hide I2.Inv, Submissions, Tasks, Promises, Threads, Step, EndsBody, Count;
    if moves != [] {
      var last := |moves| - 1;
      var s, t, mv := Run(s0, moves[..last]), moves[last].0, moves[last].1;
      EndsBalance(s0, moves[..last], k);
      RunKeepsInv(s0, moves[..last]);
      StepMovesBalance(s, t, mv, k);
    }
  }

  lemma StepMovesBalance(s: State, t: nat, mv: Move, k: nat)
    requires Inv(s)
    ensures var s' := Step(s, t, mv);
            && s'.values[k] + Count(s', ValuesDue(k))
               == s.values[k] + Count(s, ValuesDue(k)) + Bit(EndsBody(s, t, mv, k, false))
            && s'.exceptions[k] + Count(s', ExceptionsDue(k))
               == s.exceptions[k] + Count(s, ExceptionsDue(k)) + Bit(EndsBody(s, t, mv, k, true))
  {
    hide QI.Inv, I2.RoleOk, I2.Accounts, I2.Tickets, I2.Draining, Submissions, Tasks, Promises, Threads, Step, Count,
        EffectOnSubmissions, EffectOnTasks, EffectOnPromises;
    if t >= |s.stages| {
      OutOfRange(s, t, mv);
    } else {
      StepMovesDue(s, t, mv, k);
      if Still(s, t, mv) {
        StillIsSame(s, t, mv, k);
      } else if s.v2.roles[t].Running? && s.v2.roles[t].job.Husk? {
        HuskStep(s, t, mv);
        SameCounts(s, Step(s, t, mv));
      } else {
        InvIsHere(s, t);
        StepLocal(s, t, mv);
        CountUpdate(s, Step(s, t, mv), t, ValuesDue(k));
        CountUpdate(s, Step(s, t, mv), t, ExceptionsDue(k));
      }
    }
  }

  lemma OutOfRange(s: State, t: nat, mv: Move)
    requires WellFormed(s) && t >= |s.stages|
    ensures Step(s, t, mv) == s
  {
  }

  lemma InvIsHere(s: State, t: nat)
    requires Inv(s) && t < |s.stages|
    ensures Here(s, t)
  {
    hide QI.Inv, I2.RoleOk, I2.Accounts, I2.Tickets, I2.Draining, Submissions, Tasks, Promises, ThreadOk;
  }

  // ---------------------------------------------------------------- wait_all

  /** The step of thread `t` calls wait_all. */
  predicate CallsWaitAll(s: State, t: nat, mv: Move)
    requires WellFormed(s)
  {
    && C2.Able(s.v2, t) && mv == Invoke(WaitAll) && s.phases[t].NoPhase? && V2.CallOf(s.v2.roles[t]).NoCall?
    && (s.v2.roles[t].Running? ==> s.stages[t].Body?)
  }

  /** The state in which thread `t` last called wait_all. */
  function AtCall(s: State, moves: Schedule, t: nat): (a: State)
    requires WellFormed(s)
    ensures WellFormed(a)
  {
    if moves == [] then s
    else
      var last := |moves| - 1;
      var before := Run(s, moves[..last]);
      if moves[last].0 == t && CallsWaitAll(before, t, moves[last].1) then before else AtCall(s, moves[..last], t)
  }

  predicate InPoll(phase: Phase) {
    phase.LoadSubmitted? || phase.LoadCompleted? || phase.LoadFailed?
  }

  /** Thread `t` is in wait_all. */
  predicate InWaitAll(s: State, t: nat)
    requires WellFormed(s) && t < |s.stages|
  {
    C2.Waits(V2.CallOf(s.v2.roles[t])) || InPoll(s.phases[t])
  }

  /** The step in which a wait_all of thread `t` comes to its end. */
  predicate WaitAllReturns(s: State, t: nat, mv: Move)
    requires WellFormed(s)
  {
    && t < |s.stages| && InWaitAll(s, t)
    && var s' := Step(s, t, mv); t < |s'.stages| && !InWaitAll(s', t)
  }

  /** What a wait_all of thread `t` knows that was called in state `a`. */
  ghost predicate Knows(a: State, s: State, t: nat)
    requires WellFormed(a) && WellFormed(s) && t < |s.stages|
  {
    var call, phase := V2.CallOf(s.v2.roles[t]), s.phases[t];
    && a.submitted <= s.submitted
    && (C2.Waits(call) ==> call.since == a.v2.q.tail)
    && (!phase.NoPhase? ==> a.v2.q.tail <= s.v2.q.head)
    && (phase.LoadCompleted? || phase.LoadFailed? || phase.Returned? ==> a.submitted <= phase.submitted)
  }

  /** A client and the body of a task can call the pool alike: what the call's first step is. */
  lemma CallsBegin(s: State, t: nat, op: Op)
    requires WellFormed(s) && C2.Able(s.v2, t) && s.phases[t].NoPhase? && V2.CallOf(s.v2.roles[t]).NoCall?
    requires s.v2.roles[t].Running? ==> s.stages[t].Body? && !op.Shutdown?
    ensures var s' := Step(s, t, Invoke(op));
            && |s'.stages| == |s.stages| && s'.v2.q == s.v2.q
            && V2.CallOf(s'.v2.roles[t]) == (match op
                                             case Submit => V2.EnqCheckStop(s.submitted)
                                             case WaitAll => V2.WaitLoop(s.v2.q.tail)
                                             case Shutdown => V2.StopStore)
            && s'.submitted == s.submitted + if op.Submit? then 1 else 0
  {
    hide Q.Step;
  }

  lemma InnerKnows(a: State, s: State, t: nat, mv: V2.Move, s': State)
    requires WellFormed(a) && Here(s, t) && Plain(s, t, mv) && Knows(a, s, t) && WellFormed(s')
    requires s'.v2 == V2.Step(s.v2, t, mv) && s'.submitted >= s.submitted
    requires |s'.phases| == |s.phases|
    requires s'.phases[t] == if mv.Advance? && V2.CallOf(s.v2.roles[t]).WaitReturned? then LoadSubmitted else NoPhase
    ensures Knows(if C2.Calls(s.v2, t, mv) && mv.op.WaitAll? then s else a, s', t)
  {
    hide QI.Inv, V2.Step, I2.Accounts, I2.Tickets, I2.Draining, ThreadOk, I2.EffectOnCounters, I2.EffectOnTickets,
        I2.EffectOnDrain;
    C2.WaitsSince(s.v2, t, mv);
    I2.StepEffect(s.v2, t, mv);
  }

  lemma StepKnows(a: State, s: State, t: nat, mv: Move)
    requires WellFormed(a) && Inv(s) && t < |s.stages| && Knows(a, s, t)
    ensures |Step(s, t, mv).stages| == |s.stages|
    ensures Knows(if CallsWaitAll(s, t, mv) then s else a, Step(s, t, mv), t)
  {
    hide I2.RoleOk, I2.Accounts, I2.Tickets, I2.Draining, QI.Inv, V2.Step, InvokeStep, PhaseStep, WrapperStep, CallStep,
        Knows, Submissions, Tasks, Promises, ThreadOk;
    InvIsHere(s, t);
    SameThreads(s, t, mv);
    var role := s.v2.roles[t];
    if Still(s, t, mv) {
      StillIsSame(s, t, mv, 0);
    } else if role.Running? && role.job.Husk? {
      HuskKnows(a, s, t, mv);
    } else if !s.phases[t].NoPhase? {
      PhaseKnows(a, s, t, mv);
    } else if !V2.CallOf(role).NoCall? {
      CallKnows(a, s, t, mv);
    } else if mv.Invoke? {
      if role.Running? { WrapperIs(s, t, mv); }
      InvokeKnows(a, s, t, mv);
    } else if role.Running? {
      WrapperIs(s, t, mv);
      WrapperKnows(a, s, t, mv);
    } else {
      WorkerKnows(a, s, t, mv);
    }
  }

  lemma HuskKnows(a: State, s: State, t: nat, mv: Move)
    requires WellFormed(a) && Inv(s) && !Still(s, t, mv) && s.v2.roles[t].Running? && s.v2.roles[t].job.Husk?
    requires Knows(a, s, t)
    ensures |Step(s, t, mv).stages| == |s.stages| && Knows(a, Step(s, t, mv), t)
  {
    hide QI.Inv, I2.Inv, Step, Submissions, Tasks, Promises, Threads;
    HuskStep(s, t, mv);
  }

  lemma PhaseKnows(a: State, s: State, t: nat, mv: Move)
    requires WellFormed(a) && Here(s, t) && !s.v2.crashed && !s.phases[t].NoPhase? && mv.Advance? && Knows(a, s, t)
    ensures |Step(s, t, mv).stages| == |s.stages| && Knows(a, Step(s, t, mv), t)
  {
    hide I2.Inv, QI.Inv;
  }

  lemma CallKnows(a: State, s: State, t: nat, mv: Move)
    requires WellFormed(a) && Here(s, t) && !s.v2.crashed && s.phases[t].NoPhase?
    requires !V2.CallOf(s.v2.roles[t]).NoCall? && mv.Advance? && Knows(a, s, t)
    ensures |CallStep(s, t, mv).stages| == |s.stages| && Knows(a, CallStep(s, t, mv), t)
  {
    hide I2.Inv, QI.Inv, V2.Step, Knows;
    InnerKnows(a, s, t, V2.Advance(mv.spurious, mv.residue), CallStep(s, t, mv));
  }

  lemma InvokeKnows(a: State, s: State, t: nat, mv: Move)
    requires WellFormed(a) && Here(s, t) && !s.v2.crashed && s.phases[t].NoPhase?
    requires V2.CallOf(s.v2.roles[t]).NoCall? && mv.Invoke? && Knows(a, s, t)
    requires s.v2.roles[t].Client? || (s.v2.roles[t].Running? && s.v2.roles[t].job.Task? && s.stages[t].Body?)
    ensures |InvokeStep(s, t, mv.op).stages| == |s.stages|
    ensures Knows(if CallsWaitAll(s, t, mv) then s else a, InvokeStep(s, t, mv.op), t)
  {
    hide I2.Inv, QI.Inv, V2.Step, Knows;
    var inner := match mv.op
                 case Submit => V2.Invoke(V2.Submit(s.submitted))
                 case WaitAll => V2.Invoke(V2.WaitAll)
                 case Shutdown => V2.Invoke(V2.Shutdown);
    InnerKnows(a, s, t, inner, InvokeStep(s, t, mv.op));
  }

  lemma WrapperKnows(a: State, s: State, t: nat, mv: Move)
    requires WellFormed(a) && Here(s, t) && !s.v2.crashed && s.phases[t].NoPhase? && Knows(a, s, t)
    requires s.v2.roles[t].Running? && s.v2.roles[t].job.Task? && s.v2.roles[t].call.NoCall? && !mv.Invoke?
    ensures var s' := WrapperStep(s, t, s.v2.roles[t].ticket, mv);
            |s'.stages| == |s.stages| && Knows(a, s', t)
  {
    hide I2.Inv, QI.Inv, V2.Step, WrapperStep, Inner;
    WrapperIs(s, t, mv);
    if mv.Advance? && s.stages[t].Leave? {
      LeaveIs(s, t);
    } else {
      WrapperChanges(s, t, s.v2.roles[t].ticket, mv);
    }
  }

  lemma WorkerKnows(a: State, s: State, t: nat, mv: Move)
    requires WellFormed(a) && Here(s, t) && !s.v2.crashed && s.phases[t].NoPhase? && mv.Advance? && Knows(a, s, t)
    requires !s.v2.roles[t].Client? && !s.v2.roles[t].Running?
    ensures var s' := Inner(s, t, V2.Advance(mv.spurious, mv.residue)); |s'.stages| == |s.stages| && Knows(a, s', t)
  {
    hide I2.Inv, QI.Inv, V2.Step, Knows;
    var inner := V2.Advance(mv.spurious, mv.residue);
    InnerKnows(a, s, t, inner, Inner(s, t, inner));
  }

  lemma {:induction false} AlwaysKnows(s0: State, moves: Schedule, t: nat)
    requires Inv(s0) && t < |s0.stages| && s0.phases[t].NoPhase? && V2.CallOf(s0.v2.roles[t]).NoCall?
    ensures |Run(s0, moves).stages| == |s0.stages| && Knows(AtCall(s0, moves, t), Run(s0, moves), t)
  {
    hide I2.Inv, Submissions, Tasks, Promises, Threads, Step, Knows, CallsWaitAll;
    if moves == [] {
      KnowsNothing(s0, t);
    } else {
      var last := |moves| - 1;
      var s, u, mv := Run(s0, moves[..last]), moves[last].0, moves[last].1;
      AlwaysKnows(s0, moves[..last], t);
      RunKeepsInv(s0, moves[..last]);
      if u == t {
        StepKnows(AtCall(s0, moves[..last], t), s, t, mv);
      } else {
        OthersTellNothing(AtCall(s0, moves[..last], t), s, t, u, mv);
      }
    }
  }

  lemma KnowsNothing(s: State, t: nat)
    requires WellFormed(s) && t < |s.stages| && s.phases[t].NoPhase? && V2.CallOf(s.v2.roles[t]).NoCall?
    ensures Knows(s, s, t)
  {
  }

  lemma OthersTellNothing(a: State, s: State, t: nat, u: nat, mv: Move)
    requires WellFormed(a) && Inv(s) && t < |s.stages| && u != t && Knows(a, s, t)
    ensures |Step(s, u, mv).stages| == |s.stages| && Knows(a, Step(s, u, mv), t)
  {
    hide QI.Inv, I2.RoleOk, I2.Accounts, I2.Tickets, I2.Draining, Submissions, Tasks, Promises, Threads, Step,
        EffectOnSubmissions, EffectOnPromises;
    if u >= |s.stages| {
      OutOfRange(s, u, mv);
    } else if Still(s, u, mv) {
      StillIsSame(s, u, mv, 0);
    } else if s.v2.roles[u].Running? && s.v2.roles[u].job.Husk? {
      HuskStep(s, u, mv);
    } else {
      InvIsHere(s, u);
      StepLocal(s, u, mv);
    }
  }

  /** wait_all comes to its end nowhere but at a poll that finds enough tasks done. */
  lemma ReturnsFromPoll(s: State, t: nat, mv: Move)
    requires Inv(s) && WaitAllReturns(s, t, mv)
    ensures s.phases[t].LoadFailed? && s.phases[t].completed + |s.failed| >= s.phases[t].submitted
    ensures Step(s, t, mv) == ToPhase(s, t, Returned(s.phases[t].submitted))
  {
    hide QI.Inv, I2.Accounts, I2.Tickets, I2.Draining, V2.Step, Submissions, Tasks, Promises, InvokeStep, WrapperStep;
    InvIsHere(s, t);
    if s.phases[t].NoPhase? {
      FirstPhaseGoesOn(s, t, mv);
    }
  }

  /** From the inner wait_all a thread comes to the second phase, and nowhere else. */
  lemma FirstPhaseGoesOn(s: State, t: nat, mv: Move)
    requires Here(s, t) && s.phases[t].NoPhase? && InWaitAll(s, t)
    ensures |Step(s, t, mv).stages| == |s.stages| && InWaitAll(Step(s, t, mv), t)
  {
    hide QI.Inv, I2.Inv, V2.Step, InvokeStep, WrapperStep;
    if !s.v2.crashed && mv.Advance? {
      C2.CallGoes(s.v2, t, V2.Advance(mv.spurious, mv.residue));
    }
  }
}
