/** Every step of the instrumented pool keeps its invariant. */
module PoolV3Steps {
  import opened Tally
  import opened QueueEffects
  import Q = QueueMachine
  import QI = QueueInvariant
  import V2 = ThreadPoolV2
  import I2 = PoolV2Invariant
  import S2 = PoolV2Submissions
  import opened ThreadPoolV3
  import opened PoolV3Invariant

  // ---------------------------------------------------------------- the inner pool

  predicate SameCaller(r: V2.Role, r': V2.Role) {
    if r.Client? then r'.Client? else r'.Running? && r.Running? && r'.ticket == r.ticket && r'.job == r.job
  }

  lemma EnqueueKeepsRole(s: V2.State, t: nat, spurious: bool, residue: V2.Job)
    requires V2.Calling(s, t)
    ensures SameCaller(s.roles[t], V2.EnqueueStep(s, t, s.roles[t].call, spurious, residue).roles[t])
  {
    hide Q.Step;
  }

  lemma WaitKeepsRole(s: V2.State, t: nat, spurious: bool, residue: V2.Job)
    requires V2.Calling(s, t) && s.roles[t].call.WaitEmpty?
    ensures SameCaller(s.roles[t], V2.WaitStep(s, t, s.roles[t].call, spurious, residue).roles[t])
  {
    hide Q.Step;
  }

  /** A call is of a client or of a task, and stays there. */
  lemma CallKeepsRole(s: V2.State, t: nat, mv: V2.Move)
    requires V2.Calling(s, t)
    ensures SameCaller(s.roles[t], V2.CallStep(s, t, s.roles[t].call, mv).roles[t])
  {
    hide Q.Step, V2.EnqueueStep, V2.WaitStep;
    if mv.Advance? {
      EnqueueKeepsRole(s, t, mv.spurious, mv.residue);
      if s.roles[t].call.WaitEmpty? {
        WaitKeepsRole(s, t, mv.spurious, mv.residue);
      }
    }
  }

  lemma WorkerRole(s: V2.State, t: nat, spurious: bool, residue: V2.Job)
    requires V2.WellFormed(s) && t < |s.roles| && !s.roles[t].Client? && !s.roles[t].Running?
    ensures !V2.WorkerStep(s, t, spurious, residue).roles[t].Client?
  {
    hide Q.Step;
  }

  /** A step of the inner pool that does not end a task. */
  predicate Plain(s: State, t: nat, mv: V2.Move)
    requires WellFormed(s) && t < |s.stages|
  {
    && !I2.Inert(s.v2, t, mv) && s.phases[t].NoPhase?
    && (s.v2.roles[t].Running? ==> s.stages[t].Body? && !mv.Finish?)
  }

  lemma InnerRole(s: State, t: nat, mv: V2.Move)
    requires Here(s, t) && Plain(s, t, mv)
    ensures var r, r', v2' := s.v2.roles[t], V2.Step(s.v2, t, mv).roles[t], V2.Step(s.v2, t, mv);
            && (r.Client? ==> r'.Client?)
            && (r.Running? ==> r'.Running? && r'.ticket == r.ticket && r'.job == r.job)
            && (!r.Client? && !r.Running? ==> !r'.Client? && V2.CallOf(r').NoCall?)
            && v2'.ended == s.v2.ended
  {
    hide I2.Inv, I2.RoleOk, QI.Inv, V2.CallStep, V2.WorkerStep, Q.Step;
    var r := s.v2.roles[t];
    if r.Client? || r.Running? {
      CallKeepsRole(s.v2, t, mv);
    } else {
      WorkerRole(s.v2, t, mv.spurious, mv.residue);
      S2.WorkerGoes(s.v2, t, mv.spurious, mv.residue);
    }
  }

  lemma InnerEffect(s: State, t: nat, mv: V2.Move)
    requires Here(s, t) && Plain(s, t, mv)
    ensures Effect(s, t, Inner(s, t, mv)) && I2.Local(s.v2, t, Inner(s, t, mv).v2)
  {
    hide I2.Inv, I2.RoleOk, QI.Inv, I2.EffectOnCounters, I2.EffectOnTickets, I2.EffectOnDrain, V2.CallStep,
        V2.WorkerStep, V2.Step;
    I2.StepEffect(s.v2, t, mv);
    I2.StepKeepsInv(s.v2, t, mv);
    InnerRole(s, t, mv);
    assert s.stages == s.stages[t := s.stages[t]] && s.phases == s.phases[t := s.phases[t]];
  }

  lemma InnerPromises(s: State, t: nat, mv: V2.Move)
    requires Here(s, t) && Plain(s, t, mv)
    ensures EffectOnPromises(s, t, Inner(s, t, mv))
  {
    hide I2.Inv, I2.RoleOk, QI.Inv, V2.Step;
    InnerRole(s, t, mv);
  }

  /** The ticket of a thread that has one. */
  function Ticket(role: V2.Role, pc: Q.Pc<V2.Job>): nat {
    if Took(pc) then pc.ticket else if role.CountUp? || role.Running? then role.ticket else 0
  }

  lemma TicketHeld(role: V2.Role, pc: Q.Pc<V2.Job>, stage: Stage)
    requires !(role.Running? && Counted(stage))
    ensures forall k: nat :: I2.Holds(role, pc, k) <==> Busy(role, pc, stage) && k == Ticket(role, pc)
    ensures forall k: nat :: Open(role, pc, stage, k) <==> I2.Holds(role, pc, k)
  {
  }

  lemma InnerTasks(s: State, t: nat, mv: V2.Move)
    requires Here(s, t) && Plain(s, t, mv) && I2.Local(s.v2, t, Inner(s, t, mv).v2)
    ensures EffectOnTasks(s, t, Inner(s, t, mv))
  {
    hide I2.Inv, I2.RoleOk, QI.Inv, I2.Effect, I2.EffectOnCounters, I2.EffectOnDrain, V2.Step;
    InnerRole(s, t, mv);
    var s' := Inner(s, t, mv);
    var r, pc, g, r', pc', g' := s.v2.roles[t], s.v2.q.pcs[t], s.stages[t], s'.v2.roles[t], s'.v2.q.pcs[t],
        s'.stages[t];
    assert !(r.Running? && Counted(g)) && !(r'.Running? && Counted(g'));
    TicketHeld(r, pc, g);
    TicketHeld(r', pc', g');
    var k, k' := Ticket(r, pc), Ticket(r', pc');
    assert I2.Holds(r, pc, s.v2.q.head) <==> Busy(r, pc, g) && k == s.v2.q.head;
    assert I2.Holds(r', pc', s.v2.q.head) <==> Busy(r', pc', g') && k' == s.v2.q.head;
    assert I2.Holds(r, pc, k) <==> Busy(r, pc, g);
    assert I2.Holds(r', pc', k') <==> Busy(r', pc', g');
    assert I2.Holds(r', pc', k) <==> Busy(r', pc', g') && k == k';
    assert I2.Holds(r, pc, k') <==> Busy(r, pc, g) && k == k';
  }

  // ---------------------------------------------------------------- the steps

  /** A step of the inner pool by a thread in no call of it, or in one that does not throw. */
  lemma InnerLocal(s: State, t: nat, mv: V2.Move)
    requires Here(s, t) && Plain(s, t, mv) && !S2.Enters(s.v2, t, mv) && !S2.Throws(s.v2, t, mv)
    ensures Local(s, t, Inner(s, t, mv))
  {
    hide I2.Inv, I2.RoleOk, QI.Inv, V2.Step, Effect, EffectOnTasks, EffectOnPromises, I2.Local;
    InnerEffect(s, t, mv);
    InnerTasks(s, t, mv);
    InnerPromises(s, t, mv);
    S2.StepMovesPending(s.v2, t, mv);
  }

  /** What is said of tasks and promises depends neither on the submission counters nor on the phases. */
  lemma Relabelled(s: State, t: nat, s1: State, s': State)
    requires WellFormed(s) && WellFormed(s1) && WellFormed(s') && t < |s.stages| == |s1.stages|
    requires s'.v2 == s1.v2 && s'.stages == s1.stages && s'.completed == s1.completed && s'.failed == s1.failed
    requires s'.values == s1.values && s'.exceptions == s1.exceptions && s'.ran == s1.ran
    requires EffectOnTasks(s, t, s1) && EffectOnPromises(s, t, s1)
    ensures EffectOnTasks(s, t, s') && EffectOnPromises(s, t, s')
  {
    hide Open, Busy, Valued, Excepted, Unsettled;
  }

  /** What the wrapper adds to a step of the inner pool: submission counters and the caller's phase. */
  lemma Around(s: State, t: nat, mv: V2.Move, submitted: nat, rejected: multiset<nat>, phase: Phase)
    requires Here(s, t) && Plain(s, t, mv) && submitted >= s.submitted
    requires phase.NoPhase? || (phase.LoadSubmitted? && V2.CallOf(V2.Step(s.v2, t, mv).roles[t]).NoCall?
             && V2.CallOf(s.v2.roles[t]).WaitReturned?)
    ensures var s' := Inner(s, t, mv).(submitted := submitted, rejected := rejected, phases := s.phases[t := phase]);
            Effect(s, t, s') && EffectOnTasks(s, t, s') && EffectOnPromises(s, t, s')
  {
    hide I2.Inv, I2.RoleOk, QI.Inv, V2.Step, I2.Local, EffectOnTasks, EffectOnPromises;
    InnerEffect(s, t, mv);
    InnerTasks(s, t, mv);
    InnerPromises(s, t, mv);
    InnerRole(s, t, mv);
    Relabelled(s, t, Inner(s, t, mv),
               Inner(s, t, mv).(submitted := submitted, rejected := rejected, phases := s.phases[t := phase]));
  }

  /** `tasks_submitted_->inc()` and the call of the inner enqueue */
  lemma SubmitLocal(s: State, t: nat)
    requires Here(s, t) && Plain(s, t, V2.Invoke(V2.Submit(s.submitted)))
             && S2.Enters(s.v2, t, V2.Invoke(V2.Submit(s.submitted)))
    ensures Local(s, t, InvokeStep(s, t, Submit))
  {
    hide I2.Inv, I2.RoleOk, QI.Inv, V2.Step, Effect, EffectOnTasks, EffectOnPromises;
    var mv := V2.Invoke(V2.Submit(s.submitted));
    assert s.phases == s.phases[t := NoPhase];
    Around(s, t, mv, s.submitted + 1, s.rejected, NoPhase);
    S2.StepMovesPending(s.v2, t, mv);
  }

  /** The inner enqueue throws. */
  lemma RejectLocal(s: State, t: nat, mv: Move)
    requires Here(s, t) && mv.Advance? && Plain(s, t, V2.Advance(mv.spurious, mv.residue))
             && S2.Throws(s.v2, t, V2.Advance(mv.spurious, mv.residue))
    ensures Local(s, t, CallStep(s, t, mv))
  {
    hide I2.Inv, I2.RoleOk, QI.Inv, V2.Step, Effect, EffectOnTasks, EffectOnPromises;
    var inner := V2.Advance(mv.spurious, mv.residue);
    assert s.phases == s.phases[t := NoPhase];
    Around(s, t, inner, s.submitted, s.rejected + multiset{V2.CallOf(s.v2.roles[t]).id}, NoPhase);
    S2.StepMovesPending(s.v2, t, inner);
  }

  /** The inner wait_all returns and the second phase begins. */
  lemma WaitLocal(s: State, t: nat, mv: Move)
    requires Here(s, t) && mv.Advance? && Plain(s, t, V2.Advance(mv.spurious, mv.residue))
             && V2.CallOf(s.v2.roles[t]).WaitReturned?
    ensures Local(s, t, CallStep(s, t, mv))
  {
    hide I2.Inv, I2.RoleOk, QI.Inv, V2.Step, Effect, EffectOnTasks, EffectOnPromises;
    var inner := V2.Advance(mv.spurious, mv.residue);
    WaitEnds(s, t, inner);
    Around(s, t, inner, s.submitted, s.rejected, LoadSubmitted);
    S2.StepMovesPending(s.v2, t, inner);
  }

  lemma WaitEnds(s: State, t: nat, mv: V2.Move)
    requires Here(s, t) && mv.Advance? && Plain(s, t, mv) && V2.CallOf(s.v2.roles[t]).WaitReturned?
    ensures V2.CallOf(V2.Step(s.v2, t, mv).roles[t]).NoCall?
  {
    hide I2.Inv, QI.Inv, V2.WorkerStep, V2.WaitStep, V2.EnqueueStep;
  }

  /** A step of the wrapper around a task. */
  lemma WrapperLocal(s: State, t: nat, mv: Move)
    requires Here(s, t) && s.phases[t].NoPhase? && V2.CallOf(s.v2.roles[t]).NoCall?
    requires s.v2.roles[t].Running? && s.v2.roles[t].job.Task?
    requires if mv.Advance? then !s.stages[t].Leave? else mv.EndBody?
    ensures Local(s, t, WrapperStep(s, t, s.v2.roles[t].ticket, mv))
  {
    hide I2.Inv, QI.Inv, WrapperStep, EffectOnSubmissions, EffectOnTasks, EffectOnPromises;
    assert !Took(s.v2.q.pcs[t]);
    WrapperChanges(s, t, s.v2.roles[t].ticket, mv);
    var s' := WrapperStep(s, t, s.v2.roles[t].ticket, mv);
    assert s.v2.roles == s.v2.roles[t := s.v2.roles[t]] && s.v2.q.pcs == s.v2.q.pcs[t := s.v2.q.pcs[t]];
    assert s.phases == s.phases[t := s.phases[t]] && s.stages == s.stages[t := s.stages[t]];
    WrapperSubmissions(s, t, mv);
    WrapperPromises(s, t, mv);
    WrapperTasks(s, t, mv);
  }

  function Plus(m: multiset<nat>, b: bool, k: nat): (m': multiset<nat>)
    ensures forall j: nat :: m'[j] == m[j] + Bit(b && j == k)
    ensures |m'| == |m| + Bit(b)
  {
    if b then m + multiset{k} else m
  }

  /** What the wrapper's step changes. */
  ghost predicate Changes(s: State, t: nat, k: nat, mv: Move, s': State)
    requires t < |s.stages|
  {
    var g := s.stages[t];
    && s'.v2 == s.v2 && s'.submitted == s.submitted && s'.rejected == s.rejected && s'.phases == s.phases
    && s'.ran == Plus(s.ran, mv.EndBody? && g.Body?, k)
    && s'.values == Plus(s.values, mv.Advance? && g.SetValue?, k)
    && s'.exceptions == Plus(s.exceptions, mv.Advance? && g.SetException?, k)
    && s'.completed == Plus(s.completed, mv.Advance? && g.CountCompleted?, k)
    && s'.failed == Plus(s.failed, mv.Advance? && g.CountFailed?, k)
    && s'.stages == s.stages[t := StageAfter(g, mv)]
  }

  lemma EndBodyChanges(s: State, t: nat, k: nat, mv: Move)
    requires WellFormed(s) && t < |s.stages| && mv.EndBody?
    ensures Changes(s, t, k, mv, WrapperStep(s, t, k, mv))
  {
    hide Inner, InvokeStep;
    assert s.stages == s.stages[t := s.stages[t]];
  }

  lemma AdvanceChanges(s: State, t: nat, k: nat, mv: Move)
    requires WellFormed(s) && t < |s.stages| && mv.Advance? && !s.stages[t].Leave?
    ensures Changes(s, t, k, mv, WrapperStep(s, t, k, mv))
  {
    hide Inner, InvokeStep;
    assert s.stages == s.stages[t := s.stages[t]];
  }

  lemma WrapperChanges(s: State, t: nat, k: nat, mv: Move)
    requires WellFormed(s) && t < |s.stages| && if mv.Advance? then !s.stages[t].Leave? else mv.EndBody?
    ensures Changes(s, t, k, mv, WrapperStep(s, t, k, mv))
  {
    hide Changes, WrapperStep;
    if mv.Advance? { AdvanceChanges(s, t, k, mv); } else { EndBodyChanges(s, t, k, mv); }
  }

  function StageAfter(stage: Stage, mv: Move): Stage {
    if mv.EndBody? then (if stage.Body? then (if mv.throws then SetException else SetValue) else stage)
    else
      match stage
      case Enter => Body
      case SetValue => Observe(true)
      case SetException => CountFailed
      case CountFailed => Observe(false)
      case Observe(ok) => if ok then CountCompleted else Leave
      case CountCompleted => Leave
      case _ => stage
  }

  /** The stages in which a promise or a counter is behind, against the steps that move it. */
  lemma StageBalance(g: Stage, mv: Move)
    requires if mv.Advance? then !g.Leave? else mv.EndBody?
    ensures var g' := StageAfter(g, mv);
            && Bit(g' == Observe(true) || g'.CountCompleted?) + Bit(mv.Advance? && g.CountCompleted?)
               == Bit(g == Observe(true) || g.CountCompleted?) + Bit(mv.Advance? && g.SetValue?)
            && Bit(g'.CountFailed?) + Bit(mv.Advance? && g.CountFailed?)
                == Bit(g.CountFailed?) + Bit(mv.Advance? && g.SetException?)
            && Bit(g'.SetValue? || g'.SetException?) + Bit(mv.Advance? && g.SetValue?)
                + Bit(mv.Advance? && g.SetException?)
               == Bit(g.SetValue? || g.SetException?) + Bit(mv.EndBody? && g.Body?)
            && Bit(Counted(g')) == Bit(Counted(g)) + Bit(mv.Advance? && g.CountCompleted?)
                + Bit(mv.Advance? && g.CountFailed?)
  {
  }

  lemma WrapperSettles(s: State, t: nat, mv: Move)
    requires WellFormed(s) && t < |s.stages| && s.v2.roles[t].Running?
             && if mv.Advance? then !s.stages[t].Leave? else mv.EndBody?
    ensures var r, g, s' := s.v2.roles[t], s.stages[t], WrapperStep(s, t, s.v2.roles[t].ticket, mv);
            var g' := s'.stages[t];
            && (forall k: nat ::
                  s'.values[k] + s.completed[k] + Bit(Valued(r, g, k))
                  == s.values[k] + s'.completed[k] + Bit(Valued(r, g', k)))
            && (forall k: nat ::
                  s'.exceptions[k] + s.failed[k] + Bit(Excepted(r, g, k))
                  == s.exceptions[k] + s'.failed[k] + Bit(Excepted(r, g', k)))
  {
    hide WrapperStep, StageAfter;
    WrapperChanges(s, t, s.v2.roles[t].ticket, mv);
    StageBalance(s.stages[t], mv);
  }

  lemma WrapperRuns(s: State, t: nat, mv: Move)
    requires WellFormed(s) && t < |s.stages| && s.v2.roles[t].Running?
             && if mv.Advance? then !s.stages[t].Leave? else mv.EndBody?
    ensures var r, g, s' := s.v2.roles[t], s.stages[t], WrapperStep(s, t, s.v2.roles[t].ticket, mv);
            forall k: nat :: s'.ran[k] + s.values[k] + s.exceptions[k] + Bit(Unsettled(r, g, k))
                             == s.ran[k] + s'.values[k] + s'.exceptions[k] + Bit(Unsettled(r, s'.stages[t], k))
  {
    hide WrapperStep, StageAfter;
    WrapperChanges(s, t, s.v2.roles[t].ticket, mv);
    StageBalance(s.stages[t], mv);
  }

  lemma WrapperKeepsRole(s: State, t: nat, k: nat, mv: Move)
    requires WellFormed(s) && t < |s.stages| && if mv.Advance? then !s.stages[t].Leave? else mv.EndBody?
    ensures WrapperStep(s, t, k, mv).v2 == s.v2 && |WrapperStep(s, t, k, mv).stages| == |s.stages|
  {
    hide WrapperStep;
    WrapperChanges(s, t, k, mv);
  }

  lemma WrapperPromises(s: State, t: nat, mv: Move)
    requires WellFormed(s) && t < |s.stages| && s.v2.roles[t].Running?
             && if mv.Advance? then !s.stages[t].Leave? else mv.EndBody?
    ensures EffectOnPromises(s, t, WrapperStep(s, t, s.v2.roles[t].ticket, mv))
  {
    hide WrapperStep, StageAfter, Valued, Excepted, Unsettled, Plus;
    WrapperKeepsRole(s, t, s.v2.roles[t].ticket, mv);
    WrapperSettles(s, t, mv);
    WrapperRuns(s, t, mv);
  }

  lemma WrapperTasks(s: State, t: nat, mv: Move)
    requires WellFormed(s) && t < |s.stages| && s.v2.roles[t].Running? && !Took(s.v2.q.pcs[t])
    requires if mv.Advance? then !s.stages[t].Leave? else mv.EndBody?
    ensures EffectOnTasks(s, t, WrapperStep(s, t, s.v2.roles[t].ticket, mv))
  {
    hide WrapperStep, StageAfter, Counted;
    var n, s', g := s.v2.roles[t].ticket, WrapperStep(s, t, s.v2.roles[t].ticket, mv), s.stages[t];
    WrapperChanges(s, t, n, mv);
    StageBalance(g, mv);
    forall k: nat
      ensures s'.completed[k] == s.completed[k] + Bit(mv.Advance? && g.CountCompleted? && k == n)
      ensures s'.failed[k] == s.failed[k] + Bit(mv.Advance? && g.CountFailed? && k == n)
    {
    }
  }

  lemma WrapperSubmissions(s: State, t: nat, mv: Move)
    requires WellFormed(s) && t < |s.stages| && s.v2.roles[t].Running?
             && if mv.Advance? then !s.stages[t].Leave? else mv.EndBody?
    ensures EffectOnSubmissions(s, t, WrapperStep(s, t, s.v2.roles[t].ticket, mv))
  {
    hide WrapperStep;
    WrapperChanges(s, t, s.v2.roles[t].ticket, mv);
  }

  /** The second phase of wait_all. */
  lemma PhaseLocal(s: State, t: nat)
    requires Here(s, t) && !s.phases[t].NoPhase?
    ensures Local(s, t, PhaseStep(s, t))
  {
    hide I2.Inv, I2.RoleOk, QI.Inv;
    assert s.v2.roles == s.v2.roles[t := s.v2.roles[t]] && s.v2.q.pcs == s.v2.q.pcs[t := s.v2.q.pcs[t]];
    assert s.stages == s.stages[t := s.stages[t]];
    var s' := PhaseStep(s, t);
    assert s'.v2 == s.v2 && s'.stages == s.stages;
    assert EffectOnTasks(s, t, s') && EffectOnPromises(s, t, s') && EffectOnSubmissions(s, t, s');
  }

  /** The wrapper returns to the inner pool's worker. */
  lemma LeaveLocal(s: State, t: nat)
    requires Here(s, t) && s.phases[t].NoPhase? && s.v2.roles[t].Running? && s.v2.roles[t].job.Task?
             && s.v2.roles[t].call.NoCall?
    requires s.stages[t].Leave? && !s.v2.crashed
    ensures Local(s, t, Inner(s, t, V2.Finish))
  {
    hide I2.Inv, QI.Inv, V2.Step, EffectOnSubmissions, EffectOnTasks, EffectOnPromises;
    I2.StepKeepsInv(s.v2, t, V2.Finish);
    assert s.v2.q.pcs == s.v2.q.pcs[t := s.v2.q.pcs[t]];
    assert s.phases == s.phases[t := s.phases[t]] && s.stages == s.stages[t := s.stages[t]];
    assert !Took(s.v2.q.pcs[t]);
    LeaveIs(s, t);
    LeaveEffects(s, t);
  }

  lemma LeaveIs(s: State, t: nat)
    requires WellFormed(s) && t < |s.stages| && s.v2.roles[t].Running? && s.v2.roles[t].job.Task?
             && s.v2.roles[t].call.NoCall? && !s.v2.crashed
    ensures var k := s.v2.roles[t].ticket;
            Inner(s, t, V2.Finish) == s.(v2 := V2.Become(s.v2, t, V2.CountDown(k)).(ended := s.v2.ended + multiset{k}))
  {
    hide V2.CallStep, V2.WorkerStep;
  }

  lemma LeaveEffects(s: State, t: nat)
    requires WellFormed(s) && t < |s.stages| && s.v2.roles[t].Running? && s.v2.roles[t].job.Task?
             && s.v2.roles[t].call.NoCall? && !s.v2.crashed
    requires s.stages[t].Leave? && !Took(s.v2.q.pcs[t])
    ensures var s' := Inner(s, t, V2.Finish);
        && EffectOnSubmissions(s, t, s') && EffectOnTasks(s, t, s')
        && EffectOnPromises(s, t, s')
  {
    hide Inner;
    LeaveIs(s, t);
  }

  /** Running an empty function ends the process and changes nothing else. */
  lemma CrashKeepsInv(s: State)
    requires Inv(s)
    ensures Inv(s.(v2 := s.v2.(crashed := true)))
  {
    hide I2.Inv, QI.Inv, ThreadOk, Count;
    I2.SameButCrashed(s.v2);
    var s' := s.(v2 := s.v2.(crashed := true));
    SameCounts(s, s');
    assert Submissions(s');
    assert Tasks(s');
    assert Promises(s');
    CrashKeepsThreads(s);
  }

  lemma SameCounts(s: State, s': State)
    requires WellFormed(s) && WellFormed(s') && s.v2.roles == s'.v2.roles && s.v2.q == s'.v2.q && s.stages == s'.stages
    ensures forall f: Trait :: Count(s', f) == Count(s, f)
  {
    forall f: Trait
      ensures Count(s', f) == Count(s, f)
    {
      assert Bits(s', f) == Bits(s, f);
    }
  }

  lemma CrashKeepsThreads(s: State)
    requires WellFormed(s) && Threads(s)
    ensures Threads(s.(v2 := s.v2.(crashed := true)))
  {
    var s' := s.(v2 := s.v2.(crashed := true));
    forall u | 0 <= u < |s'.stages|
      ensures ThreadOk(s', s'.v2.roles[u], s'.stages[u], s'.phases[u])
    {
      assert ThreadOk(s, s.v2.roles[u], s.stages[u], s.phases[u]);
    }
  }

  // ---------------------------------------------------------------- every step

  lemma CallLocal(s: State, t: nat, mv: Move)
    requires Here(s, t) && !s.v2.crashed && s.phases[t].NoPhase? && !V2.CallOf(s.v2.roles[t]).NoCall? && mv.Advance?
    ensures Local(s, t, CallStep(s, t, mv))
  {
    hide I2.Inv, QI.Inv, Inner, Local;
    var inner := V2.Advance(mv.spurious, mv.residue);
    assert Plain(s, t, inner);
    if S2.Throws(s.v2, t, inner) {
      RejectLocal(s, t, mv);
    } else if V2.CallOf(s.v2.roles[t]).WaitReturned? {
      WaitLocal(s, t, mv);
    } else {
      InnerLocal(s, t, inner);
    }
  }

  lemma InvokeLocal(s: State, t: nat, op: Op)
    requires Here(s, t) && !s.v2.crashed && s.phases[t].NoPhase? && V2.CallOf(s.v2.roles[t]).NoCall?
    requires s.v2.roles[t].Client? || (s.v2.roles[t].Running? && s.v2.roles[t].job.Task? && s.stages[t].Body?)
    ensures Local(s, t, InvokeStep(s, t, op))
  {
    hide I2.Inv, I2.RoleOk, QI.Inv, Inner, Local;
    match op
    case Submit => SubmitLocal(s, t);
    case WaitAll => InnerLocal(s, t, V2.Invoke(V2.WaitAll));
    case Shutdown => InnerLocal(s, t, V2.Invoke(V2.Shutdown));
  }

  lemma CrashIs(s: State, t: nat, mv: V2.Move)
    requires WellFormed(s) && t < |s.stages| && s.v2.roles[t].Running? && s.v2.roles[t].job.Husk?
    ensures Inner(s, t, mv) == s.(v2 := V2.Step(s.v2, t, mv))
    ensures V2.Step(s.v2, t, mv) == s.v2 || V2.Step(s.v2, t, mv) == s.v2.(crashed := true)
  {
    hide V2.CallStep, V2.WorkerStep;
  }

  /** The moves that are not a step of the machine: they leave the state as it is. */
  predicate Still(s: State, t: nat, mv: Move)
    requires WellFormed(s)
  {
    || s.v2.crashed || t >= |s.stages|
    || (var role := s.v2.roles[t];
        if !s.phases[t].NoPhase? || !V2.CallOf(role).NoCall? then !mv.Advance?
        else if role.Client? then !mv.Invoke?
        else if role.Running? && role.job.Task? then mv.Invoke? && (!s.stages[t].Body? || mv.op.Shutdown?)
        else !mv.Advance?)
  }

  lemma StepLocal(s: State, t: nat, mv: Move)
    requires WellFormed(s) && !Still(s, t, mv) && Here(s, t) && !(s.v2.roles[t].Running? && s.v2.roles[t].job.Husk?)
    ensures Local(s, t, Step(s, t, mv))
  {
    hide I2.Inv, I2.RoleOk, QI.Inv, Inner, Local, CallStep, InvokeStep, PhaseStep;
    var role := s.v2.roles[t];
    if !s.phases[t].NoPhase? {
      PhaseLocal(s, t);
    } else if !V2.CallOf(role).NoCall? {
      CallLocal(s, t, mv);
    } else if mv.Invoke? {
      InvokeLocal(s, t, mv.op);
    } else if role.Running? {
      if mv.Advance? && s.stages[t].Leave? { LeaveLocal(s, t); } else { WrapperLocal(s, t, mv); }
    } else {
      InnerLocal(s, t, V2.Advance(mv.spurious, mv.residue));
    }
  }

  lemma HuskStep(s: State, t: nat, mv: Move)
    requires Inv(s) && !Still(s, t, mv) && s.v2.roles[t].Running? && s.v2.roles[t].job.Husk?
    ensures Step(s, t, mv) == s || Step(s, t, mv) == s.(v2 := s.v2.(crashed := true))
  {
    hide QI.Inv, Inner, CallStep, InvokeStep, PhaseStep, Submissions, Tasks, Promises;
    assert I2.RoleOk(s.v2.q, s.v2.stop, s.v2.roles[t], s.v2.q.pcs[t]);
    assert ThreadOk(s, s.v2.roles[t], s.stages[t], s.phases[t]);
    CrashIs(s, t, V2.Advance(mv.spurious, mv.residue));
  }

  /** Every step of every thread keeps the invariant. */
  lemma StepKeepsInv(s: State, t: nat, mv: Move)
    requires Inv(s)
    ensures Inv(Step(s, t, mv))
  {
    hide QI.Inv, I2.RoleOk, Inner, Local, CallStep, InvokeStep, PhaseStep, Submissions, Tasks, Promises, ThreadOk;
    if Still(s, t, mv) {
    } else if s.v2.roles[t].Running? && s.v2.roles[t].job.Husk? {
      HuskStep(s, t, mv);
      CrashKeepsInv(s);
    } else {
      assert Here(s, t);
      StepLocal(s, t, mv);
      LocalKeepsInv(s, t, Step(s, t, mv));
    }
  }

  lemma {:induction false} RunKeepsInv(s: State, moves: Schedule)
    requires Inv(s)
    ensures Inv(Run(s, moves))
  {
    hide I2.Inv, Submissions, Tasks, Promises, Threads;
    if moves != [] {
      var last := |moves| - 1;
      RunKeepsInv(s, moves[..last]);
      StepKeepsInv(Run(s, moves[..last]), moves[last].0, moves[last].1);
    }
  }
}
