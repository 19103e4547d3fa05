/** Where a submission is between the call of enqueue and the queue. */
module PoolV2Submissions {
  import opened Tally
  import Q = QueueMachine
  import QI = QueueInvariant
  import opened QueueEffects
  import opened ThreadPoolV2
  import opened PoolV2Invariant

  /** Thread is in enqueue with submission `id`, which is not in the queue. */
  predicate Pending(role: Role, pc: Q.Pc<Job>, id: nat) {
    var call := CallOf(role);
    || ((call.EnqCheckStop? || call.EnqPush? || call.EnqRecheckStop?) && call.id == id && !Won(pc))
    || call == EnqReturned(id, false)
  }

  predicate Waiting(role: Role, pc: Q.Pc<Job>) {
    var call := CallOf(role);
    ((call.EnqCheckStop? || call.EnqPush? || call.EnqRecheckStop?) && !Won(pc)) || (call.EnqReturned? && !call.accepted)
  }

  /** How often submission `id` was put into the queue. */
  function Pushes(pushed: seq<Job>, id: nat): nat {
    if pushed == [] then 0
    else Pushes(pushed[..|pushed| - 1], id) + Bit(pushed[|pushed| - 1].id == id)
  }

  lemma PushesAppend(pushed: seq<Job>, job: Job, id: nat)
    ensures Pushes(pushed + [job], id) == Pushes(pushed, id) + Bit(job.id == id)
  {
    assert (pushed + [job])[..|pushed|] == pushed;
  }

  /** The step of thread `t` calls enqueue. */
  predicate Enters(s: State, t: nat, mv: Move) {
    t < |s.roles| && mv.Invoke? && mv.op.Submit? && CallOf(s.roles[t]).NoCall?
    && (s.roles[t].Client? || (s.roles[t].Running? && s.roles[t].job.Task?))
  }

  /** The step of thread `t` leaves enqueue by its exception. */
  predicate Throws(s: State, t: nat, mv: Move) {
    t < |s.roles| && mv.Advance? && CallOf(s.roles[t]).EnqReturned? && !CallOf(s.roles[t]).accepted
  }

  ghost predicate PendingMoves(s: State, t: nat, mv: Move, s': State)
    requires WellFormed(s) && WellFormed(s') && t < |s.roles| == |s'.roles|
  {
    && (forall id: nat ::
          Bit(Pending(s'.roles[t], s'.q.pcs[t], id)) + Pushes(s'.q.pushed, id)
            + Bit(Throws(s, t, mv) && CallOf(s.roles[t]).id == id)
          == Bit(Pending(s.roles[t], s.q.pcs[t], id)) + Pushes(s.q.pushed, id)
              + Bit(Enters(s, t, mv) && mv.op.id == id))
    && Bit(Waiting(s'.roles[t], s'.q.pcs[t])) + s'.q.tail + Bit(Throws(s, t, mv))
       == Bit(Waiting(s.roles[t], s.q.pcs[t])) + s.q.tail + Bit(Enters(s, t, mv))
  }

  lemma PendingInside(s: State, t: nat, mv: Move)
    requires Here(s, t) && !s.q.pcs[t].Idle? && !Q.Done(s.q.pcs[t]) && mv.Advance?
    ensures PendingMoves(s, t, mv, Queue(s, t, Q.Advance(mv.spurious, mv.residue)))
  {
    hide QI.Inv, Q.Access;
    AdvanceEffect(s.q, t, mv.spurious, mv.residue);
    forall id: nat, job: Job
      ensures Pushes(s.q.pushed + [job], id) == Pushes(s.q.pushed, id) + Bit(job.id == id)
    {
      PushesAppend(s.q.pushed, job, id);
    }
    assert s.q.pushed + [] == s.q.pushed;
  }

  lemma PendingEnqueue(s: State, t: nat, mv: Move)
    requires Here(s, t) && (s.q.pcs[t].Idle? || Q.Done(s.q.pcs[t])) && mv.Advance?
    requires s.roles[t].Client? || (s.roles[t].Running? && s.roles[t].job.Task?)
    requires var call := s.roles[t].call; call.EnqCheckStop? || call.EnqPush? || call.EnqRecheckStop?
    ensures PendingMoves(s, t, mv, CallStep(s, t, s.roles[t].call, mv))
  {
    hide QI.Inv, Q.Step, CallStep;
    EnqueueGoes(s, t, mv.spurious, mv.residue);
  }

  /** No item goes into the queue but by a compare-exchange on `tail_`. */
  lemma PushedStays(s: State, t: nat, s': State)
    requires Here(s, t) && Local(s, t, s') && !s.q.pcs[t].EnqCas?
    ensures s'.q.pushed == s.q.pushed && s'.q.tail == s.q.tail
  {
    hide QI.Inv, RoleOk, EffectOnCounters, EffectOnTickets;
    Results(s.q, t);
    Results(s'.q, t);
  }

  lemma EnqueueEnds(s: State, t: nat, mv: Move)
    requires Calling(s, t) && mv.Advance? && (s.roles[t].call.EnqCount? || s.roles[t].call.EnqReturned?)
    ensures var call' := CallOf(CallStep(s, t, s.roles[t].call, mv).roles[t]);
            call'.NoCall? || (call'.EnqReturned? && call'.accepted)
  {
    hide Q.Step, WaitStep;
  }

  lemma WaitGoes(s: State, t: nat, mv: Move)
    requires Calling(s, t) && mv.Advance? && (s.roles[t].call.WaitLoop? || s.roles[t].call.WaitEmpty?)
    ensures var call' := CallOf(CallStep(s, t, s.roles[t].call, mv).roles[t]);
            call'.WaitLoop? || call'.WaitEmpty? || call'.WaitActive?
  {
    hide Q.Step, EnqueueStep;
  }

  lemma PlainGoes(s: State, t: nat, mv: Move)
    requires Calling(s, t) && mv.Advance?
    requires var call := s.roles[t].call;
        || call.NoCall? || call.WaitActive? || call.WaitReturned? || call.StopStore?
        || call.StopJoin? || call.StopReturned?
    ensures var call' := CallOf(CallStep(s, t, s.roles[t].call, mv).roles[t]);
            call'.NoCall? || call'.WaitLoop? || call'.WaitReturned? || call'.StopJoin? || call'.StopReturned?
  {
    hide Q.Step, EnqueueStep, WaitStep;
  }

  lemma CallGoes(s: State, t: nat, mv: Move)
    requires Calling(s, t) && mv.Advance?
    requires var call := s.roles[t].call; !call.EnqCheckStop? && !call.EnqPush? && !call.EnqRecheckStop?
    ensures var call' := CallOf(CallStep(s, t, s.roles[t].call, mv).roles[t]);
            !call'.EnqCheckStop? && !call'.EnqPush? && !call'.EnqRecheckStop? && (call'.EnqReturned? ==> call'.accepted)
  {
    hide CallStep;
    var call := s.roles[t].call;
    if call.EnqCount? || call.EnqReturned? {
      EnqueueEnds(s, t, mv);
    } else if call.WaitLoop? || call.WaitEmpty? {
      WaitGoes(s, t, mv);
    } else {
      PlainGoes(s, t, mv);
    }
  }

  lemma CallStarts(s: State, t: nat, mv: Move)
    requires WellFormed(s) && t < |s.roles| && (s.roles[t].Client? || s.roles[t].Running?) && !mv.Advance?
    ensures var call, s' := s.roles[t].call, CallStep(s, t, s.roles[t].call, mv);
            var call' := CallOf(s'.roles[t]);
            && s'.q == s.q
            && if mv.Invoke? && mv.op.Submit? && call.NoCall? then call' == EnqCheckStop(mv.op.id)
               else call' == call || (call.NoCall? && (call'.WaitLoop? || call'.StopStore?))
  {
    hide Q.Step;
  }

  /** The other steps of a call, and the call itself. */
  lemma PendingCall(s: State, t: nat, mv: Move)
    requires Here(s, t) && (s.q.pcs[t].Idle? || Q.Done(s.q.pcs[t]))
    requires s.roles[t].Client? || (s.roles[t].Running? && s.roles[t].job.Task?)
    requires var call := s.roles[t].call; mv.Advance? ==> !call.EnqCheckStop? && !call.EnqPush? && !call.EnqRecheckStop?
    ensures PendingMoves(s, t, mv, CallStep(s, t, s.roles[t].call, mv))
  {
    hide QI.Inv, Q.Step, Local, CallStep;
    CallEffect(s, t, mv);
    PushedStays(s, t, CallStep(s, t, s.roles[t].call, mv));
    if mv.Advance? { CallGoes(s, t, mv); } else { CallStarts(s, t, mv); }
  }

  lemma WorkerGoes(s: State, t: nat, spurious: bool, residue: Job)
    requires WellFormed(s) && t < |s.roles| && !s.roles[t].Client? && !s.roles[t].Running?
    ensures CallOf(WorkerStep(s, t, spurious, residue).roles[t]).NoCall?
  {
    hide Q.Step;
  }

  /** Outside of enqueue nothing is pending. */
  lemma PendingWorker(s: State, t: nat, mv: Move)
    requires Here(s, t) && (s.q.pcs[t].Idle? || Q.Done(s.q.pcs[t])) && mv.Advance? && !s.roles[t].Client?
             && !s.roles[t].Running?
    ensures PendingMoves(s, t, mv, WorkerStep(s, t, mv.spurious, mv.residue))
  {
    hide QI.Inv, Q.Step, Local, WorkerStep;
    WorkerEffect(s, t, mv.spurious, mv.residue);
    PushedStays(s, t, WorkerStep(s, t, mv.spurious, mv.residue));
    WorkerGoes(s, t, mv.spurious, mv.residue);
  }

  lemma PendingFinish(s: State, t: nat)
    requires WellFormed(s) && t < |s.roles| && s.roles[t].Running? && s.roles[t].job.Task? && s.roles[t].call.NoCall?
    ensures PendingMoves(s, t, Finish, Step(s, t, Finish))
  {
  }

  lemma PendingAtCall(s: State, t: nat, mv: Move)
    requires Here(s, t) && (s.roles[t].Client? || (s.roles[t].Running? && s.roles[t].job.Task?))
    requires mv.Advance? ==> s.q.pcs[t].Idle? || Q.Done(s.q.pcs[t])
    ensures PendingMoves(s, t, mv, CallStep(s, t, s.roles[t].call, mv))
  {
    hide QI.Inv, Q.Step, PendingMoves, CallStep;
    var call := s.roles[t].call;
    if mv.Advance? && (call.EnqCheckStop? || call.EnqPush? || call.EnqRecheckStop?) {
      PendingEnqueue(s, t, mv);
    } else if s.q.pcs[t].Idle? || Q.Done(s.q.pcs[t]) {
      PendingCall(s, t, mv);
    } else {
      PendingBusy(s, t, mv);
    }
  }

  lemma PendingBusy(s: State, t: nat, mv: Move)
    requires Here(s, t) && (s.roles[t].Client? || s.roles[t].Running?) && !s.q.pcs[t].Idle? && !mv.Advance?
    ensures PendingMoves(s, t, mv, CallStep(s, t, s.roles[t].call, mv))
  {
    hide QI.Inv, Q.Step;
  }

  /** A submission enters enqueue, goes from there into the queue or out by an exception, and nowhere else. */
  lemma StepMovesPending(s: State, t: nat, mv: Move)
    requires Here(s, t) && !Inert(s, t, mv)
    ensures PendingMoves(s, t, mv, Step(s, t, mv))
  {
    hide QI.Inv, Q.Step, CallStep, WorkerStep, PendingMoves;
    var inside := mv.Advance? && !s.q.pcs[t].Idle? && !Q.Done(s.q.pcs[t]);
    if s.roles[t].Running? && mv.Finish? && s.roles[t].call.NoCall? {
      PendingFinish(s, t);
    } else if inside {
      PendingInside(s, t, mv);
      InsideIsQueue(s, t, mv);
    } else if s.roles[t].Client? || s.roles[t].Running? {
      PendingAtCall(s, t, mv);
    } else {
      PendingWorker(s, t, mv);
    }
  }
}
