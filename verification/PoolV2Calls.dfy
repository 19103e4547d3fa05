/** What a run says about the calls of one thread: when the last one began, how often it was refused, and
    what its steps lead to. */
module PoolV2Calls {
  import opened Tally
  import Q = QueueMachine
  import QI = QueueInvariant
  import S2 = PoolV2Submissions
  import opened ThreadPoolV2
  import opened PoolV2Invariant

  /** Thread `t` is at a point where its next step can be one of the pool's interface. */
  predicate Able(s: State, t: nat) {
    && !s.crashed && t < |s.roles|
    && (s.roles[t].Client? || (s.roles[t].Running? && s.roles[t].job.Task?))
  }

  /** The step of thread `t` calls an operation of the pool. */
  predicate Calls(s: State, t: nat, mv: Move) {
    Able(s, t) && mv.Invoke? && CallOf(s.roles[t]).NoCall?
  }

  predicate Waits(call: Call) {
    call.WaitLoop? || call.WaitEmpty? || call.WaitActive? || call.WaitReturned?
  }

  /** In wait_all, before its last load. */
  predicate InWait(call: Call) {
    call.WaitLoop? || call.WaitEmpty? || call.WaitActive?
  }

  /** In the destructor, before its last join. */
  predicate InDestructor(call: Call) {
    call.StopStore? || call.StopJoin?
  }

  /** In enqueue, before the end of its last attempt. */
  predicate Tries(call: Call) {
    call.EnqCheckStop? || call.EnqPush? || call.EnqRecheckStop?
  }

  lemma WorkersCallNothing(s: State, t: nat, mv: Move)
    requires WellFormed(s) && t < |s.roles| && !Able(s, t)
    ensures var s' := Step(s, t, mv);
            s'.roles == s.roles || (CallOf(s.roles[t]).NoCall? && CallOf(s'.roles[t]).NoCall?)
  {
    hide Q.Step, CallStep, WorkerStep;
    if !s.crashed && !s.roles[t].Running? && mv.Advance? {
      S2.WorkerGoes(s, t, mv.spurious, mv.residue);
    }
  }

  /** What the call of thread `t` may be after its step, unless that is one inside an attempt of enqueue. */
  predicate Follows(s: State, t: nat, mv: Move, call': Call)
    requires WellFormed(s) && Able(s, t)
  {
    var call := s.roles[t].call;
    && (Tries(call') ==> (Tries(call) && call' == call) || (Calls(s, t, mv) && call'.EnqCheckStop?))
    && (Waits(call') ==> (Waits(call) && call'.since == call.since)
                         || (Calls(s, t, mv) && mv.op.WaitAll? && call'.since == s.q.tail))
    && (Calls(s, t, mv) ==> match mv.op
                            case Submit(id) => call' == EnqCheckStop(id)
                            case WaitAll => call' == WaitLoop(s.q.tail)
                            case Shutdown => call' == if s.roles[t].Client? then StopStore else NoCall)
    && (call'.WaitReturned? && !call.WaitReturned? <==> mv.Advance? && call.WaitActive? && s.active <= 0)
    && (InWait(call) && !call'.WaitReturned? ==> InWait(call'))
    && (call'.StopReturned? && !call.StopReturned?
        <==> && mv.Advance? && call.StopJoin?
             && forall u :: 0 <= u < |s.roles| ==> s.roles[u].Client? || s.roles[u].Exited?)
    && (InDestructor(call) && !call'.StopReturned? ==> InDestructor(call'))
    && (mv.Advance? && (call.WaitReturned? || call.StopReturned? || call.EnqReturned?) ==> call'.NoCall?)
    && (!mv.Advance? && !Calls(s, t, mv) ==> call' == call)
    && (call'.EnqReturned? && !call'.accepted ==> call == call' && !mv.Advance?)
  }

  lemma CallBegins(s: State, t: nat, mv: Move)
    requires WellFormed(s) && Able(s, t) && !mv.Advance?
    ensures Follows(s, t, mv, CallOf(Step(s, t, mv).roles[t]))
  {
    hide Q.Step;
  }

  lemma WaitGoes(s: State, t: nat, mv: Move)
    requires WellFormed(s) && Able(s, t) && mv.Advance? && Waits(s.roles[t].call)
    ensures Follows(s, t, mv, CallOf(Step(s, t, mv).roles[t]))
  {
    hide Q.Step, EnqueueStep, WorkerStep;
  }

  lemma StopGoes(s: State, t: nat, mv: Move)
    requires WellFormed(s) && Able(s, t) && mv.Advance? && !Waits(s.roles[t].call)
    requires var call := s.roles[t].call; call.NoCall? || call.StopStore? || call.StopJoin? || call.StopReturned?
    ensures Follows(s, t, mv, CallOf(Step(s, t, mv).roles[t]))
  {
    hide Q.Step, EnqueueStep, WaitStep, WorkerStep;
  }

  lemma EnqueueEnds(s: State, t: nat, mv: Move)
    requires WellFormed(s) && Able(s, t) && mv.Advance? && (s.roles[t].call.EnqCount? || s.roles[t].call.EnqReturned?)
    ensures Follows(s, t, mv, CallOf(Step(s, t, mv).roles[t]))
  {
    hide Q.Step, WaitStep, WorkerStep;
  }

  lemma CallGoes(s: State, t: nat, mv: Move)
    requires WellFormed(s) && Able(s, t) && !(mv.Advance? && Tries(s.roles[t].call))
    ensures Follows(s, t, mv, CallOf(Step(s, t, mv).roles[t]))
  {
    hide Step, Follows;
    var call := s.roles[t].call;
    if !mv.Advance? {
      CallBegins(s, t, mv);
    } else if Waits(call) {
      WaitGoes(s, t, mv);
    } else if call.EnqCount? || call.EnqReturned? {
      EnqueueEnds(s, t, mv);
    } else {
      StopGoes(s, t, mv);
    }
  }

  /** Where a step inside an attempt of enqueue leads to. */
  predicate Attempts(s: State, t: nat, call': Call)
    requires WellFormed(s) && Able(s, t)
  {
    var pc := s.q.pcs[t];
    match s.roles[t].call
    case EnqCheckStop(id) => call' == if s.stop then EnqReturned(id, false) else EnqPush(id, 0)
    case EnqPush(id, n) =>
      call' == if pc.EnqAccepted? then EnqCount(id) else if pc.EnqFull? then EnqRecheckStop(id, n) else EnqPush(id, n)
    case EnqRecheckStop(id, n) => call' == if s.stop || n >= 1000 then EnqReturned(id, false) else EnqPush(id, n + 1)
    case _ => true
  }

  lemma TryGoes(s: State, t: nat, mv: Move)
    requires WellFormed(s) && Able(s, t) && mv.Advance? && Tries(s.roles[t].call)
    ensures Attempts(s, t, CallOf(Step(s, t, mv).roles[t]))
  {
    hide Q.Step, WaitStep, WorkerStep;
  }

  lemma OthersStay(s: State, u: nat, mv: Move)
    requires Inv(s)
    ensures var s' := Step(s, u, mv);
            |s'.roles| == |s.roles| && forall t :: 0 <= t < |s.roles| && t != u ==> s'.roles[t] == s.roles[t]
  {
    hide QI.Inv, RoleOk, CallStep, WorkerStep, EffectOnCounters, EffectOnTickets, EffectOnDrain;
    if !Inert(s, u, mv) {
      assert Here(s, u);
      StepEffect(s, u, mv);
    }
  }

  // ---------------------------------------------------------------- what the moves of a run say

  /** `tail_` when thread `t` last called wait_all. */
  function CalledTail(s: State, moves: Schedule, t: nat): nat
    requires WellFormed(s)
  {
    if moves == [] then 0
    else
      var last := |moves| - 1;
      var before, u, mv := Run(s, moves[..last]), moves[last].0, moves[last].1;
      if u == t && Calls(before, t, mv) && mv.op.WaitAll? then before.q.tail else CalledTail(s, moves[..last], t)
  }

  /** The step of thread `t` in which an attempt of its enqueue comes back refused. */
  predicate Refused(s: State, t: nat, mv: Move)
    requires WellFormed(s)
  {
    Able(s, t) && mv.Advance? && s.roles[t].call.EnqPush? && s.q.pcs[t].EnqFull?
  }

  /** How many attempts were refused since thread `t` last called enqueue. */
  function Refusals(s: State, moves: Schedule, t: nat): nat
    requires WellFormed(s)
  {
    if moves == [] then 0
    else
      var last := |moves| - 1;
      var before, u, mv := Run(s, moves[..last]), moves[last].0, moves[last].1;
      if u == t && Calls(before, t, mv) && mv.op.Submit? then 0
      else Refusals(s, moves[..last], t) + Bit(u == t && Refused(before, t, mv))
  }

  /** Nobody is in a call. */
  predicate NobodyCalls(s: State) {
    forall t :: 0 <= t < |s.roles| ==> CallOf(s.roles[t]).NoCall?
  }

  /** A wait_all under way remembers where `tail_` was when it was called. */
  lemma {:induction false} WaitsSinceItsCall(s0: State, moves: Schedule, t: nat)
    requires Inv(s0) && NobodyCalls(s0) && t < |s0.roles|
    ensures var call := CallOf(Run(s0, moves).roles[t]); Waits(call) ==> call.since == CalledTail(s0, moves, t)
  {
    hide Accounts, Tickets, Draining, QI.Inv, RoleOk, Step, Follows, Attempts;
    if moves != [] {
      var last := |moves| - 1;
      var s, u, mv := Run(s0, moves[..last]), moves[last].0, moves[last].1;
      WaitsSinceItsCall(s0, moves[..last], t);
      RunKeepsInv(s0, moves[..last]);
      if u != t {
        OthersStay(s, u, mv);
      } else {
        WaitsSince(s, t, mv);
      }
    }
  }

  lemma WaitsSince(s: State, t: nat, mv: Move)
    requires WellFormed(s) && t < |s.roles|
    ensures var call, call' := CallOf(s.roles[t]), CallOf(Step(s, t, mv).roles[t]);
            Waits(call') ==> if Calls(s, t, mv) && mv.op.WaitAll? then call'.since == s.q.tail
                             else Waits(call) && call'.since == call.since
  {
    hide Step;
    if !Able(s, t) {
      WorkersCallNothing(s, t, mv);
    } else if mv.Advance? && Tries(s.roles[t].call) {
      TryGoes(s, t, mv);
    } else {
      CallGoes(s, t, mv);
    }
  }

  /** An enqueue under way counts its refused attempts, and there are at most 1001 of them. */
  predicate Counts(call: Call, refusals: nat) {
    && (call.EnqCheckStop? ==> refusals == 0)
    && (call.EnqPush? ==> refusals == call.retries <= 1000)
    && (call.EnqRecheckStop? ==> refusals == call.retries + 1 <= 1001)
  }

  lemma {:induction false} CountsRefusals(s0: State, moves: Schedule, t: nat)
    requires Inv(s0) && NobodyCalls(s0) && t < |s0.roles|
    ensures Counts(CallOf(Run(s0, moves).roles[t]), Refusals(s0, moves, t))
  {
    hide Accounts, Tickets, Draining, QI.Inv, RoleOk, Step;
    if moves != [] {
      var last := |moves| - 1;
      var s, u, mv := Run(s0, moves[..last]), moves[last].0, moves[last].1;
      CountsRefusals(s0, moves[..last], t);
      RunKeepsInv(s0, moves[..last]);
      if u != t {
        OthersStay(s, u, mv);
      } else if !Able(s, t) {
        WorkersCallNothing(s, t, mv);
      } else if mv.Advance? && Tries(s.roles[t].call) {
        TryGoes(s, t, mv);
      } else {
        CallGoes(s, t, mv);
      }
    }
  }

  lemma JoinedStays(s: State, u: nat, mv: Move)
    requires Inv(s) && Joined(s.roles)
    ensures Joined(Step(s, u, mv).roles)
  {
    hide QI.Inv, RoleOk, CallStep, EffectOnCounters, EffectOnTickets, Accounts, Tickets, Draining;
    OthersStay(s, u, mv);
    if u < |s.roles| && s.roles[u].Client? && !Inert(s, u, mv) {
      assert Here(s, u);
      StepEffect(s, u, mv);
    }
  }

  /** The destructor has returned in thread `t`: every worker has left its loop. */
  lemma {:induction false} ReturnedIsJoined(s0: State, moves: Schedule, t: nat)
    requires Inv(s0) && NobodyCalls(s0) && t < |s0.roles|
    requires CallOf(Run(s0, moves).roles[t]).StopReturned?
    ensures Joined(Run(s0, moves).roles)
  {
    hide Accounts, Tickets, Draining, QI.Inv, RoleOk, Step, Follows, Attempts, Joined;
    if moves != [] {
      var last := |moves| - 1;
      var s, u, mv := Run(s0, moves[..last]), moves[last].0, moves[last].1;
      RunKeepsInv(s0, moves[..last]);
      OthersStay(s, u, mv);
      if CallOf(s.roles[t]).StopReturned? {
        ReturnedIsJoined(s0, moves[..last], t);
      } else {
        assert u == t;
        Returns(s, t, mv);
      }
      JoinedStays(s, u, mv);
    }
  }

  lemma Returns(s: State, t: nat, mv: Move)
    requires WellFormed(s) && t < |s.roles|
    requires !CallOf(s.roles[t]).StopReturned? && CallOf(Step(s, t, mv).roles[t]).StopReturned?
    ensures Joined(s.roles)
  {
    hide Step;
    if !Able(s, t) {
      WorkersCallNothing(s, t, mv);
    } else if mv.Advance? && Tries(s.roles[t].call) {
      TryGoes(s, t, mv);
    } else {
      CallGoes(s, t, mv);
    }
  }

  /** The step in which a wait_all of thread `t` comes to its end. */
  predicate WaitReturns(s: State, t: nat, mv: Move)
    requires WellFormed(s)
  {
    t < |s.roles| && InWait(CallOf(s.roles[t])) && !InWait(CallOf(Step(s, t, mv).roles[t]))
  }

  lemma WaitReturnsExactly(s: State, t: nat, mv: Move)
    requires WellFormed(s)
    ensures WaitReturns(s, t, mv) <==> Able(s, t) && mv.Advance? && s.roles[t].call.WaitActive? && s.active <= 0
  {
    hide Step;
    if t < |s.roles| {
      if !Able(s, t) {
        WorkersCallNothing(s, t, mv);
      } else if mv.Advance? && Tries(s.roles[t].call) {
        TryGoes(s, t, mv);
      } else {
        CallGoes(s, t, mv);
      }
    }
  }

  /** The step in which a destructor in thread `t` comes to its end. */
  predicate DestructorReturns(s: State, t: nat, mv: Move)
    requires WellFormed(s)
  {
    t < |s.roles| && InDestructor(CallOf(s.roles[t])) && !InDestructor(CallOf(Step(s, t, mv).roles[t]))
  }

  lemma DestructorReturnsExactly(s: State, t: nat, mv: Move)
    requires WellFormed(s)
    ensures DestructorReturns(s, t, mv)
            <==> && Able(s, t) && mv.Advance? && s.roles[t].call.StopJoin?
                 && forall u :: 0 <= u < |s.roles| ==> s.roles[u].Client? || s.roles[u].Exited?
  {
    hide Step;
    if t < |s.roles| {
      if !Able(s, t) {
        WorkersCallNothing(s, t, mv);
      } else if mv.Advance? && Tries(s.roles[t].call) {
        TryGoes(s, t, mv);
      } else {
        CallGoes(s, t, mv);
      }
    }
  }

  /** The step in which an enqueue of thread `t` comes to its end without a task in the queue. */
  predicate GivesUp(s: State, t: nat, mv: Move)
    requires WellFormed(s)
  {
    && t < |s.roles|
    && var call, call' := CallOf(s.roles[t]), CallOf(Step(s, t, mv).roles[t]);
       Tries(call) && !Tries(call') && !call'.EnqCount?
  }

  lemma GivesUpExactly(s: State, t: nat, mv: Move)
    requires WellFormed(s)
    ensures GivesUp(s, t, mv)
            <==> && Able(s, t) && mv.Advance?
                 && var call := s.roles[t].call;
                    || (call.EnqCheckStop? && s.stop)
                    || (call.EnqRecheckStop? && (s.stop || call.retries >= 1000))
  {
    hide Step;
    if t < |s.roles| {
      if !Able(s, t) {
        WorkersCallNothing(s, t, mv);
      } else if mv.Advance? && Tries(s.roles[t].call) {
        TryGoes(s, t, mv);
      } else {
        CallGoes(s, t, mv);
      }
    }
  }
}
