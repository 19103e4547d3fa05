/** The inductive invariant of the instrumented pool: where every submission and every taken task is. */
module PoolV3Invariant {
  import opened Tally
  import opened QueueEffects
  import Q = QueueMachine
  import V2 = ThreadPoolV2
  import I2 = PoolV2Invariant
  import S2 = PoolV2Submissions
  import opened ThreadPoolV3

  type Trait = (V2.Role, Q.Pc<V2.Job>, Stage) -> bool

  /** The wrapper's counter update is behind it. */
  predicate Counted(stage: Stage) {
    stage == Observe(false) || stage.Leave?
  }

  /** Thread has taken ticket `k`, and its task is in neither counter. */
  predicate Open(role: V2.Role, pc: Q.Pc<V2.Job>, stage: Stage, k: nat) {
    I2.Holds(role, pc, k) && !(role.Running? && Counted(stage))
  }

  predicate Busy(role: V2.Role, pc: Q.Pc<V2.Job>, stage: Stage) {
    Took(pc) || role.CountUp? || (role.Running? && !Counted(stage))
  }

  /** The promise has its value, and `tasks_completed_` does not count it yet. */
  predicate Valued(role: V2.Role, stage: Stage, k: nat) {
    I2.Runs(role, k) && (stage == Observe(true) || stage.CountCompleted?)
  }

  /** The promise has its exception, and `tasks_failed_` does not count it yet. */
  predicate Excepted(role: V2.Role, stage: Stage, k: nat) {
    I2.Runs(role, k) && stage.CountFailed?
  }

  /** The body ended, and the promise is not settled yet. */
  predicate Unsettled(role: V2.Role, stage: Stage, k: nat) {
    I2.Runs(role, k) && (stage.SetValue? || stage.SetException?)
  }

  function Bits(s: State, f: Trait): (ws: seq<nat>)
    requires WellFormed(s)
    ensures |ws| == |s.stages|
  {
    seq<nat>(|s.stages|, i requires 0 <= i < |s.stages| && WellFormed(s) =>
               Bit(f(s.v2.roles[i], s.v2.q.pcs[i], s.stages[i])))
  }

  function Count(s: State, f: Trait): nat
    requires WellFormed(s)
  {
    Sum(Bits(s, f))
  }

  function Pending(id: nat): Trait {
    (role, pc, stage) => S2.Pending(role, pc, id)
  }

  function Opens(k: nat): Trait {
    (role, pc, stage) => Open(role, pc, stage, k)
  }

  function Values(k: nat): Trait {
    (role, pc, stage) => Valued(role, stage, k)
  }

  function Exceptions(k: nat): Trait {
    (role, pc, stage) => Excepted(role, stage, k)
  }

  function Unsettleds(k: nat): Trait {
    (role, pc, stage) => Unsettled(role, stage, k)
  }

  function Waitings(): Trait {
    (role, pc, stage) => S2.Waiting(role, pc)
  }

  /** Every submission is in exactly one place: rejected, inside enqueue, or once in the queue's history. */
  ghost predicate Submissions(s: State)
    requires WellFormed(s)
  {
    && (forall id: nat ::
          s.rejected[id] + Count(s, Pending(id)) + S2.Pushes(s.v2.q.pushed, id)
          == Bit(id < s.submitted))
    && |s.rejected| + Count(s, Waitings()) + s.v2.q.tail == s.submitted
  }

  /** Every taken task is in exactly one place: one of the counters, or with one worker. */
  ghost predicate Tasks(s: State)
    requires WellFormed(s)
  {
    && (forall k: nat :: s.completed[k] + s.failed[k] + Count(s, Opens(k)) == Bit(k < s.v2.q.head))
    && |s.completed| + |s.failed| + Count(s, Busy) == s.v2.q.head
  }

  /** Values and exceptions settle promises of ended bodies, each before its counter. */
  ghost predicate Promises(s: State)
    requires WellFormed(s)
  {
    && (forall k: nat :: s.values[k] == s.completed[k] + Count(s, Values(k)))
    && (forall k: nat :: s.exceptions[k] == s.failed[k] + Count(s, Exceptions(k)))
    && (forall k: nat :: s.ran[k] == s.values[k] + s.exceptions[k] + Count(s, Unsettleds(k)))
  }

  ghost predicate ThreadOk(s: State, role: V2.Role, stage: Stage, phase: Phase) {
    && (role.Running? && !role.call.NoCall? ==> stage.Body?)
    && (role.Running? && role.job.Husk? ==> stage.Enter?)
    && (!phase.NoPhase? ==> V2.CallOf(role).NoCall? && (role.Client? || (role.Running? && stage.Body?)))
    && (phase.LoadCompleted? || phase.LoadFailed? || phase.Returned? ==> phase.submitted <= s.submitted)
    && (phase.LoadFailed? ==> phase.completed <= |s.completed|)
    && (phase.Returned? ==> phase.submitted <= |s.completed| + |s.failed|)
  }

  ghost predicate Threads(s: State)
    requires WellFormed(s)
  {
    forall t :: 0 <= t < |s.stages| ==> ThreadOk(s, s.v2.roles[t], s.stages[t], s.phases[t])
  }

  ghost predicate Inv(s: State) {
    WellFormed(s) && I2.Inv(s.v2) && Submissions(s) && Tasks(s) && Promises(s) && Threads(s)
  }

  // ---------------------------------------------------------------- one thread

  ghost predicate Here(s: State, t: nat) {
    && WellFormed(s) && t < |s.stages| && I2.Inv(s.v2) && I2.Here(s.v2, t)
    && ThreadOk(s, s.v2.roles[t], s.stages[t], s.phases[t])
  }

  /** A step of thread `t` leaves the other threads alone and only adds to the counters. */
  ghost predicate Effect(s: State, t: nat, s': State)
    requires WellFormed(s) && t < |s.stages|
  {
    && WellFormed(s') && |s'.stages| == |s.stages| && I2.Inv(s'.v2)
    && s'.v2.roles == s.v2.roles[t := s'.v2.roles[t]] && s'.v2.q.pcs == s.v2.q.pcs[t := s'.v2.q.pcs[t]]
    && s'.stages == s.stages[t := s'.stages[t]] && s'.phases == s.phases[t := s'.phases[t]]
    && s.submitted <= s'.submitted && |s.completed| <= |s'.completed| && |s.failed| <= |s'.failed|
    && ThreadOk(s', s'.v2.roles[t], s'.stages[t], s'.phases[t])
  }

  ghost predicate EffectOnSubmissions(s: State, t: nat, s': State)
    requires WellFormed(s) && WellFormed(s') && t < |s.stages| == |s'.stages|
  {
    var r, pc, r', pc' := s.v2.roles[t], s.v2.q.pcs[t], s'.v2.roles[t], s'.v2.q.pcs[t];
    && s.submitted <= s'.submitted <= s.submitted + 1
    && (forall id: nat ::
          s'.rejected[id] + Bit(S2.Pending(r', pc', id)) + S2.Pushes(s'.v2.q.pushed, id)
          == s.rejected[id] + Bit(S2.Pending(r, pc, id)) + S2.Pushes(s.v2.q.pushed, id)
              + Bit(s'.submitted > s.submitted && id == s.submitted))
    && |s'.rejected| + Bit(S2.Waiting(r', pc')) + s'.v2.q.tail - s'.submitted
       == |s.rejected| + Bit(S2.Waiting(r, pc)) + s.v2.q.tail - s.submitted
  }

  ghost predicate EffectOnTasks(s: State, t: nat, s': State)
    requires WellFormed(s) && WellFormed(s') && t < |s.stages| == |s'.stages|
  {
    var r, pc, g, r', pc', g' := s.v2.roles[t], s.v2.q.pcs[t], s.stages[t], s'.v2.roles[t], s'.v2.q.pcs[t],
        s'.stages[t];
    && s.v2.q.head <= s'.v2.q.head <= s.v2.q.head + 1
    && (forall k: nat ::
          s'.completed[k] + s'.failed[k] + Bit(Open(r', pc', g', k))
          == s.completed[k] + s.failed[k] + Bit(Open(r, pc, g, k))
              + Bit(s'.v2.q.head > s.v2.q.head && k == s.v2.q.head))
    && |s'.completed| + |s'.failed| + Bit(Busy(r', pc', g')) - s'.v2.q.head
       == |s.completed| + |s.failed| + Bit(Busy(r, pc, g)) - s.v2.q.head
  }

  ghost predicate EffectOnPromises(s: State, t: nat, s': State)
    requires WellFormed(s) && WellFormed(s') && t < |s.stages| == |s'.stages|
  {
    var r, g, r', g' := s.v2.roles[t], s.stages[t], s'.v2.roles[t], s'.stages[t];
    && (forall k: nat ::
          s'.values[k] + s.completed[k] + Bit(Valued(r, g, k))
          == s.values[k] + s'.completed[k] + Bit(Valued(r', g', k)))
    && (forall k: nat ::
          s'.exceptions[k] + s.failed[k] + Bit(Excepted(r, g, k))
          == s.exceptions[k] + s'.failed[k] + Bit(Excepted(r', g', k)))
    && (forall k: nat :: s'.ran[k] + s.values[k] + s.exceptions[k] + Bit(Unsettled(r, g, k))
                         == s.ran[k] + s'.values[k] + s'.exceptions[k] + Bit(Unsettled(r', g', k)))
  }

  ghost predicate Local(s: State, t: nat, s': State)
    requires WellFormed(s) && t < |s.stages|
  {
    Effect(s, t, s') && EffectOnSubmissions(s, t, s') && EffectOnTasks(s, t, s') && EffectOnPromises(s, t, s')
  }

  // ---------------------------------------------------------------- from one thread to all

  lemma CountUpdate(s: State, s': State, t: nat, f: Trait)
    requires WellFormed(s) && t < |s.stages| && Effect(s, t, s')
    ensures Count(s', f) + Bit(f(s.v2.roles[t], s.v2.q.pcs[t], s.stages[t]))
            == Count(s, f) + Bit(f(s'.v2.roles[t], s'.v2.q.pcs[t], s'.stages[t]))
  {
    hide I2.Inv, ThreadOk;
    var v := Bit(f(s'.v2.roles[t], s'.v2.q.pcs[t], s'.stages[t]));
    assert Bits(s', f) == Bits(s, f)[t := v];
    SumUpdate(Bits(s, f), t, v);
  }

  lemma SubmissionsKept(s: State, t: nat, s': State)
    requires WellFormed(s) && t < |s.stages| && Submissions(s) && Effect(s, t, s') && EffectOnSubmissions(s, t, s')
    ensures Submissions(s')
  {
    hide I2.Inv, ThreadOk;
    CountUpdate(s, s', t, Waitings());
    forall id: nat
      ensures s'.rejected[id] + Count(s', Pending(id)) + S2.Pushes(s'.v2.q.pushed, id) == Bit(id < s'.submitted)
    {
      CountUpdate(s, s', t, Pending(id));
    }
  }

  lemma TasksKept(s: State, t: nat, s': State)
    requires WellFormed(s) && t < |s.stages| && Tasks(s) && Effect(s, t, s') && EffectOnTasks(s, t, s')
    ensures Tasks(s')
  {
    hide I2.Inv, ThreadOk;
    CountUpdate(s, s', t, Busy);
    forall k: nat
      ensures s'.completed[k] + s'.failed[k] + Count(s', Opens(k)) == Bit(k < s'.v2.q.head)
    {
      CountUpdate(s, s', t, Opens(k));
    }
  }

  lemma ValuesKept(s: State, t: nat, s': State)
    requires WellFormed(s) && t < |s.stages| && Promises(s) && Effect(s, t, s') && EffectOnPromises(s, t, s')
    ensures forall k: nat :: s'.values[k] == s'.completed[k] + Count(s', Values(k))
  {
    hide I2.Inv, ThreadOk;
    forall k: nat
      ensures s'.values[k] == s'.completed[k] + Count(s', Values(k))
    {
      CountUpdate(s, s', t, Values(k));
    }
  }

  lemma ExceptionsKept(s: State, t: nat, s': State)
    requires WellFormed(s) && t < |s.stages| && Promises(s) && Effect(s, t, s') && EffectOnPromises(s, t, s')
    ensures forall k: nat :: s'.exceptions[k] == s'.failed[k] + Count(s', Exceptions(k))
  {
    hide I2.Inv, ThreadOk;
    forall k: nat
      ensures s'.exceptions[k] == s'.failed[k] + Count(s', Exceptions(k))
    {
      CountUpdate(s, s', t, Exceptions(k));
    }
  }

  lemma RanKept(s: State, t: nat, s': State)
    requires WellFormed(s) && t < |s.stages| && Promises(s) && Effect(s, t, s') && EffectOnPromises(s, t, s')
    ensures forall k: nat :: s'.ran[k] == s'.values[k] + s'.exceptions[k] + Count(s', Unsettleds(k))
  {
    hide I2.Inv, ThreadOk;
    forall k: nat
      ensures s'.ran[k] == s'.values[k] + s'.exceptions[k] + Count(s', Unsettleds(k))
    {
      CountUpdate(s, s', t, Unsettleds(k));
    }
  }

  lemma PromisesKept(s: State, t: nat, s': State)
    requires WellFormed(s) && t < |s.stages| && Promises(s) && Effect(s, t, s') && EffectOnPromises(s, t, s')
    ensures Promises(s')
  {
    hide I2.Inv, EffectOnPromises, Count, ThreadOk;
    ValuesKept(s, t, s');
    ExceptionsKept(s, t, s');
    RanKept(s, t, s');
  }

  lemma ThreadsKept(s: State, t: nat, s': State)
    requires WellFormed(s) && t < |s.stages| && Threads(s) && Effect(s, t, s')
    ensures Threads(s')
  {
    hide I2.Inv;
    forall u | 0 <= u < |s'.stages|
      ensures ThreadOk(s', s'.v2.roles[u], s'.stages[u], s'.phases[u])
    {
      assert ThreadOk(s, s.v2.roles[u], s.stages[u], s.phases[u]);
    }
  }

  lemma LocalKeepsInv(s: State, t: nat, s': State)
    requires Inv(s) && t < |s.stages| && Local(s, t, s')
    ensures Inv(s')
  {
    hide I2.Inv, Submissions, Tasks, Promises, Threads, ThreadOk, EffectOnSubmissions, EffectOnTasks, EffectOnPromises;
    SubmissionsKept(s, t, s');
    TasksKept(s, t, s');
    ThreadsKept(s, t, s');
    PromisesKept(s, t, s');
  }
}
