/** The instrumented pool: the lock-free pool with a wrapper around every task that settles its promise
    and counts it, and a wait_all with a second phase that polls the counters. */
module ThreadPoolV3 {
  import V2 = ThreadPoolV2

  /** What the wrapper of a task does next. */
  datatype Stage =
    | Enter
    | Body
    | SetValue
    | SetException
    | CountFailed
    | Observe(ok: bool)
    | CountCompleted
    | Leave

  /** The second phase of wait_all. */
  datatype Phase =
    | NoPhase
    | LoadSubmitted
    | LoadCompleted(submitted: nat)
    | LoadFailed(submitted: nat, completed: nat)
    | Returned(submitted: nat)

  datatype Op = Submit | WaitAll | Shutdown

  /** Submissions are numbered by the value of `tasks_submitted_` before them. `completed` and `failed`
      hold the tickets of the tasks counted by the two counters, whose values are their sizes. `values`,
      `exceptions` and `ran` hold the tickets whose promise was given a value or an exception and whose
      body ended; `rejected` the submissions whose enqueue threw. */
  datatype State = State(v2: V2.State, stages: seq<Stage>, phases: seq<Phase>, submitted: nat,
                         completed: multiset<nat>, failed: multiset<nat>, rejected: multiset<nat>,
                         values: multiset<nat>, exceptions: multiset<nat>, ran: multiset<nat>)

  datatype Move = Invoke(op: Op) | Advance(spurious: bool, residue: V2.Job) | EndBody(throws: bool)

  predicate WellFormed(s: State) {
    V2.WellFormed(s.v2) && |s.stages| == |s.phases| == |s.v2.roles|
  }

  function Init(capacity: nat, workers: nat, clients: nat): (s: State)
    ensures capacity > 0 ==> WellFormed(s)
  {
    State(V2.Init(capacity, workers, clients), seq(workers + clients, _ => Enter), seq(workers + clients, _ => NoPhase),
          0, multiset{}, multiset{}, multiset{}, multiset{}, multiset{}, multiset{})
  }

  /** A step of the inner pool; a task that starts is at the start of its wrapper. */
  function Inner(s: State, t: nat, mv: V2.Move): (s': State)
    requires WellFormed(s) && t < |s.stages|
    ensures WellFormed(s')
  {
    var v2' := V2.Step(s.v2, t, mv);
    s.(v2 := v2', stages := if v2'.roles[t].Running? && !s.v2.roles[t].Running? then s.stages[t := Enter] else s.stages)
  }

  function ToStage(s: State, t: nat, stage: Stage): State
    requires t < |s.stages|
  {
    s.(stages := s.stages[t := stage])
  }

  function ToPhase(s: State, t: nat, phase: Phase): State
    requires t < |s.phases|
  {
    s.(phases := s.phases[t := phase])
  }

  /** One step of thread `t`; a move that it cannot make leaves the state as it is. */
  function Step(s: State, t: nat, mv: Move): (s': State)
    requires WellFormed(s)
    ensures WellFormed(s')
  {
    if s.v2.crashed || t >= |s.stages| then s
    else
      var role := s.v2.roles[t];
      if !s.phases[t].NoPhase? then (if mv.Advance? then PhaseStep(s, t) else s)
      else if !V2.CallOf(role).NoCall? then (if mv.Advance? then CallStep(s, t, mv) else s)
      else if role.Client? then (if mv.Invoke? then InvokeStep(s, t, mv.op) else s)
      else if role.Running? && role.job.Task? then WrapperStep(s, t, role.ticket, mv)
      else if mv.Advance? then Inner(s, t, V2.Advance(mv.spurious, mv.residue))
      else s
  }

  function InvokeStep(s: State, t: nat, op: Op): (s': State)
    requires WellFormed(s) && t < |s.stages|
    ensures WellFormed(s')
  {
    match op
    case Submit => Inner(s, t, V2.Invoke(V2.Submit(s.submitted))).(submitted := s.submitted + 1)
    case WaitAll => Inner(s, t, V2.Invoke(V2.WaitAll))
    case Shutdown => Inner(s, t, V2.Invoke(V2.Shutdown))
  }

  /** Inside a call of the inner pool; a rejected submission is recorded when enqueue throws, and the
      inner wait_all is followed by the second phase. */
  function CallStep(s: State, t: nat, mv: Move): (s': State)
    requires WellFormed(s) && t < |s.stages| && mv.Advance?
    ensures WellFormed(s')
  {
    var call, s' := V2.CallOf(s.v2.roles[t]), Inner(s, t, V2.Advance(mv.spurious, mv.residue));
    if call.EnqReturned? && !call.accepted then s'.(rejected := s.rejected + multiset{call.id})
    else if call.WaitReturned? then ToPhase(s', t, LoadSubmitted)
    else s'
  }

  function PhaseStep(s: State, t: nat): (s': State)
    requires WellFormed(s) && t < |s.stages|
    ensures WellFormed(s')
  {
    match s.phases[t]
    case NoPhase => s
    case LoadSubmitted => ToPhase(s, t, LoadCompleted(s.submitted))
    case LoadCompleted(n) => ToPhase(s, t, LoadFailed(n, |s.completed|))
    case LoadFailed(n, c) => ToPhase(s, t, if c + |s.failed| < n then LoadCompleted(n) else Returned(n))
    case Returned(_) => ToPhase(s, t, NoPhase)
  }

  function WrapperStep(s: State, t: nat, k: nat, mv: Move): (s': State)
    requires WellFormed(s) && t < |s.stages|
    ensures WellFormed(s')
  {
    match mv
    case Invoke(op) => if s.stages[t].Body? && !op.Shutdown? then InvokeStep(s, t, op) else s
    case EndBody(throws) =>
      if s.stages[t].Body?
      then ToStage(s, t, if throws then SetException else SetValue).(ran := s.ran + multiset{k}) else s
    case Advance(_, _) =>
      match s.stages[t]
      case Enter => ToStage(s, t, Body)
      case Body => s
      case SetValue => ToStage(s, t, Observe(true)).(values := s.values + multiset{k})
      case SetException => ToStage(s, t, CountFailed).(exceptions := s.exceptions + multiset{k})
      case CountFailed => ToStage(s, t, Observe(false)).(failed := s.failed + multiset{k})
      case Observe(ok) => ToStage(s, t, if ok then CountCompleted else Leave)
      case CountCompleted => ToStage(s, t, Leave).(completed := s.completed + multiset{k})
      case Leave => Inner(s, t, V2.Finish)
  }

  type Schedule = seq<(nat, Move)>

  function Run(s: State, moves: Schedule): (s': State)
    requires WellFormed(s)
    ensures WellFormed(s')
  {
    if moves == [] then s
    else
      var last := |moves| - 1;
      Step(Run(s, moves[..last]), moves[last].0, moves[last].1)
  }
}
