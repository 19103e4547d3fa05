/** The mutex and condition variable pool as a step machine: one critical section, or one access outside
    of it, a step. A wait is split where its lock is held but other threads can still act: taking the
    lock, testing the predicate, going to sleep. Any sleeper may wake for no reason. */
module ThreadPoolV1 {
  import opened Counting

  datatype Owner = Free | HeldBy(thread: nat)

  datatype Op = Submit(id: nat) | WaitAll | Shutdown

  /** Where a thread is inside enqueue, wait_all or the destructor. */
  datatype Call =
    | NoCall
    | EnqCheckStop(id: nat)
    | EnqPush(id: nat)
    | EnqNotify
    | WaitLock
    | WaitTest
    | WaitBlock
    | WaitSleep
    | StopSet
    | StopNotify
    | StopJoin
    | StopReturned

  /** A client, or a worker at some point of its loop. */
  datatype Role =
    | Client(call: Call)
    | WorkerLock
    | WorkerTest
    | WorkerBlock
    | WorkerSleep
    | Running(ticket: nat, call: Call)
    | CountDown(ticket: nat)
    | Announce
    | Exited

  /** `pushed` records every task that enqueue put into the queue, `popped` how many were taken out of
      it; the `k`-th one has ticket `k`. `ended` records the tickets whose task ended, `announced` that
      the destructor called notify_all, `latecomers` counts the clients past enqueue's stop check
      when `stop_` was set. The code has none of these. */
  datatype State = State(queue: seq<nat>, owner: Owner, stop: bool, active: int, roles: seq<Role>,
                         pushed: seq<nat>, popped: nat, ended: multiset<nat>, announced: bool, latecomers: nat)

  /** `target` is the sleeper that a notify_one picks; `Wake` is a spurious wake-up. */
  datatype Move = Invoke(op: Op) | Advance(target: nat) | Finish | Wake

  function Init(workers: nat, clients: nat): State {
    State([], Free, false, 0,
          seq(workers + clients, i requires 0 <= i => if i < workers then WorkerLock else Client(NoCall)),
          [], 0, multiset{}, false, 0)
  }

  function CallOf(role: Role): Call {
    if role.Client? || role.Running? then role.call else NoCall
  }

  function WithCall(role: Role, call: Call): Role
    requires role.Client? || role.Running?
  {
    if role.Client? then Client(call) else role.(call := call)
  }

  function Become(s: State, t: nat, role: Role): State
    requires t < |s.roles|
  {
    s.(roles := s.roles[t := role])
  }

  predicate Late(role: Role) {
    role.Client? && role.call.EnqPush?
  }

  predicate SomeoneSleeps(roles: seq<Role>) {
    exists u :: 0 <= u < |roles| && roles[u].WorkerSleep?
  }

  predicate Joined(roles: seq<Role>) {
    forall u :: 0 <= u < |roles| ==> roles[u].Client? || roles[u].Exited?
  }

  /** notify_all on the condition of the workers. */
  function WakeWorkers(roles: seq<Role>): (woken: seq<Role>)
    ensures |woken| == |roles|
  {
    seq(|roles|, i requires 0 <= i < |roles| => if roles[i].WorkerSleep? then WorkerLock else roles[i])
  }

  /** notify_all on the condition of wait_all. */
  function WakeWaiters(roles: seq<Role>): (woken: seq<Role>)
    ensures |woken| == |roles|
  {
    seq(|roles|, i requires 0 <= i < |roles| =>
          if CallOf(roles[i]).WaitSleep? then WithCall(roles[i], WaitLock) else roles[i])
  }

  /** One step of thread `t`; a move that its role does not allow, and waiting for the lock or for the
      workers, leave the state as it is. */
  function Step(s: State, t: nat, mv: Move): (s': State)
    ensures |s'.roles| == |s.roles|
  {
    if t >= |s.roles| then s
    else
      match s.roles[t]
      case Client(call) => CallStep(s, t, call, mv)
      case Running(k, call) =>
        if mv.Finish? && call.NoCall? then Become(s, t, CountDown(k)).(ended := s.ended + multiset{k})
        else CallStep(s, t, call, mv)
      case WorkerSleep => if mv.Wake? then Become(s, t, WorkerLock) else s
      case _ => if mv.Advance? then WorkerStep(s, t) else s
  }

  /** A step of the worker's loop outside of its task. */
  function WorkerStep(s: State, t: nat): (s': State)
    requires t < |s.roles|
    ensures |s'.roles| == |s.roles|
  {
    match s.roles[t]
    case WorkerLock => if s.owner.Free? then Become(s, t, WorkerTest).(owner := HeldBy(t)) else s
    case WorkerTest =>
      if !s.stop && s.queue == [] then Become(s, t, WorkerBlock)
      else if s.queue == [] then Become(s, t, Exited).(owner := Free)
      else Become(s, t, Running(s.popped, NoCall)).(owner := Free, queue := s.queue[1..], popped := s.popped + 1,
                                                    active := s.active + 1)
    case WorkerBlock => Become(s, t, WorkerSleep).(owner := Free)
    case CountDown(_) => Become(s, t, Announce).(active := s.active - 1)
    case Announce => s.(roles := WakeWaiters(s.roles)[t := WorkerLock])
    case _ => s
  }

  function Goto(s: State, t: nat, call: Call): State
    requires t < |s.roles| && (s.roles[t].Client? || s.roles[t].Running?)
  {
    Become(s, t, WithCall(s.roles[t], call))
  }

  /** A step inside enqueue, wait_all or the destructor. */
  function CallStep(s: State, t: nat, call: Call, mv: Move): (s': State)
    requires t < |s.roles| && (s.roles[t].Client? || s.roles[t].Running?)
    ensures |s'.roles| == |s.roles|
  {
    match mv
    case Finish => s
    case Wake => if call.WaitSleep? then Goto(s, t, WaitLock) else s
    case Invoke(op) =>
      if !call.NoCall? then s
      else (match op
            case Submit(id) => Goto(s, t, EnqCheckStop(id))
            case WaitAll => Goto(s, t, WaitLock)
            case Shutdown => if s.roles[t].Client? then Goto(s, t, StopSet) else s)
    case Advance(target) =>
      match call
      case EnqCheckStop(id) => Goto(s, t, if s.stop then NoCall else EnqPush(id))
      case EnqPush(id) =>
        if s.owner.Free? then Goto(s, t, EnqNotify).(queue := s.queue + [id], pushed := s.pushed + [id]) else s
      case EnqNotify =>
        if target < |s.roles| && s.roles[target].WorkerSleep? then Goto(Become(s, target, WorkerLock), t, NoCall)
        else if SomeoneSleeps(s.roles) then s
        else Goto(s, t, NoCall)
      case WaitLock => if s.owner.Free? then Goto(s, t, WaitTest).(owner := HeldBy(t)) else s
      case WaitTest =>
        if s.queue == [] && s.active == 0 then Goto(s, t, NoCall).(owner := Free) else Goto(s, t, WaitBlock)
      case WaitBlock => Goto(s, t, WaitSleep).(owner := Free)
      case StopSet =>
        if s.owner.Free?
        then Goto(s, t, StopNotify).(stop := true, latecomers := if s.stop then s.latecomers else Count(s.roles, Late))
        else s
      case StopNotify => Goto(s.(roles := WakeWorkers(s.roles)), t, StopJoin).(announced := true)
      case StopJoin => if Joined(s.roles) then Goto(s, t, StopReturned) else s
      case StopReturned => Goto(s, t, NoCall)
      case _ => s
  }

  type Schedule = seq<(nat, Move)>

  function Run(s: State, moves: Schedule): (s': State)
    ensures |s'.roles| == |s.roles|
  {
    if moves == [] then s
    else
      var last := |moves| - 1;
      Step(Run(s, moves[..last]), moves[last].0, moves[last].1)
  }
}
