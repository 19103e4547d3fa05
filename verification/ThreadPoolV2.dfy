/** The lock-free thread pool as a step machine over the ring buffer's machine: workers, and clients
    that enqueue, wait and destroy. A running task may itself enqueue or wait. */
module ThreadPoolV2 {
  import opened Tally
  import Q = QueueMachine

  /** An element of the queue: task `id`, or the empty function that std::move left of it when a
      first try_enqueue failed. */
  datatype Job = Task(id: nat) | Husk(id: nat)

  const MAX_RETRIES := 1000

  datatype Op = Submit(id: nat) | WaitAll | Shutdown

  /** Where a thread is inside enqueue, wait_all or the destructor. */
  datatype Call =
    | NoCall
    | EnqCheckStop(id: nat)
    | EnqPush(id: nat, retries: nat)
    | EnqRecheckStop(id: nat, retries: nat)
    | EnqCount(id: nat)
    | EnqReturned(id: nat, accepted: bool)
    | WaitLoop(since: nat)
    | WaitEmpty(since: nat)
    | WaitActive(since: nat)
    | WaitReturned(since: nat)
    | StopStore
    | StopJoin
    | StopReturned

  /** A client, or a worker at some point of worker_loop. */
  datatype Role =
    | Client(call: Call)
    | Dequeuing
    | CountUp(ticket: nat, job: Job)
    | Running(ticket: nat, job: Job, call: Call)
    | CountDown(ticket: nat)
    | CountDone(ticket: nat)
    | LoadStop
    | LoadEmpty
    | Exited

  /** `begun` and `ended` record the tickets whose task body began and ended; `latecomers` counts
      the clients that were past enqueue's stop check, and could still put a task into the queue, when
      `stop_` was set. The code has none of them. */
  datatype State = State(q: Q.State<Job>, roles: seq<Role>, stop: bool, active: int, enqueued: nat, completed: nat,
                         crashed: bool, begun: multiset<nat>, ended: multiset<nat>, latecomers: nat)

  datatype Move = Invoke(op: Op) | Advance(spurious: bool, residue: Job) | Finish

  function Init(capacity: nat, workers: nat, clients: nat): (s: State)
    ensures |s.q.slots| == capacity && |s.roles| == |s.q.pcs|
  {
    State(Q.Init(capacity, workers + clients, Husk(0)),
          seq(workers + clients, i requires 0 <= i => if i < workers then Dequeuing else Client(NoCall)),
          false, 0, 0, 0, false, multiset{}, multiset{}, 0)
  }

  /** The call of the pool's interface that a thread is in. */
  function CallOf(role: Role): Call {
    if role.Client? || role.Running? then role.call else NoCall
  }

  /** A client in an attempt of enqueue that has neither claimed a ticket nor been refused: it can put a
      task into the queue without looking at `stop_` again. */
  predicate Late(role: Role, pc: Q.Pc<Job>) {
    role.Client? && role.call.EnqPush? && (pc.EnqLoadTail? || pc.EnqLoadSeq? || pc.EnqCas? || pc.EnqReload?)
  }

  function LateBits(roles: seq<Role>, pcs: seq<Q.Pc<Job>>): seq<nat>
    requires |roles| == |pcs|
  {
    seq<nat>(|roles|, i requires 0 <= i < |roles| == |pcs| => Bit(Late(roles[i], pcs[i])))
  }

  /** Every worker has returned from worker_loop. */
  predicate Joined(roles: seq<Role>) {
    forall u :: 0 <= u < |roles| ==> roles[u].Client? || roles[u].Exited?
  }

  function Become(s: State, t: nat, role: Role): State
    requires t < |s.roles|
  {
    s.(roles := s.roles[t := role])
  }

  function Queue(s: State, t: nat, mv: Q.Move<Job>): (s': State)
    requires |s.q.slots| > 0
    ensures |s'.q.slots| == |s.q.slots|
  {
    s.(q := Q.Next(s.q, t, mv))
  }

  predicate WellFormed(s: State) {
    |s.q.slots| > 0 && |s.roles| == |s.q.pcs|
  }

  /** One step of thread `t`; a move that its role does not allow leaves the state as it is. */
  function Step(s: State, t: nat, mv: Move): (s': State)
    requires WellFormed(s)
    ensures WellFormed(s') && |s'.q.slots| == |s.q.slots| && |s'.roles| == |s.roles|
  {
    if s.crashed || t >= |s.roles| then s
    else
      match s.roles[t]
      case Client(call) => CallStep(s, t, call, mv)
      case Running(k, job, call) =>
        // running an empty function throws out of the thread: std::terminate
        if job.Husk? then s.(crashed := true)
        else if mv.Finish? && call.NoCall? then Become(s, t, CountDown(k)).(ended := s.ended + multiset{k})
        else CallStep(s, t, call, mv)
      case _ => if mv.Advance? then WorkerStep(s, t, mv.spurious, mv.residue) else s
  }

  function WithCall(role: Role, call: Call): Role
    requires role.Client? || role.Running?
  {
    if role.Client? then Client(call) else role.(call := call)
  }

  function Goto(s: State, t: nat, call: Call): State
    requires t < |s.roles| && (s.roles[t].Client? || s.roles[t].Running?)
  {
    Become(s, t, WithCall(s.roles[t], call))
  }

  predicate Calling(s: State, t: nat) {
    WellFormed(s) && t < |s.roles| && (s.roles[t].Client? || s.roles[t].Running?)
  }

  /** A step inside enqueue, wait_all or the destructor. */
  function CallStep(s: State, t: nat, call: Call, mv: Move): (s': State)
    requires Calling(s, t)
    ensures WellFormed(s') && |s'.q.slots| == |s.q.slots| && |s'.roles| == |s.roles| && s'.crashed == s.crashed
            && s'.ended == s.ended
  {
    match mv
    case Finish => s
    case Invoke(op) =>
      if !call.NoCall? then s
      else (match op
            case Submit(id) => Goto(s, t, EnqCheckStop(id))
            case WaitAll => Goto(s, t, WaitLoop(s.q.tail))
            case Shutdown => if s.roles[t].Client? then Goto(s, t, StopStore) else s)
    case Advance(spurious, residue) =>
      match call
      case NoCall => s
      case WaitLoop(since) => Queue(Goto(s, t, WaitEmpty(since)), t, Q.Begin(Q.Size))
      case WaitEmpty(_) => WaitStep(s, t, call, spurious, residue)
      case WaitActive(since) => Goto(s, t, if s.active > 0 then WaitLoop(since) else WaitReturned(since))
      case WaitReturned(_) => Goto(s, t, NoCall)
      case StopStore =>
        Goto(s, t, StopJoin).(stop := true,
                              latecomers := if s.stop then s.latecomers else Sum(LateBits(s.roles, s.q.pcs)))
      case StopJoin => if Joined(s.roles) then Goto(s, t, StopReturned) else s
      case StopReturned => Goto(s, t, NoCall)
      case _ => EnqueueStep(s, t, call, spurious, residue)
  }

  /** A step inside enqueue. */
  function EnqueueStep(s: State, t: nat, call: Call, spurious: bool, residue: Job): (s': State)
    requires Calling(s, t)
    ensures WellFormed(s') && |s'.q.slots| == |s.q.slots| && |s'.roles| == |s.roles| && s'.crashed == s.crashed
            && s'.ended == s.ended
  {
    var pc := s.q.pcs[t];
    match call
    case EnqCheckStop(id) =>
      if s.stop then Goto(s, t, EnqReturned(id, false))
      else Queue(Goto(s, t, EnqPush(id, 0)), t, Q.Begin(Q.Enqueue(Task(id))))
    case EnqPush(id, retries) =>
      if pc.EnqAccepted? then Queue(Goto(s, t, EnqCount(id)), t, Q.Return)
      else if pc.EnqFull? then Queue(Goto(s, t, EnqRecheckStop(id, retries)), t, Q.Return)
      else Queue(s, t, Q.Advance(spurious, residue))
    case EnqRecheckStop(id, retries) =>
      if s.stop || retries + 1 > MAX_RETRIES then Goto(s, t, EnqReturned(id, false))
      else Queue(Goto(s, t, EnqPush(id, retries + 1)), t, Q.Begin(Q.Enqueue(Husk(id))))
    case EnqCount(id) => Goto(s, t, EnqReturned(id, true)).(enqueued := s.enqueued + 1)
    case EnqReturned(_, _) => Goto(s, t, NoCall)
    case _ => s
  }

  /** A step inside wait_all's call of empty(). */
  function WaitStep(s: State, t: nat, call: Call, spurious: bool, residue: Job): (s': State)
    requires Calling(s, t) && call.WaitEmpty?
    ensures WellFormed(s') && |s'.q.slots| == |s.q.slots| && |s'.roles| == |s.roles| && s'.crashed == s.crashed
            && s'.ended == s.ended
  {
    var pc := s.q.pcs[t];
    if pc.SizeDone?
    then Queue(Goto(s, t, if SizedEmpty(pc) then WaitActive(call.since) else WaitLoop(call.since)), t, Q.Return)
    else Queue(s, t, Q.Advance(spurious, residue))
  }

  /** empty() came out true. */
  predicate SizedEmpty(pc: Q.Pc<Job>) {
    pc.SizeDone? && Q.SizeResult(pc.seenHead, pc.seenTail) == 0
  }

  /** A step of worker_loop outside a task. */
  function WorkerStep(s: State, t: nat, spurious: bool, residue: Job): (s': State)
    requires WellFormed(s) && t < |s.roles|
    ensures WellFormed(s') && |s'.q.slots| == |s.q.slots| && |s'.roles| == |s.roles| && s'.crashed == s.crashed
            && s'.ended == s.ended
  {
    var pc := s.q.pcs[t];
    match s.roles[t]
    case Dequeuing =>
      if pc.Idle? then Queue(s, t, Q.Begin(Q.Dequeue))
      else if pc.DeqTaken? then Queue(Become(s, t, CountUp(pc.ticket, pc.got)), t, Q.Return)
      else if pc.DeqEmpty? then Queue(Become(s, t, LoadStop), t, Q.Return)
      else Queue(s, t, Q.Advance(spurious, residue))
    case CountUp(k, job) =>
      Become(s, t, Running(k, job, NoCall)).(active := s.active + 1, begun := s.begun + multiset{k})
    case CountDown(k) => Become(s, t, CountDone(k)).(active := s.active - 1)
    case CountDone(_) => Become(s, t, Dequeuing).(completed := s.completed + 1)
    case LoadStop => if s.stop then Queue(Become(s, t, LoadEmpty), t, Q.Begin(Q.Size)) else Become(s, t, Dequeuing)
    case LoadEmpty =>
      if pc.SizeDone? then Queue(Become(s, t, if SizedEmpty(pc) then Exited else Dequeuing), t, Q.Return)
      else Queue(s, t, Q.Advance(spurious, residue))
    case _ => s
  }

  type Schedule = seq<(nat, Move)>

  function Run(s: State, moves: Schedule): (s': State)
    requires WellFormed(s)
    ensures WellFormed(s') && |s'.q.slots| == |s.q.slots| && |s'.roles| == |s.roles|
  {
    if moves == [] then s
    else
      var last := |moves| - 1;
      Step(Run(s, moves[..last]), moves[last].0, moves[last].1)
  }
}
