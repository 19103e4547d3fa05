/** The inductive invariant of the lock-free pool: exact counters, every ticket in exactly one place,
    and a worker left for every task that is still queued. */
module PoolV2Invariant {
  import opened Tally
  import Q = QueueMachine
  import QI = QueueInvariant
  import opened QueueEffects
  import opened ThreadPoolV2

  // ---------------------------------------------------------------- what one thread contributes

  /** Between winning the tail CAS and `++total_enqueued_`. */
  predicate Uncounted(role: Role, pc: Q.Pc<Job>) {
    Won(pc) || CallOf(role).EnqCount?
  }

  /** Between winning the head CAS and `active_tasks_.fetch_add`: a task is taken and not started. */
  predicate Unstarted(role: Role, pc: Q.Pc<Job>) {
    Took(pc) || role.CountUp?
  }

  /** Counted in `active_tasks_`. */
  predicate Active(role: Role, pc: Q.Pc<Job>) {
    role.Running? || role.CountDown?
  }

  /** Between `active_tasks_.fetch_sub` and `++total_completed_`. */
  predicate Finishing(role: Role, pc: Q.Pc<Job>) {
    role.CountDone?
  }

  /** Whether a thread holds ticket `k`: taken and not finished. */
  predicate Holds(role: Role, pc: Q.Pc<Job>, k: nat) {
    if Took(pc) then pc.ticket == k else (role.CountUp? || role.Running?) && role.ticket == k
  }

  predicate Runs(role: Role, k: nat) {
    role.Running? && role.ticket == k
  }

  function Count(s: State, f: (Role, Q.Pc<Job>) -> bool): nat
    requires WellFormed(s)
  {
    Sum(Bits(s, f))
  }

  function Bits(s: State, f: (Role, Q.Pc<Job>) -> bool): (ws: seq<nat>)
    requires WellFormed(s)
    ensures |ws| == |s.roles|
  {
    seq<nat>(|s.roles|, i requires 0 <= i < |s.roles| && WellFormed(s) => Bit(f(s.roles[i], s.q.pcs[i])))
  }

  /** How many threads hold ticket `k`. */
  function Holders(s: State, k: nat): nat
    requires WellFormed(s)
  {
    Count(s, (role: Role, pc: Q.Pc<Job>) => Holds(role, pc, k))
  }

  /** How many threads run the task of ticket `k`. */
  function Runners(s: State, k: nat): nat
    requires WellFormed(s)
  {
    Count(s, (role: Role, pc: Q.Pc<Job>) => Runs(role, k))
  }

  // ---------------------------------------------------------------- the invariant

  /** What an attempt of enqueue passes on: the task first, and what moving it away left after that. */
  function Offer(id: nat, retries: nat): Job {
    if retries == 0 then Task(id) else Husk(id)
  }

  ghost predicate CallOk(q: Q.State<Job>, call: Call, pc: Q.Pc<Job>) {
    match call
    case EnqPush(id, retries) => (Offering(pc) && pc.item == Offer(id, retries)) || Won(pc) || pc.EnqFull?
    case WaitEmpty(since) => Sizing(pc) && since <= q.tail && (pc.SizeDone? ==> since <= pc.seenTail)
    case WaitLoop(since) => pc.Idle? && since <= q.tail
    case WaitActive(since) => pc.Idle? && since <= q.head
    case WaitReturned(since) => pc.Idle? && since <= q.head
    case _ => pc.Idle?
  }

  ghost predicate RoleOk(q: Q.State<Job>, stop: bool, role: Role, pc: Q.Pc<Job>) {
    match role
    case Client(call) => CallOk(q, call, pc)
    case Dequeuing => pc.Idle? || Seeking(pc) || Took(pc) || pc.DeqEmpty?
    case CountUp(k, job) => pc.Idle? && k < q.head <= |q.pushed| && job == q.pushed[k]
    case Running(k, job, call) =>
      && CallOk(q, call, pc) && k < q.head <= |q.pushed| && job == q.pushed[k] && (job.Husk? ==> call.NoCall?)
      && !call.StopStore? && !call.StopJoin? && !call.StopReturned?
    case LoadEmpty => Sizing(pc) && stop
    case Exited => pc.Idle? && stop
    case _ => pc.Idle?
  }

  ghost predicate Roles(s: State) {
    && WellFormed(s)
    && forall t :: 0 <= t < |s.roles| ==> RoleOk(s.q, s.stop, s.roles[t], s.q.pcs[t])
  }

  /** The counters, exactly, in every state. */
  ghost predicate Accounts(s: State)
    requires WellFormed(s)
  {
    && s.q.tail == s.enqueued + Count(s, Uncounted)
    && s.active == Count(s, Active)
    && s.q.head == s.completed + s.active + Count(s, Unstarted) + Count(s, Finishing)
  }

  /** A ticket below `head_` is with exactly one worker or its task ended, once; begun and not ended means running. */
  ghost predicate Tickets(s: State)
    requires WellFormed(s)
  {
    && (forall k: nat :: s.ended[k] + Holders(s, k) == Bit(k < s.q.head))
    && (forall k: nat :: s.begun[k] == s.ended[k] + Runners(s, k))
    && (forall k :: k in s.ended ==> k < |s.q.pushed| && s.q.pushed[k].Task?)
  }

  /** A worker that has not yet found the queue empty after the stop. */
  predicate Staying(role: Role, pc: Q.Pc<Job>) {
    !role.Client? && !role.Exited? && !(role.LoadEmpty? && SizedEmpty(pc))
  }

  predicate SomeoneStays(s: State)
    requires WellFormed(s)
  {
    exists t :: 0 <= t < |s.roles| && Staying(s.roles[t], s.q.pcs[t])
  }

  /** After the stop only clients that were late then are late, and once no worker stays, what is in the
      queue came from them. */
  ghost predicate Draining(s: State)
    requires WellFormed(s)
  {
    && (exists t :: 0 <= t < |s.roles| && !s.roles[t].Client?)
    && (s.stop ==> Count(s, Late) <= s.latecomers)
    && (!SomeoneStays(s) ==> s.q.tail - s.q.head + Count(s, Late) <= s.latecomers)
  }

  ghost predicate Inv(s: State) {
    Roles(s) && QI.Inv(s.q) && Accounts(s) && Tickets(s) && Draining(s)
  }

  // ---------------------------------------------------------------- a step changes one thread

  lemma CountUpdate(s: State, s': State, t: nat, f: (Role, Q.Pc<Job>) -> bool)
    requires WellFormed(s) && WellFormed(s') && t < |s.roles| == |s'.roles|
    requires s'.roles == s.roles[t := s'.roles[t]] && s'.q.pcs == s.q.pcs[t := s'.q.pcs[t]]
    ensures Count(s', f) + Bit(f(s.roles[t], s.q.pcs[t])) == Count(s, f) + Bit(f(s'.roles[t], s'.q.pcs[t]))
  {
    var v := Bit(f(s'.roles[t], s'.q.pcs[t]));
    assert Bits(s', f) == Bits(s, f)[t := v];
    SumUpdate(Bits(s, f), t, v);
  }

  /** What a step of thread `t` does to `t` and to the counters, and that it leaves the others alone. */
  ghost predicate Effect(s: State, t: nat, s': State)
    requires WellFormed(s) && t < |s.roles|
  {
    && WellFormed(s') && QI.Inv(s'.q) && |s'.roles| == |s.roles|
    && s'.roles == s.roles[t := s'.roles[t]] && s'.q.pcs == s.q.pcs[t := s'.q.pcs[t]]
    && (s.stop ==> s'.stop)
    && s.q.head <= s'.q.head && s.q.tail <= s'.q.tail && s.q.pushed <= s'.q.pushed
    && RoleOk(s'.q, s'.stop, s'.roles[t], s'.q.pcs[t])
  }

  ghost predicate EffectOnCounters(s: State, t: nat, s': State)
    requires WellFormed(s) && WellFormed(s') && t < |s.roles| == |s'.roles|
  {
    var r, pc, r', pc' := s.roles[t], s.q.pcs[t], s'.roles[t], s'.q.pcs[t];
    && s'.q.tail + s.enqueued + Bit(Uncounted(r, pc)) == s.q.tail + s'.enqueued + Bit(Uncounted(r', pc'))
    && s'.active + Bit(Active(r, pc)) == s.active + Bit(Active(r', pc'))
    && s'.q.head + s.completed + s.active + Bit(Unstarted(r, pc)) + Bit(Finishing(r, pc))
       == s.q.head + s'.completed + s'.active + Bit(Unstarted(r', pc')) + Bit(Finishing(r', pc'))
  }

  ghost predicate EffectOnTickets(s: State, t: nat, s': State)
    requires WellFormed(s) && WellFormed(s') && t < |s.roles| == |s'.roles|
  {
    var r, pc, r', pc' := s.roles[t], s.q.pcs[t], s'.roles[t], s'.q.pcs[t];
    && s.q.head <= s'.q.head <= s.q.head + 1
    && (forall k: nat :: Bit(s'.q.head > s.q.head && k == s.q.head) + Bit(Holds(r, pc, k)) + s.ended[k]
                         == Bit(Holds(r', pc', k)) + s'.ended[k])
    && (forall k: nat :: s'.begun[k] + Bit(Runs(r, k)) + s.ended[k]
                         == s.begun[k] + Bit(Runs(r', k)) + s'.ended[k])
    && (s'.ended == s.ended || (r.Running? && r.job.Task? && s'.ended == s.ended + multiset{r.ticket}))
  }

  /** A worker stops staying only when the queue is empty, and after the stop nobody becomes late and an
      item enters the queue only from a worker that stays or a client that then is no longer late. */
  ghost predicate EffectOnDrain(s: State, t: nat, s': State)
    requires WellFormed(s) && WellFormed(s') && t < |s.roles| == |s'.roles|
  {
    var r, pc, r', pc' := s.roles[t], s.q.pcs[t], s'.roles[t], s'.q.pcs[t];
    && r'.Client? == r.Client?
    && (s'.q.tail > s.q.tail ==> pc.EnqCas?)
    && (Staying(r, pc) ==> Staying(r', pc') || s'.q.head == s'.q.tail)
    && (s.stop ==> s'.latecomers == s.latecomers && (Late(r', pc') ==> Late(r, pc)))
    && (s.stop && !Staying(r, pc) ==> s'.q.tail + Bit(Late(r', pc')) <= s.q.tail + Bit(Late(r, pc)))
    && (s'.stop && !s.stop ==> s'.latecomers == Sum(LateBits(s.roles, s.q.pcs)) && !Late(r', pc') && r.Client?)
  }

  ghost predicate Local(s: State, t: nat, s': State)
    requires WellFormed(s) && t < |s.roles|
  {
    Effect(s, t, s') && EffectOnCounters(s, t, s') && EffectOnTickets(s, t, s') && EffectOnDrain(s, t, s')
  }

  /** What a step of thread `t` needs to know. */
  ghost predicate Here(s: State, t: nat) {
    WellFormed(s) && QI.Inv(s.q) && t < |s.roles| && RoleOk(s.q, s.stop, s.roles[t], s.q.pcs[t])
  }

  /** A step inside a queue operation: the role stays. */
  lemma InsideQueue(s: State, t: nat, spurious: bool, residue: Job)
    requires Here(s, t)
    requires var pc := s.q.pcs[t]; !pc.Idle? && !Q.Done(pc)
    ensures Local(s, t, Queue(s, t, Q.Advance(spurious, residue)))
  {
    hide QI.Inv, Q.Access;
    var s' := Queue(s, t, Q.Advance(spurious, residue));
    AdvanceEffect(s.q, t, spurious, residue);
    Results(s'.q, t);
    if s.q.pcs[t].SizeLoadTail? {
      SizeEnds(s.q, t, spurious, residue);
    }
  }

  /** A step between the pool's code and the queue's that moves no counter and no ticket. */
  lemma Switch(s: State, t: nat, role: Role, pc: Q.Pc<Job>)
    requires Here(s, t) && QI.Inv(Q.Goto(s.q, t, pc))
    requires RoleOk(s.q, s.stop, role, pc)
    requires Uncounted(role, pc) == Uncounted(s.roles[t], s.q.pcs[t])
             && Unstarted(role, pc) == Unstarted(s.roles[t], s.q.pcs[t])
    requires Active(role, pc) == Active(s.roles[t], s.q.pcs[t])
             && Finishing(role, pc) == Finishing(s.roles[t], s.q.pcs[t])
    requires forall k: nat :: Holds(role, pc, k) == Holds(s.roles[t], s.q.pcs[t], k)
    requires forall k: nat :: Runs(role, k) == Runs(s.roles[t], k)
    requires role.Client? == s.roles[t].Client? && (Staying(s.roles[t], s.q.pcs[t]) ==> Staying(role, pc))
    requires Late(role, pc) ==> Late(s.roles[t], s.q.pcs[t]) || !s.stop
    ensures Local(s, t, Become(s, t, role).(q := Q.Goto(s.q, t, pc)))
  {
    hide QI.Inv;
    var s' := Become(s, t, role).(q := Q.Goto(s.q, t, pc));
    assert RoleOk(s'.q, s'.stop, role, pc);
    assert EffectOnCounters(s, t, s');
    assert EffectOnTickets(s, t, s');
    assert Effect(s, t, s');
  }

  /** What entering or leaving try_enqueue from inside enqueue leads to. */
  function EnqueueTarget(s: State, call: Call, pc: Q.Pc<Job>): (Call, Q.Pc<Job>)
    requires call.EnqCheckStop? || call.EnqPush? || call.EnqRecheckStop?
  {
    match call
    case EnqCheckStop(id) => if s.stop then (EnqReturned(id, false), pc) else (EnqPush(id, 0), Q.EnqLoadTail(Task(id)))
    case EnqPush(id, retries) => (if pc.EnqAccepted? then EnqCount(id) else EnqRecheckStop(id, retries), Q.Idle)
    case EnqRecheckStop(id, retries) =>
      if s.stop || retries + 1 > MAX_RETRIES then (EnqReturned(id, false), pc)
      else (EnqPush(id, retries + 1), Q.EnqLoadTail(Husk(id)))
  }

  lemma EnqueueGoes(s: State, t: nat, spurious: bool, residue: Job)
    requires Here(s, t) && (s.roles[t].Client? || (s.roles[t].Running? && s.roles[t].job.Task?))
    requires s.q.pcs[t].Idle? || Q.Done(s.q.pcs[t])
    requires var call := s.roles[t].call; call.EnqCheckStop? || call.EnqPush? || call.EnqRecheckStop?
    ensures var (call', pc') := EnqueueTarget(s, s.roles[t].call, s.q.pcs[t]);
            && CallStep(s, t, s.roles[t].call, Advance(spurious, residue))
               == Become(s, t, WithCall(s.roles[t], call')).(q := Q.Goto(s.q, t, pc'))
            && QI.Inv(Q.Goto(s.q, t, pc'))
  {
    hide QI.Inv, Q.Step;
    assert s.q.pcs == s.q.pcs[t := s.q.pcs[t]];
    match s.roles[t].call
    case EnqCheckStop(id) => LocalEffect(s.q, t, Q.Begin(Q.Enqueue(Task(id))));
    case EnqPush(_, _) => LocalEffect(s.q, t, Q.Return);
    case EnqRecheckStop(id, _) => LocalEffect(s.q, t, Q.Begin(Q.Enqueue(Husk(id))));
  }

  /** Entering or leaving try_enqueue from inside enqueue. */
  lemma EnqueueSwitch(s: State, t: nat, spurious: bool, residue: Job)
    requires Here(s, t) && (s.roles[t].Client? || (s.roles[t].Running? && s.roles[t].job.Task?))
    requires s.q.pcs[t].Idle? || Q.Done(s.q.pcs[t])
    requires var call := s.roles[t].call; call.EnqCheckStop? || call.EnqPush? || call.EnqRecheckStop?
    ensures Local(s, t, CallStep(s, t, s.roles[t].call, Advance(spurious, residue)))
  {
    hide QI.Inv, Q.Step, Local, CallStep;
    EnqueueGoes(s, t, spurious, residue);
    var (call', pc') := EnqueueTarget(s, s.roles[t].call, s.q.pcs[t]);
    Switch(s, t, WithCall(s.roles[t], call'), pc');
  }

  /** Entering empty() from inside wait_all. */
  lemma WaitEnters(s: State, t: nat, spurious: bool, residue: Job)
    requires Here(s, t) && (s.roles[t].Client? || (s.roles[t].Running? && s.roles[t].job.Task?))
             && s.roles[t].call.WaitLoop?
    ensures Local(s, t, CallStep(s, t, s.roles[t].call, Advance(spurious, residue)))
  {
    hide QI.Inv, Q.Next, Local, EnqueueStep, WaitStep;
    LocalEffect(s.q, t, Q.Begin(Q.Size));
    Switch(s, t, WithCall(s.roles[t], WaitEmpty(s.roles[t].call.since)), Q.SizeLoadHead);
  }

  /** Leaving empty() from inside wait_all. */
  lemma WaitLeaves(s: State, t: nat, spurious: bool, residue: Job)
    requires Here(s, t) && (s.roles[t].Client? || (s.roles[t].Running? && s.roles[t].job.Task?))
    requires s.q.pcs[t].SizeDone? && s.roles[t].call.WaitEmpty?
    ensures Local(s, t, CallStep(s, t, s.roles[t].call, Advance(spurious, residue)))
  {
    hide QI.Inv, Q.Next, Local, EnqueueStep;
    Results(s.q, t);
    var since := s.roles[t].call.since;
    LocalEffect(s.q, t, Q.Return);
    Switch(s, t, WithCall(s.roles[t], if SizedEmpty(s.q.pcs[t]) then WaitActive(since) else WaitLoop(since)), Q.Idle);
  }

  /** A step that changes only the role. */
  lemma RoleSwitch(s: State, t: nat, role: Role)
    requires Here(s, t)
    requires var pc := s.q.pcs[t];
             && RoleOk(s.q, s.stop, role, pc)
             && Uncounted(role, pc) == Uncounted(s.roles[t], pc) && Unstarted(role, pc) == Unstarted(s.roles[t], pc)
             && Active(role, pc) == Active(s.roles[t], pc) && Finishing(role, pc) == Finishing(s.roles[t], pc)
             && (forall k: nat :: Holds(role, pc, k) == Holds(s.roles[t], pc, k))
             && (forall k: nat :: Runs(role, k) == Runs(s.roles[t], k))
             && role.Client? == s.roles[t].Client? && (Staying(s.roles[t], pc) ==> Staying(role, pc))
             && (Late(role, pc) ==> Late(s.roles[t], pc) || !s.stop)
    ensures Local(s, t, Become(s, t, role))
  {
    hide QI.Inv, Local, RoleOk;
    assert s.q.pcs == s.q.pcs[t := s.q.pcs[t]];
    Switch(s, t, role, s.q.pcs[t]);
  }

  /** `++total_enqueued_` */
  lemma EnqueuedCounts(s: State, t: nat, spurious: bool, residue: Job)
    requires Here(s, t) && (s.roles[t].Client? || s.roles[t].Running?) && s.roles[t].call.EnqCount?
    ensures Local(s, t, CallStep(s, t, s.roles[t].call, Advance(spurious, residue)))
  {
    hide QI.Inv, Q.Next, WaitStep;
    Results(s.q, t);
    var s' := CallStep(s, t, s.roles[t].call, Advance(spurious, residue));
    assert s' == Become(s, t, WithCall(s.roles[t], EnqReturned(s.roles[t].call.id, true))).(enqueued := s.enqueued + 1);
    assert s.q.pcs == s.q.pcs[t := s.q.pcs[t]];
    assert EffectOnCounters(s, t, s');
    assert EffectOnTickets(s, t, s');
  }

  /** `stop_.store(true)` */
  lemma StopStores(s: State, t: nat, spurious: bool, residue: Job)
    requires Here(s, t) && (s.roles[t].Client? || s.roles[t].Running?) && s.roles[t].call.StopStore?
    ensures Local(s, t, CallStep(s, t, s.roles[t].call, Advance(spurious, residue)))
  {
    hide QI.Inv, Q.Next, WaitStep, EnqueueStep;
    Results(s.q, t);
    var s' := CallStep(s, t, s.roles[t].call, Advance(spurious, residue));
    assert s.q.pcs == s.q.pcs[t := s.q.pcs[t]];
    assert EffectOnCounters(s, t, s');
    assert EffectOnTickets(s, t, s');
  }

  /** A step of a call that leaves the queue alone. */
  lemma PlainCall(s: State, t: nat, mv: Move)
    requires Here(s, t) && (s.roles[t].Client? || (s.roles[t].Running? && s.roles[t].job.Task?))
    requires mv.Advance? ==>
               var call := s.roles[t].call;
               !call.EnqCheckStop? && !call.EnqPush? && !call.EnqRecheckStop? && !call.EnqCount?
               && !call.WaitLoop? && !call.WaitEmpty? && !call.StopStore?
    ensures Local(s, t, CallStep(s, t, s.roles[t].call, mv))
  {
    hide QI.Inv, Q.Step, Local;
    Results(s.q, t);
    var role := s.roles[t];
    var call' :=
      match mv
      case Finish => role.call
      case Invoke(op) =>
        if !role.call.NoCall? || (op.Shutdown? && role.Running?) then role.call
        else (match op
              case Submit(id) => EnqCheckStop(id) case WaitAll => WaitLoop(s.q.tail) case Shutdown => StopStore)
      case Advance(_, _) =>
        match role.call
        case WaitActive(since) => if s.active > 0 then WaitLoop(since) else WaitReturned(since)
        case StopJoin => CallStep(s, t, role.call, mv).roles[t].call
        case _ => NoCall;
    assert s.roles == s.roles[t := role];
    RoleSwitch(s, t, WithCall(role, call'));
  }

  lemma CallEffect(s: State, t: nat, mv: Move)
    requires Here(s, t) && (s.roles[t].Client? || (s.roles[t].Running? && s.roles[t].job.Task?))
    ensures Local(s, t, CallStep(s, t, s.roles[t].call, mv))
  {
    hide QI.Inv, Q.Step, Local;
    var call := s.roles[t].call;
    if mv.Advance? && !s.q.pcs[t].Idle? && !Q.Done(s.q.pcs[t]) {
      InsideQueue(s, t, mv.spurious, mv.residue);
    } else if mv.Advance? && (call.EnqCheckStop? || call.EnqPush? || call.EnqRecheckStop?) {
      EnqueueSwitch(s, t, mv.spurious, mv.residue);
    } else if mv.Advance? && (call.WaitLoop? || call.WaitEmpty?) {
      if call.WaitLoop? {
        WaitEnters(s, t, mv.spurious, mv.residue);
      } else {
        WaitLeaves(s, t, mv.spurious, mv.residue);
      }
    } else if mv.Advance? && (call.EnqCount? || call.StopStore?) {
      if call.EnqCount? {
        EnqueuedCounts(s, t, mv.spurious, mv.residue);
      } else {
        StopStores(s, t, mv.spurious, mv.residue);
      }
    } else {
      PlainCall(s, t, mv);
    }
  }

  /** Entering or leaving try_dequeue in worker_loop. */
  lemma DequeueSwitch(s: State, t: nat, spurious: bool, residue: Job)
    requires Here(s, t) && (s.q.pcs[t].Idle? || Q.Done(s.q.pcs[t])) && s.roles[t].Dequeuing?
    ensures Local(s, t, WorkerStep(s, t, spurious, residue))
  {
    hide QI.Inv, Q.Next, Local;
    assert s.roles == s.roles[t := s.roles[t]];
    var pc := s.q.pcs[t];
    Results(s.q, t);
    var (role', mv) :=
      if pc.Idle? then (Dequeuing, Q.Begin(Q.Dequeue))
      else if pc.DeqTaken? then (CountUp(pc.ticket, pc.got), Q.Return) else (LoadStop, Q.Return);
    LocalEffect(s.q, t, mv);
    Switch(s, t, role', if mv.Begin? then Q.Start(mv.op) else Q.Idle);
  }

  /** Entering or leaving empty() in the exit test. */
  lemma ExitSwitch(s: State, t: nat, spurious: bool, residue: Job)
    requires Here(s, t) && (s.q.pcs[t].Idle? || Q.Done(s.q.pcs[t]))
             && ((s.roles[t].LoadStop? && s.stop) || s.roles[t].LoadEmpty?)
    ensures Local(s, t, WorkerStep(s, t, spurious, residue))
  {
    hide QI.Inv, Q.Next, Local;
    var role, pc := s.roles[t], s.q.pcs[t];
    Results(s.q, t);
    if role.LoadStop? {
      LocalEffect(s.q, t, Q.Begin(Q.Size));
      Switch(s, t, LoadEmpty, Q.SizeLoadHead);
    } else {
      LocalEffect(s.q, t, Q.Return);
      Switch(s, t, if SizedEmpty(pc) then Exited else Dequeuing, Q.Idle);
    }
  }

  /** `active_tasks_.fetch_add` */
  lemma CountsUp(s: State, t: nat, spurious: bool, residue: Job)
    requires Here(s, t) && s.roles[t].CountUp?
    ensures Local(s, t, WorkerStep(s, t, spurious, residue))
  {
    hide QI.Inv, Q.Next;
    var s' := WorkerStep(s, t, spurious, residue);
    assert s.q.pcs == s.q.pcs[t := s.q.pcs[t]];
    assert EffectOnCounters(s, t, s');
    assert EffectOnTickets(s, t, s');
  }

  /** `active_tasks_.fetch_sub` and `++total_completed_` */
  lemma CountsDown(s: State, t: nat, spurious: bool, residue: Job)
    requires Here(s, t) && (s.roles[t].CountDown? || s.roles[t].CountDone?)
    ensures Local(s, t, WorkerStep(s, t, spurious, residue))
  {
    hide QI.Inv, Q.Next;
    var s' := WorkerStep(s, t, spurious, residue);
    assert s.q.pcs == s.q.pcs[t := s.q.pcs[t]];
    assert EffectOnCounters(s, t, s');
    assert EffectOnTickets(s, t, s');
  }

  lemma PlainWorker(s: State, t: nat, spurious: bool, residue: Job)
    requires Here(s, t) && ((s.roles[t].LoadStop? && !s.stop) || s.roles[t].Exited?)
    ensures Local(s, t, WorkerStep(s, t, spurious, residue))
  {
    hide QI.Inv, Q.Step, Local;
    assert s.roles == s.roles[t := s.roles[t]];
    RoleSwitch(s, t, if s.roles[t].LoadStop? then Dequeuing else Exited);
  }

  lemma WorkerEffect(s: State, t: nat, spurious: bool, residue: Job)
    requires Here(s, t) && !s.roles[t].Client? && !s.roles[t].Running?
    ensures Local(s, t, WorkerStep(s, t, spurious, residue))
  {
    hide QI.Inv, Q.Step, Local;
    if !s.q.pcs[t].Idle? && !Q.Done(s.q.pcs[t]) {
      InsideQueue(s, t, spurious, residue);
    } else if s.roles[t].Dequeuing? {
      DequeueSwitch(s, t, spurious, residue);
    } else if (s.roles[t].LoadStop? && s.stop) || s.roles[t].LoadEmpty? {
      ExitSwitch(s, t, spurious, residue);
    } else if s.roles[t].CountUp? {
      CountsUp(s, t, spurious, residue);
    } else if s.roles[t].CountDown? || s.roles[t].CountDone? {
      CountsDown(s, t, spurious, residue);
    } else {
      PlainWorker(s, t, spurious, residue);
    }
  }

  /** The end of a task's body. */
  lemma FinishEffect(s: State, t: nat)
    requires Here(s, t) && s.roles[t].Running? && s.roles[t].job.Task? && s.roles[t].call.NoCall?
    ensures var k := s.roles[t].ticket; Local(s, t, Become(s, t, CountDown(k)).(ended := s.ended + multiset{k}))
  {
    hide QI.Inv;
    var k := s.roles[t].ticket;
    var s' := Become(s, t, CountDown(k)).(ended := s.ended + multiset{k});
    assert s.q.pcs == s.q.pcs[t := s.q.pcs[t]];
    assert EffectOnCounters(s, t, s');
    assert EffectOnTickets(s, t, s');
  }

  /** The states in which a step of thread `t` is not a step of the pool: it stands still, or the process ends. */
  predicate Inert(s: State, t: nat, mv: Move) {
    || s.crashed || t >= |s.roles| || (s.roles[t].Running? && s.roles[t].job.Husk?)
    || (!mv.Advance? && !s.roles[t].Client? && !s.roles[t].Running?)
  }

  lemma StepEffect(s: State, t: nat, mv: Move)
    requires !Inert(s, t, mv) && Here(s, t)
    ensures Local(s, t, Step(s, t, mv))
  {
    hide QI.Inv, Q.Step, Local, RoleOk, CallStep, WorkerStep;
    if s.roles[t].Running? && mv.Finish? && s.roles[t].call.NoCall? {
      FinishEffect(s, t);
    } else if s.roles[t].Client? || s.roles[t].Running? {
      CallEffect(s, t, mv);
    } else {
      WorkerEffect(s, t, mv.spurious, mv.residue);
    }
  }

  lemma InsideIsQueue(s: State, t: nat, mv: Move)
    requires Here(s, t) && !Inert(s, t, mv) && mv.Advance? && !s.q.pcs[t].Idle? && !Q.Done(s.q.pcs[t])
    ensures Step(s, t, mv) == Queue(s, t, Q.Advance(mv.spurious, mv.residue))
  {
    hide QI.Inv, Q.Step;
  }

  // ---------------------------------------------------------------- from one thread to all

  lemma RolesKept(s: State, t: nat, s': State)
    requires Roles(s) && t < |s.roles| && Effect(s, t, s')
    ensures Roles(s')
  {
    hide QI.Inv;
    Results(s'.q, t);
    forall u | 0 <= u < |s'.roles|
      ensures RoleOk(s'.q, s'.stop, s'.roles[u], s'.q.pcs[u])
    {
      assert RoleOk(s.q, s.stop, s.roles[u], s.q.pcs[u]);
    }
  }

  lemma AccountsKept(s: State, t: nat, s': State)
    requires WellFormed(s) && Accounts(s) && t < |s.roles| && Effect(s, t, s') && EffectOnCounters(s, t, s')
    ensures Accounts(s')
  {
    hide QI.Inv, RoleOk;
    CountUpdate(s, s', t, Uncounted);
    CountUpdate(s, s', t, Active);
    CountUpdate(s, s', t, Unstarted);
    CountUpdate(s, s', t, Finishing);
  }

  lemma TicketsKept(s: State, t: nat, s': State)
    requires WellFormed(s) && Tickets(s) && Here(s, t) && Effect(s, t, s') && EffectOnTickets(s, t, s')
    ensures Tickets(s')
  {
    hide QI.Inv, RoleOk, Holds, Runs;
    forall k: nat
      ensures s'.ended[k] + Holders(s', k) == Bit(k < s'.q.head)
      ensures s'.begun[k] == s'.ended[k] + Runners(s', k)
    {
      CountUpdate(s, s', t, (role: Role, pc: Q.Pc<Job>) => Holds(role, pc, k));
      CountUpdate(s, s', t, (role: Role, pc: Q.Pc<Job>) => Runs(role, k));
    }
    EndedAreTasks(s, t, s');
  }

  lemma EndedAreTasks(s: State, t: nat, s': State)
    requires WellFormed(s) && Tickets(s) && Here(s, t) && Effect(s, t, s') && EffectOnTickets(s, t, s')
    ensures forall k :: k in s'.ended ==> k < |s'.q.pushed| && s'.q.pushed[k].Task?
  {
    hide QI.Inv;
    assert RoleOk(s.q, s.stop, s.roles[t], s.q.pcs[t]);
  }

  lemma LatecomersCounted(s: State)
    requires WellFormed(s)
    ensures Sum(LateBits(s.roles, s.q.pcs)) == Count(s, Late)
  {
    assert Bits(s, Late) == LateBits(s.roles, s.q.pcs);
  }

  /** Before the stop every worker stays. */
  lemma WorkersStay(q: Q.State<Job>, role: Role, pc: Q.Pc<Job>)
    requires RoleOk(q, false, role, pc) && !role.Client?
    ensures Staying(role, pc)
  {
  }

  lemma DrainingKept(s: State, t: nat, s': State)
    requires Roles(s) && Draining(s) && t < |s.roles| && Effect(s, t, s') && EffectOnDrain(s, t, s')
    ensures Draining(s')
  {
    hide QI.Inv, RoleOk, Count;
    CountUpdate(s, s', t, Late);
    LatecomersCounted(s);
    var w :| 0 <= w < |s.roles| && !s.roles[w].Client?;
    assert !s'.roles[w].Client?;
    if !s.stop {
      assert RoleOk(s.q, s.stop, s.roles[w], s.q.pcs[w]);
      WorkersStay(s.q, s.roles[w], s.q.pcs[w]);
      if !s'.stop {
        assert w == t ==> RoleOk(s'.q, s'.stop, s'.roles[w], s'.q.pcs[w]);
        if w == t { WorkersStay(s'.q, s'.roles[w], s'.q.pcs[w]); }
      }
      assert Staying(s'.roles[w], s'.q.pcs[w]);
    } else if u :| 0 <= u < |s.roles| && u != t && Staying(s.roles[u], s.q.pcs[u]) {
      assert Staying(s'.roles[u], s'.q.pcs[u]);
    }
  }

  lemma LocalKeepsInv(s: State, t: nat, s': State)
    requires Inv(s) && t < |s.roles| && Local(s, t, s')
    ensures Inv(s')
  {
    hide QI.Inv, RoleOk, EffectOnCounters, EffectOnTickets, EffectOnDrain, Accounts, Tickets, Draining;
    assert Here(s, t);
    RolesKept(s, t, s');
    AccountsKept(s, t, s');
    TicketsKept(s, t, s');
    DrainingKept(s, t, s');
  }

  /** Every step of every thread keeps the invariant. */
  lemma StepKeepsInv(s: State, t: nat, mv: Move)
    requires Inv(s)
    ensures Inv(Step(s, t, mv))
  {
    hide QI.Inv, Local, RoleOk, CallStep, WorkerStep;
    if !Inert(s, t, mv) {
      assert Here(s, t);
      StepEffect(s, t, mv);
      LocalKeepsInv(s, t, Step(s, t, mv));
    } else {
      SameButCrashed(s);
    }
  }

  lemma SameCounts(s: State, s': State)
    requires WellFormed(s) && WellFormed(s') && s.roles == s'.roles && s.q == s'.q
    ensures forall f: (Role, Q.Pc<Job>) -> bool :: Count(s', f) == Count(s, f)
  {
    forall f: (Role, Q.Pc<Job>) -> bool
      ensures Count(s', f) == Count(s, f)
    {
      assert Bits(s', f) == Bits(s, f);
    }
  }

  lemma SameButCrashed(s: State)
    requires Inv(s)
    ensures Inv(s.(crashed := true))
  {
    hide QI.Inv, RoleOk, Count;
    SameCounts(s, s.(crashed := true));
  }

  lemma {:induction false} RunKeepsInv(s: State, moves: Schedule)
    requires Inv(s)
    ensures Inv(Run(s, moves))
  {
    if moves != [] {
      var last := |moves| - 1;
      RunKeepsInv(s, moves[..last]);
      StepKeepsInv(Run(s, moves[..last]), moves[last].0, moves[last].1);
    }
  }
}
