/** The inductive invariant of the mutex pool: who holds the lock, where every task is, and that there
    are enough wake-ups under way for the tasks in the queue. */
module PoolV1Invariant {
  import opened Counting
  import opened Tally
  import opened ThreadPoolV1

  predicate Holding(role: Role) {
    role.WorkerTest? || role.WorkerBlock? || CallOf(role).WaitTest? || CallOf(role).WaitBlock?
  }

  /** Still to call notify_one for a task it put into the queue. */
  predicate Notifying(role: Role) {
    CallOf(role).EnqNotify?
  }

  /** A worker that is awake and tests the queue next. */
  predicate Testing(role: Role) {
    role.WorkerLock? || role.WorkerTest?
  }

  predicate Active(role: Role) {
    role.Running? || role.CountDown?
  }

  /** A task that ended and is still counted in `active_tasks_`. */
  predicate Finishing(role: Role) {
    role.CountDown?
  }

  predicate Runs(role: Role, k: nat) {
    role.Running? && role.ticket == k
  }

  type Trait = Role -> bool

  function Runners(k: nat): Trait {
    role => Runs(role, k)
  }

  // ---------------------------------------------------------------- the invariant

  ghost predicate RoleOk(s: State, role: Role) {
    && (role.WorkerBlock? ==> s.queue == [] && !s.stop)
    && (role.Exited? || CallOf(role).StopNotify? || CallOf(role).StopJoin? ==> s.stop)
    && (role.Running? ==>
          && role.ticket < s.popped && !role.call.StopSet? && !role.call.StopNotify?
          && !role.call.StopJoin? && !role.call.StopReturned?)
  }

  ghost predicate Roles(s: State) {
    forall t :: 0 <= t < |s.roles| ==> RoleOk(s, s.roles[t]) && (Holding(s.roles[t]) <==> s.owner == HeldBy(t))
  }

  /** Tasks leave the queue in the order of enqueue. */
  ghost predicate Fifo(s: State) {
    s.popped <= |s.pushed| && s.queue == s.pushed[s.popped..]
  }

  /** A task taken from the queue is with exactly one worker or ended, once; `active_tasks_` counts the
      tasks that were taken and are not counted down. */
  ghost predicate Tickets(s: State) {
    && (forall k: nat :: s.ended[k] + Count(s.roles, Runners(k)) == Bit(k < s.popped))
    && s.active == Count(s.roles, Active)
    && |s.ended| + s.active == s.popped + Count(s.roles, Finishing)
  }

  /** While a worker sleeps, every queued task has its own enqueuer about to notify or its own worker about to test. */
  ghost predicate WakeUps(s: State) {
    && (SomeoneSleeps(s.roles) ==> |s.queue| <= Count(s.roles, Notifying) + Count(s.roles, Testing))
    && (s.announced ==> s.stop && !SomeoneSleeps(s.roles))
  }

  predicate Staying(role: Role) {
    !role.Client? && !role.Exited?
  }

  predicate SomeoneStays(roles: seq<Role>) {
    exists t :: 0 <= t < |roles| && Staying(roles[t])
  }

  /** After the stop only clients that were late then are late, and once no worker stays, what is in the
      queue came from them. */
  ghost predicate Draining(s: State) {
    && (exists t :: 0 <= t < |s.roles| && !s.roles[t].Client?)
    && (s.stop ==> Count(s.roles, Late) <= s.latecomers)
    && (!SomeoneStays(s.roles) ==> |s.queue| + Count(s.roles, Late) <= s.latecomers)
  }

  ghost predicate Inv(s: State) {
    Roles(s) && Fifo(s) && Tickets(s) && WakeUps(s) && Draining(s)
  }

  // ---------------------------------------------------------------- a step that changes one role

  /** The step changes no role but that of thread `t`. */
  predicate Alone(s: State, t: nat, s': State)
    requires t < |s.roles|
  {
    |s'.roles| == |s.roles| && s'.roles == s.roles[t := s'.roles[t]]
  }

  /** What a step of thread `t` that changes only its own role needs to keep the invariant. */
  ghost predicate Local(s: State, t: nat, s': State)
    requires t < |s.roles|
  {
    && Alone(s, t, s')
    && LocalRoles(s, t, s') && Fifo(s') && LocalTickets(s, t, s') && LocalWakeUps(s, t, s') && LocalDrain(s, t, s')
  }

  ghost predicate LocalRoles(s: State, t: nat, s': State)
    requires t < |s.roles| == |s'.roles|
  {
    && RoleOk(s', s'.roles[t]) && s.popped <= s'.popped && (s.stop ==> s'.stop)
    && (s'.queue != [] || s'.stop ==> s.queue != [] || s.stop || s.owner.Free?)
    && (s'.owner == s.owner || (s'.owner == HeldBy(t) && s.owner.Free?) || (s'.owner.Free? && s.owner == HeldBy(t)))
    && (Holding(s'.roles[t]) <==> s'.owner == HeldBy(t))
  }

  ghost predicate LocalTickets(s: State, t: nat, s': State)
    requires t < |s.roles| == |s'.roles|
  {
    var r, r' := s.roles[t], s'.roles[t];
    && (forall k: nat ::
          s'.ended[k] + Bit(Runs(r', k)) + Bit(k < s.popped)
          == s.ended[k] + Bit(Runs(r, k)) + Bit(k < s'.popped))
    && s'.active + Bit(Active(r)) == s.active + Bit(Active(r'))
    && |s'.ended| + s'.active + s.popped + Bit(Finishing(r)) == |s.ended| + s.active + s'.popped + Bit(Finishing(r'))
  }

  ghost predicate LocalWakeUps(s: State, t: nat, s': State)
    requires t < |s.roles| == |s'.roles|
  {
    var r, r' := s.roles[t], s'.roles[t];
    && (s.announced ==> !r'.WorkerSleep?) && (s'.announced ==> s.announced)
    && (|s'.queue| == 0 || !SomeoneSleeps(s'.roles)
        || (!r'.WorkerSleep?
            && |s'.queue| + Bit(Notifying(r)) + Bit(Testing(r)) <= |s.queue| + Bit(Notifying(r')) + Bit(Testing(r'))))
  }

  ghost predicate LocalDrain(s: State, t: nat, s': State)
    requires t < |s.roles| == |s'.roles|
  {
    var r, r' := s.roles[t], s'.roles[t];
    && r'.Client? == r.Client?
    && (Staying(r) ==> Staying(r') || s'.queue == [])
    && (s.stop ==> s'.latecomers == s.latecomers && (Late(r') ==> Late(r)))
    && (s.stop && !Staying(r) ==> |s'.queue| + Bit(Late(r')) <= |s.queue| + Bit(Late(r)))
    && (s'.stop && !s.stop ==> s'.latecomers == Count(s.roles, Late) && !Late(r') && r.Client?)
  }

  lemma RolesKept(s: State, t: nat, s': State)
    requires Roles(s) && t < |s.roles| && Alone(s, t, s') && LocalRoles(s, t, s')
    ensures Roles(s')
  {
    hide LocalTickets, LocalWakeUps, LocalDrain, Fifo;
    forall u | 0 <= u < |s'.roles|
      ensures RoleOk(s', s'.roles[u]) && (Holding(s'.roles[u]) <==> s'.owner == HeldBy(u))
    {
      assert RoleOk(s, s.roles[u]) && (Holding(s.roles[u]) <==> s.owner == HeldBy(u));
    }
  }

  lemma TicketsKept(s: State, t: nat, s': State)
    requires Tickets(s) && t < |s.roles| && Alone(s, t, s') && LocalTickets(s, t, s')
    ensures Tickets(s')
  {
    hide LocalRoles, LocalWakeUps, LocalDrain, Fifo, Count;
    CountUpdate(s.roles, t, s'.roles[t], Active);
    CountUpdate(s.roles, t, s'.roles[t], Finishing);
    forall k: nat
      ensures s'.ended[k] + Count(s'.roles, Runners(k)) == Bit(k < s'.popped)
    {
      CountUpdate(s.roles, t, s'.roles[t], Runners(k));
    }
  }

  lemma WakeUpsKept(s: State, t: nat, s': State)
    requires WakeUps(s) && t < |s.roles| && Alone(s, t, s') && LocalWakeUps(s, t, s') && (s.stop ==> s'.stop)
    ensures WakeUps(s')
  {
    hide LocalRoles, LocalTickets, LocalDrain, Fifo, Count;
    CountUpdate(s.roles, t, s'.roles[t], Notifying);
    CountUpdate(s.roles, t, s'.roles[t], Testing);
    if u :| 0 <= u < |s'.roles| && s'.roles[u].WorkerSleep? {
      assert u != t ==> s.roles[u].WorkerSleep?;
    }
  }

  /** Before the stop every worker stays. */
  lemma WorkersStay(s: State, w: nat)
    requires Roles(s) && w < |s.roles| && !s.stop && !s.roles[w].Client?
    ensures Staying(s.roles[w])
  {
    assert RoleOk(s, s.roles[w]);
  }

  lemma DrainingKept(s: State, t: nat, s': State)
    requires Draining(s) && Roles(s) && t < |s.roles| && Alone(s, t, s') && LocalRoles(s, t, s') && LocalDrain(s, t, s')
    ensures Draining(s')
  {
    hide LocalTickets, LocalWakeUps, Fifo, Count;
    CountUpdate(s.roles, t, s'.roles[t], Late);
    var w :| 0 <= w < |s.roles| && !s.roles[w].Client?;
    assert !s'.roles[w].Client?;
    if !s.stop {
      WorkersStay(s, w);
      assert Staying(s'.roles[w]);
    } else if u :| 0 <= u < |s.roles| && u != t && Staying(s.roles[u]) {
      assert Staying(s'.roles[u]);
    }
  }

  lemma LocalKeepsInv(s: State, t: nat, s': State)
    requires Inv(s) && t < |s.roles| && Local(s, t, s')
    ensures Inv(s')
  {
    hide Roles, Fifo, Tickets, WakeUps, Draining, LocalTickets, LocalWakeUps, LocalDrain;
    RolesKept(s, t, s');
    TicketsKept(s, t, s');
    WakeUpsKept(s, t, s');
    DrainingKept(s, t, s');
  }

  // ---------------------------------------------------------------- the steps

  /** What a step of thread `t` needs to know. */
  ghost predicate Here(s: State, t: nat) {
    && t < |s.roles| && RoleOk(s, s.roles[t]) && (Holding(s.roles[t]) <==> s.owner == HeldBy(t))
    && Fifo(s) && (s.announced ==> s.stop)
  }

  /** A step that only moves thread `t`, perhaps taking or releasing the lock. */
  lemma Switch(s: State, t: nat, role: Role, owner: Owner)
    requires Here(s, t)
    requires RoleOk(s, role) && (Holding(role) <==> owner == HeldBy(t))
    requires owner == s.owner || (owner == HeldBy(t) && s.owner.Free?) || (owner.Free? && s.owner == HeldBy(t))
    requires Active(role) == Active(s.roles[t]) && Finishing(role) == Finishing(s.roles[t])
    requires forall k: nat :: Runs(role, k) == Runs(s.roles[t], k)
    requires role.WorkerSleep? ==> s.queue == [] && !s.stop
    requires Notifying(s.roles[t]) && !Notifying(role)
             ==> s.queue == [] || (!SomeoneSleeps(s.roles) && !role.WorkerSleep?)
    requires Testing(s.roles[t]) && !Testing(role) ==> s.queue == []
    requires role.Client? == s.roles[t].Client? && (Staying(s.roles[t]) && !Staying(role) ==> s.queue == [])
    requires Late(role) ==> Late(s.roles[t]) || !s.stop
    ensures Local(s, t, Become(s, t, role).(owner := owner))
  {
    var s' := Become(s, t, role).(owner := owner);
    if u :| 0 <= u < |s'.roles| && s'.roles[u].WorkerSleep? {
      assert u != t ==> s.roles[u].WorkerSleep?;
    }
    assert LocalTickets(s, t, s');
    assert LocalRoles(s, t, s');
    assert LocalWakeUps(s, t, s');
    assert LocalDrain(s, t, s');
  }

  /** A worker takes the lock, goes to sleep, wakes up or leaves its loop. */
  lemma WorkerSwitch(s: State, t: nat)
    requires Here(s, t) && (s.roles[t].WorkerLock? || s.roles[t].WorkerBlock?
             || (s.roles[t].WorkerTest? && s.queue == []))
    ensures WorkerStep(s, t) == s || Local(s, t, WorkerStep(s, t))
  {
    hide Local;
    match s.roles[t]
    case WorkerLock => if s.owner.Free? { Switch(s, t, WorkerTest, HeldBy(t)); }
    case WorkerTest => if s.stop { Switch(s, t, Exited, Free); } else { Switch(s, t, WorkerBlock, s.owner); }
    case WorkerBlock => Switch(s, t, WorkerSleep, Free);
  }

  /** A worker takes a task out of the queue. */
  lemma TakeLocal(s: State, t: nat)
    requires Here(s, t) && s.roles[t].WorkerTest? && s.queue != []
    ensures Local(s, t, WorkerStep(s, t))
  {
    var s' := WorkerStep(s, t);
    assert LocalTickets(s, t, s');
    assert LocalRoles(s, t, s');
  }

  /** `--active_tasks_` */
  lemma CountDownLocal(s: State, t: nat)
    requires Here(s, t) && s.roles[t].CountDown?
    ensures Local(s, t, WorkerStep(s, t))
  {
    var s' := WorkerStep(s, t);
    assert LocalTickets(s, t, s');
    assert LocalRoles(s, t, s');
  }

  /** The end of a task. */
  lemma FinishLocal(s: State, t: nat)
    requires Here(s, t) && s.roles[t].Running? && s.roles[t].call.NoCall?
    ensures Local(s, t, Step(s, t, Finish))
  {
    hide CallStep, WorkerStep;
    var s' := Step(s, t, Finish);
    assert LocalTickets(s, t, s');
    assert LocalRoles(s, t, s');
  }

  /** enqueue puts a task into the queue. */
  lemma PushLocal(s: State, t: nat, target: nat)
    requires Here(s, t) && (s.roles[t].Client? || s.roles[t].Running?) && s.roles[t].call.EnqPush? && s.owner.Free?
    ensures Local(s, t, CallStep(s, t, s.roles[t].call, Advance(target)))
  {
    var s' := CallStep(s, t, s.roles[t].call, Advance(target));
    assert LocalTickets(s, t, s');
    assert LocalRoles(s, t, s');
    assert LocalWakeUps(s, t, s');
  }

  /** The destructor sets `stop_`. */
  lemma StopLocal(s: State, t: nat, target: nat)
    requires Here(s, t) && s.roles[t].Client? && s.roles[t].call.StopSet? && s.owner.Free?
    ensures Local(s, t, CallStep(s, t, s.roles[t].call, Advance(target)))
  {
    var s' := CallStep(s, t, s.roles[t].call, Advance(target));
    if u :| 0 <= u < |s'.roles| && s'.roles[u].WorkerSleep? {
      assert s.roles[u].WorkerSleep?;
    }
    assert LocalTickets(s, t, s');
    assert LocalRoles(s, t, s');
    assert LocalWakeUps(s, t, s');
  }

  /** Where a step of a call that wakes nobody and leaves the queue and `stop_` alone leads to, and who
      holds the lock then. */
  function CallTarget(s: State, t: nat, mv: Move): (Call, Owner)
    requires t < |s.roles| && (s.roles[t].Client? || s.roles[t].Running?)
  {
    var role, call := s.roles[t], s.roles[t].call;
    match mv
    case Finish => (call, s.owner)
    case Wake => (if call.WaitSleep? then WaitLock else call, s.owner)
    case Invoke(op) =>
      if !call.NoCall? || (op.Shutdown? && role.Running?) then (call, s.owner)
      else ((match op case Submit(id) => EnqCheckStop(id) case WaitAll => WaitLock case Shutdown => StopSet), s.owner)
    case Advance(_) =>
      match call
      case EnqCheckStop(id) => (if s.stop then NoCall else EnqPush(id), s.owner)
      case EnqNotify => (NoCall, s.owner)
      case WaitLock => if s.owner.Free? then (WaitTest, HeldBy(t)) else (call, s.owner)
      case WaitTest => if s.queue == [] && s.active == 0 then (NoCall, Free) else (WaitBlock, s.owner)
      case WaitBlock => (WaitSleep, Free)
      case StopJoin => (if Joined(s.roles) then StopReturned else call, s.owner)
      case StopReturned => (NoCall, s.owner)
      case _ => (call, s.owner)
  }

  /** Such a step. */
  predicate Quiet(s: State, t: nat, mv: Move)
    requires t < |s.roles| && (s.roles[t].Client? || s.roles[t].Running?)
  {
    mv.Advance? ==> var call := s.roles[t].call;
      && !call.EnqPush? && !call.StopSet? && !call.StopNotify?
      && (call.EnqNotify? ==> !SomeoneSleeps(s.roles))
  }

  lemma CallIs(s: State, t: nat, mv: Move)
    requires t < |s.roles| && (s.roles[t].Client? || s.roles[t].Running?) && Quiet(s, t, mv)
    ensures var (call', owner) := CallTarget(s, t, mv);
            CallStep(s, t, s.roles[t].call, mv) == Become(s, t, WithCall(s.roles[t], call')).(owner := owner)
  {
    hide Joined;
    assert s.roles == s.roles[t := s.roles[t]];
  }

  lemma CallSwitch(s: State, t: nat, mv: Move)
    requires Here(s, t) && (s.roles[t].Client? || s.roles[t].Running?) && Quiet(s, t, mv)
    ensures Local(s, t, CallStep(s, t, s.roles[t].call, mv))
  {
    hide Local, CallStep;
    CallIs(s, t, mv);
    var (call', owner) := CallTarget(s, t, mv);
    Switch(s, t, WithCall(s.roles[t], call'), owner);
  }

  // ---------------------------------------------------------------- notifications

  /** `woken` differs from the roles of `s` in sleepers that are on their way to the lock. */
  ghost predicate Woken(s: State, woken: seq<Role>) {
    && |woken| == |s.roles|
    && forall t :: 0 <= t < |woken| ==>
         var r, r' := s.roles[t], woken[t];
         r' == r || (r.WorkerSleep? && r'.WorkerLock?) || (CallOf(r).WaitSleep? && r' == WithCall(r, WaitLock))
  }

  lemma WokenTickets(s: State, woken: seq<Role>)
    requires Tickets(s) && Woken(s, woken)
    ensures Tickets(s.(roles := woken))
  {
    CountSame(s.roles, woken, Active);
    CountSame(s.roles, woken, Finishing);
    forall k: nat
      ensures Count(woken, Runners(k)) == Count(s.roles, Runners(k))
    {
      CountSame(s.roles, woken, Runners(k));
    }
  }

  lemma WokenDraining(s: State, woken: seq<Role>)
    requires Draining(s) && Woken(s, woken)
    ensures Draining(s.(roles := woken))
  {
    CountSame(s.roles, woken, Late);
    var w :| 0 <= w < |s.roles| && !s.roles[w].Client?;
    assert !woken[w].Client?;
    if u :| 0 <= u < |s.roles| && Staying(s.roles[u]) {
      assert Staying(woken[u]);
    }
  }

  /** Waking sleepers keeps everything but the balance of wake-ups. */
  lemma WokenInv(s: State, woken: seq<Role>)
    requires Inv(s) && Woken(s, woken) && WakeUps(s.(roles := woken))
    ensures Inv(s.(roles := woken))
  {
    hide Tickets, Draining, WakeUps;
    WokenTickets(s, woken);
    WokenDraining(s, woken);
    var s' := s.(roles := woken);
    forall t | 0 <= t < |woken|
      ensures RoleOk(s', woken[t]) && (Holding(woken[t]) <==> s.owner == HeldBy(t))
    {
      assert RoleOk(s, s.roles[t]) && (Holding(s.roles[t]) <==> s.owner == HeldBy(t));
    }
  }

  /** finished_condition_.notify_all() */
  lemma AnnounceKeepsInv(s: State, t: nat)
    requires Inv(s) && t < |s.roles| && s.roles[t].Announce?
    ensures Inv(WorkerStep(s, t))
  {
    var woken := WakeWaiters(s.roles);
    var s1 := s.(roles := woken);
    assert WakeUps(s1) by {
      if u :| 0 <= u < |woken| && woken[u].WorkerSleep? {
        assert s.roles[u].WorkerSleep?;
      }
      CountSame(s.roles, woken, Notifying);
      CountSame(s.roles, woken, Testing);
    }
    WokenInv(s, woken);
    InvIsHere(s1, t);
    Switch(s1, t, WorkerLock, s1.owner);
    LocalKeepsInv(s1, t, Become(s1, t, WorkerLock));
  }

  lemma InvIsHere(s: State, t: nat)
    requires Inv(s) && t < |s.roles|
    ensures Here(s, t)
  {
    hide Tickets, Draining;
  }

  lemma NobodySleeps(s: State)
    requires s.stop && (s.announced ==> !SomeoneSleeps(s.roles))
    ensures var woken := WakeWorkers(s.roles);
            WakeUps(s.(roles := woken)) && WakeUps(s.(roles := woken, announced := true))
  {
  }

  lemma AnnouncedInv(s: State)
    requires Inv(s) && WakeUps(s.(announced := true))
    ensures Inv(s.(announced := true))
  {
    hide WakeUps;
  }

  /** condition_.notify_all() of the destructor */
  lemma StopNotifyKeepsInv(s: State, t: nat, target: nat)
    requires Inv(s) && t < |s.roles| && s.roles[t].Client? && s.roles[t].call.StopNotify?
    ensures Inv(CallStep(s, t, s.roles[t].call, Advance(target)))
  {
    hide Roles, Fifo, Tickets, Draining, Local;
    InvIsHere(s, t);
    NobodySleeps(s);
    var s1 := s.(roles := WakeWorkers(s.roles));
    WokenInv(s, s1.roles);
    var s2 := s1.(announced := true);
    AnnouncedInv(s1);
    InvIsHere(s2, t);
    Switch(s2, t, Client(StopJoin), s2.owner);
    LocalKeepsInv(s2, t, Become(s2, t, Client(StopJoin)));
  }

  lemma NotifyBalance(s: State, t: nat, target: nat, role: Role)
    requires WakeUps(s) && t < |s.roles| && target < |s.roles| && s.roles[target].WorkerSleep? && t != target
    requires Notifying(s.roles[t]) && !Notifying(role) && !Testing(s.roles[t]) && !Testing(role)
    ensures var s1 := Become(s, target, WorkerLock); WakeUps(s1) && WakeUps(Become(s1, t, role))
  {
    hide Count;
    var s1 := Become(s, target, WorkerLock);
    assert SomeoneSleeps(s.roles);
    CountUpdate(s.roles, target, WorkerLock, Notifying);
    CountUpdate(s.roles, target, WorkerLock, Testing);
    CountUpdate(s1.roles, t, role, Notifying);
    CountUpdate(s1.roles, t, role, Testing);
  }

  /** condition_.notify_one() with somebody asleep */
  lemma NotifyOneKeepsInv(s: State, t: nat, target: nat)
    requires Inv(s) && t < |s.roles| && (s.roles[t].Client? || s.roles[t].Running?) && s.roles[t].call.EnqNotify?
    requires target < |s.roles| && s.roles[target].WorkerSleep?
    ensures Inv(CallStep(s, t, s.roles[t].call, Advance(target)))
  {
    hide Roles, Fifo, Tickets, Draining, WakeUps;
    var s1 := Become(s, target, WorkerLock);
    NotifyBalance(s, t, target, WithCall(s.roles[t], NoCall));
    WokenInv(s, s1.roles);
    NotifierLeaves(s1, t);
  }

  lemma NotifierLeaves(s: State, t: nat)
    requires Inv(s) && t < |s.roles| && (s.roles[t].Client? || s.roles[t].Running?) && s.roles[t].call.EnqNotify?
    requires WakeUps(Become(s, t, WithCall(s.roles[t], NoCall)))
    ensures Inv(Become(s, t, WithCall(s.roles[t], NoCall)))
  {
    hide WakeUps;
    var s' := Become(s, t, WithCall(s.roles[t], NoCall));
    assert RoleOk(s, s.roles[t]) && (Holding(s.roles[t]) <==> s.owner == HeldBy(t));
    RolesKept(s, t, s');
    TicketsKept(s, t, s');
    DrainingKept(s, t, s');
  }

  // ---------------------------------------------------------------- every step

  lemma CallKeepsInv(s: State, t: nat, mv: Move)
    requires Inv(s) && t < |s.roles| && (s.roles[t].Client? || s.roles[t].Running?)
    ensures Inv(CallStep(s, t, s.roles[t].call, mv))
  {
    hide Roles, Fifo, Tickets, WakeUps, Draining, Local;
    InvIsHere(s, t);
    var call := s.roles[t].call;
    if mv.Advance? && call.StopNotify? {
      StopNotifyKeepsInv(s, t, mv.target);
    } else if mv.Advance? && call.EnqNotify? && SomeoneSleeps(s.roles) {
      if mv.target < |s.roles| && s.roles[mv.target].WorkerSleep? { NotifyOneKeepsInv(s, t, mv.target); }
    } else {
      if mv.Advance? && call.EnqPush? {
        if s.owner.Free? { PushLocal(s, t, mv.target); }
      } else if mv.Advance? && call.StopSet? {
        if s.owner.Free? { StopLocal(s, t, mv.target); }
      } else {
        CallSwitch(s, t, mv);
      }
      if CallStep(s, t, call, mv) != s {
        LocalKeepsInv(s, t, CallStep(s, t, call, mv));
      }
    }
  }

  lemma WorkerKeepsInv(s: State, t: nat)
    requires Inv(s) && t < |s.roles| && !s.roles[t].Client? && !s.roles[t].Running? && !s.roles[t].WorkerSleep?
    ensures Inv(WorkerStep(s, t))
  {
    hide Roles, Tickets, WakeUps, Draining, Local;
    InvIsHere(s, t);
    if s.roles[t].Announce? {
      AnnounceKeepsInv(s, t);
    } else if !s.roles[t].Exited? {
      if s.roles[t].CountDown? {
        CountDownLocal(s, t);
      } else if s.roles[t].WorkerTest? && s.queue != [] {
        TakeLocal(s, t);
      } else {
        WorkerSwitch(s, t);
      }
      if WorkerStep(s, t) != s {
        LocalKeepsInv(s, t, WorkerStep(s, t));
      }
    }
  }

  /** Every step of every thread keeps the invariant. */
  lemma StepKeepsInv(s: State, t: nat, mv: Move)
    requires Inv(s)
    ensures Inv(Step(s, t, mv))
  {
    hide Roles, Fifo, Tickets, WakeUps, Draining, Local, CallStep, WorkerStep;
    if t < |s.roles| {
      InvIsHere(s, t);
      if s.roles[t].WorkerSleep? {
        if mv.Wake? { SpuriousWakeKeepsInv(s, t); }
      } else if s.roles[t].Running? && mv.Finish? && s.roles[t].call.NoCall? {
        FinishLocal(s, t);
        LocalKeepsInv(s, t, Step(s, t, mv));
      } else if s.roles[t].Client? || s.roles[t].Running? {
        CallKeepsInv(s, t, mv);
      } else if mv.Advance? {
        WorkerKeepsInv(s, t);
      }
    }
  }

  lemma SpuriousWakeKeepsInv(s: State, t: nat)
    requires Inv(s) && t < |s.roles| && s.roles[t].WorkerSleep?
    ensures Inv(Become(s, t, WorkerLock))
  {
    hide Roles, Fifo, Tickets, WakeUps, Draining;
    InvIsHere(s, t);
    Switch(s, t, WorkerLock, s.owner);
    LocalKeepsInv(s, t, Become(s, t, WorkerLock));
  }

  lemma {:induction false} RunKeepsInv(s: State, moves: Schedule)
    requires Inv(s)
    ensures Inv(Run(s, moves))
  {
    hide Inv, Step;
    if moves != [] {
      var last := |moves| - 1;
      RunKeepsInv(s, moves[..last]);
      StepKeepsInv(Run(s, moves[..last]), moves[last].0, moves[last].1);
    }
  }
}
