/** What a worker of the lock-free pool does on its own: it comes back to the queue. */
module PoolV2Progress {
  import opened RingArithmetic
  import Q = QueueMachine
  import QI = QueueInvariant
  import QR = QueueRuns
  import opened QueueEffects
  import opened ThreadPoolV2
  import opened PoolV2Invariant
  import opened PoolV2Theorems
  import opened PoolV2Runs

  /** `job` is the next in the queue, under ticket `k`. */
  ghost predicate NextUp(s: State, t: nat, k: nat, job: Job) {
    Live(s, t) && s.q.head == k < s.q.tail && QI.At(s.q, k) == Q.Cell(k + 1, job)
  }

  /** Within `n` of its own steps thread `t` has taken that job. */
  ghost predicate TakesWithin(s: State, t: nat, n: nat, k: nat, job: Job)
    requires WellFormed(s) && t < |s.roles|
  {
    exists m: nat :: m <= n && After(s, t, m).roles[t] == CountUp(k, job)
  }

  lemma OneMore(s: State, t: nat, s1: State, n: nat, k: nat, job: Job)
    requires WellFormed(s) && WellFormed(s1) && t < |s.roles| == |s1.roles| && Step(s, t, GO) == s1
    requires TakesWithin(s1, t, n, k, job)
    ensures TakesWithin(s, t, n + 1, k, job)
  {
    hide Step;
    var m: nat :| m <= n && After(s1, t, m).roles[t] == CountUp(k, job);
    AfterOne(s, t);
    AfterAfter(s, t, 1, m);
    assert After(s, t, 1 + m).roles[t] == CountUp(k, job);
  }

  lemma FromDequeuing(s: State, t: nat, k: nat, job: Job)
    requires NextUp(s, t, k, job) && s.roles[t].Dequeuing? && s.q.pcs[t].Idle?
    ensures TakesWithin(s, t, 7, k, job)
  {
    hide Step, After, Slot;
    Takes(s, t);
    assert After(s, t, 7).roles[t] == CountUp(k, job);
  }

  /** The exit test, with a `size()` that cannot come out 0. */
  lemma FromLoadEmpty(s: State, t: nat, k: nat, job: Job)
    requires NextUp(s, t, k, job) && s.roles[t].LoadEmpty?
    requires var pc := s.q.pcs[t];
        || pc.SizeLoadHead? || (pc.SizeLoadTail? && pc.seenHead <= k)
        || (pc.SizeDone? && !SizedEmpty(pc))
    ensures var pc := s.q.pcs[t];
            TakesWithin(s, t, if pc.SizeLoadHead? then 10 else if pc.SizeLoadTail? then 9 else 8, k, job)
    decreases if s.q.pcs[t].SizeLoadHead? then 2 else if s.q.pcs[t].SizeLoadTail? then 1 else 0
  {
    hide Step, TakesWithin, Q.Next;
    var pc := s.q.pcs[t];
    if pc.SizeDone? {
      var s1 := Become(s, t, Dequeuing).(q := Q.Goto(s.q, t, Q.Idle));
      SizeSeen(s, t);
      FromDequeuing(s1, t, k, job);
      OneMore(s, t, s1, 7, k, job);
    } else {
      var pc' := if pc.SizeLoadHead? then Q.SizeLoadTail(k) else Q.SizeDone(pc.seenHead, s.q.tail);
      var s1 := s.(q := Q.Goto(s.q, t, pc'));
      StepAtQueue(s, t);
      SizeLoads(s, t);
      FromLoadEmpty(s1, t, k, job);
      OneMore(s, t, s1, if pc.SizeLoadHead? then 9 else 8, k, job);
    }
  }

  lemma SizeSeen(s: State, t: nat)
    requires Live(s, t) && s.roles[t].LoadEmpty? && s.q.pcs[t].SizeDone? && !SizedEmpty(s.q.pcs[t])
    ensures Step(s, t, GO) == Become(s, t, Dequeuing).(q := Q.Goto(s.q, t, Q.Idle))
  {
    hide Q.Next;
    QR.EntersAndLeaves(s.q, t, Q.Size);
  }

  lemma SizeLoads(s: State, t: nat)
    requires Live(s, t) && (s.q.pcs[t].SizeLoadHead? || s.q.pcs[t].SizeLoadTail?)
    ensures var pc := s.q.pcs[t];
            Q.Next(s.q, t, Q.Advance(false, Husk(0)))
            == Q.Goto(s.q, t, if pc.SizeLoadHead? then Q.SizeLoadTail(s.q.head) else Q.SizeDone(pc.seenHead, s.q.tail))
  {
  }

  lemma FromLoadStop(s: State, t: nat, k: nat, job: Job)
    requires NextUp(s, t, k, job) && s.roles[t].LoadStop? && s.q.pcs[t].Idle?
    ensures TakesWithin(s, t, 11, k, job)
  {
    hide Step, Q.Next;
    StopLoaded(s, t);
    if s.stop {
      var s1 := Become(s, t, LoadEmpty).(q := Q.Goto(s.q, t, Q.SizeLoadHead));
      FromLoadEmpty(s1, t, k, job);
      OneMore(s, t, s1, 10, k, job);
    } else {
      FromDequeuing(Become(s, t, Dequeuing), t, k, job);
      OneMore(s, t, Become(s, t, Dequeuing), 7, k, job);
    }
  }

  lemma StopLoaded(s: State, t: nat)
    requires Live(s, t) && s.roles[t].LoadStop? && s.q.pcs[t].Idle?
    ensures Step(s, t, GO) == if s.stop then Become(s, t, LoadEmpty).(q := Q.Goto(s.q, t, Q.SizeLoadHead))
                              else Become(s, t, Dequeuing)
  {
    hide Q.Next;
    QR.EntersAndLeaves(s.q, t, Q.Size);
  }

  lemma FromEmptyHanded(s: State, t: nat, k: nat, job: Job)
    requires NextUp(s, t, k, job) && s.roles[t].Dequeuing? && s.q.pcs[t].DeqEmpty?
    ensures TakesWithin(s, t, 12, k, job)
  {
    hide Step, Q.Next, TakesWithin;
    var s1 := Become(s, t, LoadStop).(q := Q.Goto(s.q, t, Q.Idle));
    ComesOutEmpty(s, t);
    FromLoadStop(s1, t, k, job);
    OneMore(s, t, s1, 11, k, job);
  }

  lemma ComesOutEmpty(s: State, t: nat)
    requires Live(s, t) && s.roles[t].Dequeuing? && s.q.pcs[t].DeqEmpty?
    ensures Step(s, t, GO) == Become(s, t, LoadStop).(q := Q.Goto(s.q, t, Q.Idle))
  {
    hide Q.Next;
    QR.EntersAndLeaves(s.q, t, Q.Size);
  }

  lemma FromCountDown(s: State, t: nat, k: nat, job: Job)
    requires NextUp(s, t, k, job) && (s.roles[t].CountDown? || s.roles[t].CountDone?) && s.q.pcs[t].Idle?
    ensures TakesWithin(s, t, if s.roles[t].CountDown? then 9 else 8, k, job)
    decreases s.roles[t].CountDown?
  {
    hide Step, TakesWithin;
    CountsOn(s, t);
    var s1 := Step(s, t, GO);
    if s.roles[t].CountDown? {
      FromCountDown(s1, t, k, job);
      OneMore(s, t, s1, 8, k, job);
    } else {
      FromDequeuing(s1, t, k, job);
      OneMore(s, t, s1, 7, k, job);
    }
  }

  lemma CountsOn(s: State, t: nat)
    requires Live(s, t) && (s.roles[t].CountDown? || s.roles[t].CountDone?)
    ensures var s' := Step(s, t, GO);
            && s'.q == s.q && !s'.crashed && |s'.roles| == |s.roles|
            && s'.roles[t] == if s.roles[t].CountDown? then CountDone(s.roles[t].ticket) else Dequeuing
  {
    hide Q.Next;
  }

  /** The places of worker_loop outside a task and outside the accesses of try_dequeue. */
  predicate OnItsWay(role: Role, pc: Q.Pc<Job>) {
    || (role.Dequeuing? && (pc.Idle? || pc.DeqEmpty?)) || role.LoadStop? || role.LoadEmpty?
    || role.CountDown? || role.CountDone?
  }

  /** In every run: while something is in the queue and no operation is between its ticket and its sequence
      store, each such worker that has not yet found the queue empty after the stop takes the oldest task
      within 12 of its own steps, if the other threads pause. */
  lemma WorkerComesBack(capacity: nat, workers: nat, clients: nat, moves: Schedule, t: nat)
    requires capacity >= 2 && workers > 0
    requires var s := Run(Init(capacity, workers, clients), moves);
             && !s.crashed && t < |s.roles| && OnItsWay(s.roles[t], s.q.pcs[t]) && Staying(s.roles[t], s.q.pcs[t])
             && s.q.head < s.q.tail && forall u :: 0 <= u < |s.q.pcs| ==> !QI.Holds(s.q.pcs[u])
    ensures var s := Run(Init(capacity, workers, clients), moves);
            && s.q.head < |s.q.pushed|
            && exists n: nat :: n <= 12 && After(s, t, n).roles[t] == CountUp(s.q.head, s.q.pushed[s.q.head])
  {
    hide Step, Init, QI.Inv, Accounts, Tickets, Draining, After, Q.Next;
    Accounting(capacity, workers, clients, moves);
    var s := Run(Init(capacity, workers, clients), moves);
    QR.StillCells(s.q);
    Results(s.q, t);
    assert RoleOk(s.q, s.stop, s.roles[t], s.q.pcs[t]);
    var role, k, job := s.roles[t], s.q.head, s.q.pushed[s.q.head];
    if role.LoadStop? {
      FromLoadStop(s, t, k, job);
    } else if role.LoadEmpty? {
      FromLoadEmpty(s, t, k, job);
    } else if role.Dequeuing? {
      if s.q.pcs[t].Idle? { FromDequeuing(s, t, k, job); } else { FromEmptyHanded(s, t, k, job); }
    } else {
      FromCountDown(s, t, k, job);
    }
  }
}
