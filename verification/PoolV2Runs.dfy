/** Pieces of the lock-free pool's code run by one thread while the others stand still, and runs built from
    them that show what the pool does not guarantee. */
module PoolV2Runs {
  import opened RingArithmetic
  import Q = QueueMachine
  import QI = QueueInvariant
  import QR = QueueRuns

  import opened ThreadPoolV2

  /** One access, without a spurious failure. */
  const GO: Move := Advance(false, Husk(0))

  ghost predicate Reaches(s: State, s': State)
    requires WellFormed(s)
  {
    exists moves :: Run(s, moves) == s'
  }

  lemma ReachesSelf(s: State)
    requires WellFormed(s)
    ensures Reaches(s, s)
  {
    assert Run(s, []) == s;
  }

  lemma ReachesStep(s: State, s': State, t: nat, mv: Move, next: State)
    requires WellFormed(s) && WellFormed(s') && Reaches(s, s') && Step(s', t, mv) == next
    ensures Reaches(s, next)
  {
    hide Step;
    var moves :| Run(s, moves) == s';
    assert (moves + [(t, mv)])[..|moves|] == moves;
    assert Run(s, moves + [(t, mv)]) == next;
  }

  /** The state after `n` accesses of thread `t` in a row. */
  function After(s: State, t: nat, n: nat): (s': State)
    requires WellFormed(s)
    ensures WellFormed(s') && |s'.q.slots| == |s.q.slots| && |s'.roles| == |s.roles|
  {
    if n == 0 then s else Step(After(s, t, n - 1), t, GO)
  }

  lemma {:induction false} ReachesAfter(s: State, s': State, t: nat, n: nat, next: State)
    requires WellFormed(s) && WellFormed(s') && Reaches(s, s') && After(s', t, n) == next
    ensures Reaches(s, next)
  {
    hide Step, Reaches;
    if n > 0 {
      ReachesAfter(s, s', t, n - 1, After(s', t, n - 1));
      ReachesStep(s, After(s', t, n - 1), t, GO, next);
    }
  }

  lemma {:induction false} AfterAfter(s: State, t: nat, m: nat, n: nat)
    requires WellFormed(s)
    ensures After(s, t, m + n) == After(After(s, t, m), t, n)
  {
    hide Step;
    if n > 0 {
      AfterAfter(s, t, m, n - 1);
    }
  }

  lemma AfterOne(s: State, t: nat)
    requires WellFormed(s)
    ensures After(s, t, 1) == Step(s, t, GO)
  {
    hide Step;
    assert After(s, t, 0) == s;
  }

  /** A client inside a call that goes on, or a worker between two tasks. */
  predicate Passing(role: Role) {
    if role.Client?
    then !role.call.NoCall? && !role.call.WaitReturned? && (role.call.EnqReturned? ==> role.call.accepted)
    else !role.CountUp? && !role.Running?
  }

  /** Thread `t` is there before each of its next `n` accesses. */
  ghost predicate PassesBy(s: State, t: nat, n: nat)
    requires WellFormed(s) && t < |s.roles|
  {
    forall j: nat {:trigger After(s, t, j)} :: j < n ==> Passing(After(s, t, j).roles[t])
  }

  lemma PassesByBoth(s: State, t: nat, m: nat, n: nat)
    requires WellFormed(s) && t < |s.roles| && PassesBy(s, t, m) && PassesBy(After(s, t, m), t, n)
    ensures PassesBy(s, t, m + n)
  {
    hide After, Passing;
    forall j: nat | j < m + n
      ensures Passing(After(s, t, j).roles[t])
    {
      if j >= m {
        AfterAfter(s, t, m, j - m);
      }
    }
  }

  lemma PassesByOne(s: State, t: nat)
    requires WellFormed(s) && t < |s.roles| && Passing(s.roles[t])
    ensures PassesBy(s, t, 1)
  {
    hide Step;
    assert After(s, t, 0) == s;
  }

  predicate Live(s: State, t: nat) {
    WellFormed(s) && !s.crashed && t < |s.roles|
  }

  // ---------------------------------------------------------------- inside a queue operation

  /** Thread `t` is where the pool's code calls a queue operation. */
  predicate AtQueue(role: Role) {
    || role.Dequeuing? || role.LoadEmpty?
    || ((role.Client? || (role.Running? && role.job.Task?)) && (role.call.EnqPush? || role.call.WaitEmpty?))
  }

  lemma StepAtQueue(s: State, t: nat)
    requires Live(s, t) && AtQueue(s.roles[t]) && QR.Moving(s.q.pcs[t])
    ensures Step(s, t, GO) == s.(q := Q.Next(s.q, t, Q.Advance(false, Husk(0))))
  {
    hide Q.Next;
  }

  /** The accesses of a queue operation are those of the queue's machine. */
  lemma {:induction false} Lift(s: State, t: nat, n: nat)
    requires Live(s, t) && AtQueue(s.roles[t]) && QR.Inside(s.q, t, n, Husk(0))
    ensures After(s, t, n) == s.(q := QR.After(s.q, t, n, Husk(0)))
    ensures !s.roles[t].Running? ==> PassesBy(s, t, n)
  {
    hide Step, Q.Next;
    if n > 0 {
      assert QR.Inside(s.q, t, n - 1, Husk(0));
      Lift(s, t, n - 1);
      assert QR.Moving(QR.After(s.q, t, n - 1, Husk(0)).pcs[t]);
      StepAtQueue(After(s, t, n - 1), t);
    }
  }

  // ---------------------------------------------------------------- enqueue

  /** A client calls enqueue and passes the stop check. */
  lemma EntersQueue(s: State, t: nat, id: nat)
    requires Live(s, t) && !s.stop && s.roles[t] == Client(NoCall) && s.q.pcs[t] == Q.Idle
    ensures Step(s, t, Invoke(Submit(id))) == Become(s, t, Client(EnqCheckStop(id)))
    ensures Step(Become(s, t, Client(EnqCheckStop(id))), t, GO)
            == Become(s, t, Client(EnqPush(id, 0))).(q := Q.Goto(s.q, t, Q.EnqLoadTail(Task(id))))
  {
    hide Q.Next;
    QR.EntersAndLeaves(s.q, t, Q.Enqueue(Task(id)));
    assert s.roles[t := Client(EnqCheckStop(id))][t := Client(EnqPush(id, 0))] == s.roles[t := Client(EnqPush(id, 0))];
  }

  /** The slot is free: the attempt succeeds and enqueue returns. */
  lemma Accepted(s: State, t: nat, id: nat, retries: nat, job: Job)
    requires Live(s, t) && s.roles[t] == Client(EnqPush(id, retries)) && s.q.pcs[t] == Q.EnqLoadTail(job)
    requires QI.At(s.q, s.q.tail).sequence == s.q.tail
    ensures var k, q := s.q.tail, s.q;
            After(s, t, 8) == Become(s, t, Client(NoCall)).(
              q := Q.Goto(q, t, Q.Idle).(tail := k + 1, pushed := q.pushed + [job],
                                         slots := q.slots[Slot(k, |q.slots|) := Q.Cell(k + 1, job)]),
              enqueued := s.enqueued + 1)
    ensures PassesBy(s, t, 8)
  {
    hide Step, After, Q.Next, QR.After, QR.Inside, Slot, PassesBy;
    var k, q := s.q.tail, s.q;
    QR.Enqueues(q, t, job, Husk(0));
    Lift(s, t, 5);
    var s5 := s.(q := Q.Goto(q, t, Q.EnqAccepted(k)).(tail := k + 1, pushed := q.pushed + [job],
                                                      slots := q.slots[Slot(k, |q.slots|) := Q.Cell(k + 1, job)]));
    assert After(s, t, 5) == s5;
    Returns(s5, t, id, retries);
    AfterAfter(s, t, 5, 3);
    PassesByBoth(s, t, 5, 3);
    assert q.pcs[t := Q.EnqAccepted(k)][t := Q.Idle] == q.pcs[t := Q.Idle];
  }

  lemma Returns(s: State, t: nat, id: nat, retries: nat)
    requires Live(s, t) && s.roles[t] == Client(EnqPush(id, retries)) && s.q.pcs[t].EnqAccepted?
    ensures After(s, t, 3) == Become(s, t, Client(NoCall)).(q := Q.Goto(s.q, t, Q.Idle), enqueued := s.enqueued + 1)
    ensures PassesBy(s, t, 3)
  {
    hide After, PassesBy;
    var s1 := Become(s, t, Client(EnqCount(id))).(q := Q.Goto(s.q, t, Q.Idle));
    ReturnsFirst(s, t, id, retries);
    AfterOne(s, t);
    var s2 := Become(s1, t, Client(EnqReturned(id, true))).(enqueued := s.enqueued + 1);
    ReturnsLast(s1, t, id);
    AfterAfter(s, t, 1, 2);
    PassesByOne(s, t);
    PassesByBoth(s, t, 1, 2);
    assert s1.roles[t := Client(NoCall)] == s.roles[t := Client(NoCall)];
  }

  lemma ReturnsFirst(s: State, t: nat, id: nat, retries: nat)
    requires Live(s, t) && s.roles[t] == Client(EnqPush(id, retries)) && s.q.pcs[t].EnqAccepted?
    ensures Step(s, t, GO) == Become(s, t, Client(EnqCount(id))).(q := Q.Goto(s.q, t, Q.Idle))
  {
    hide Q.Next;
    QR.EntersAndLeaves(s.q, t, Q.Size);
  }

  lemma ReturnsLast(s: State, t: nat, id: nat)
    requires Live(s, t) && s.roles[t] == Client(EnqCount(id))
    ensures After(s, t, 2) == Become(s, t, Client(NoCall)).(enqueued := s.enqueued + 1)
    ensures PassesBy(s, t, 2)
  {
    hide Q.Next, After, PassesBy;
    var s1 := Become(s, t, Client(EnqReturned(id, true))).(enqueued := s.enqueued + 1);
    AfterOne(s, t);
    AfterOne(s1, t);
    AfterAfter(s, t, 1, 1);
    PassesByOne(s, t);
    PassesByOne(s1, t);
    PassesByBoth(s, t, 1, 1);
    assert s1.roles[t := Client(NoCall)] == s.roles[t := Client(NoCall)];
  }

  /** The queue is full: the attempt fails, and enqueue goes on to the next one. */
  lemma Refused(s: State, t: nat, id: nat, job: Job)
    requires Live(s, t) && !s.stop && s.roles[t] == Client(EnqPush(id, 0)) && s.q.pcs[t] == Q.EnqLoadTail(job)
    requires QI.At(s.q, s.q.tail).sequence < s.q.tail
    ensures After(s, t, 3) == Become(s, t, Client(EnqRecheckStop(id, 0))).(q := Q.Goto(s.q, t, Q.Idle))
  {
    hide Step, After, Q.Next, QR.After, QR.Inside;
    QR.Refuses(s.q, t, job, Husk(0));
    Lift(s, t, 2);
    var s2 := s.(q := Q.Goto(s.q, t, Q.EnqFull));
    RefusedReturns(s2, t, id);
    AfterOne(s2, t);
    AfterAfter(s, t, 2, 1);
    assert s.q.pcs[t := Q.EnqFull][t := Q.Idle] == s.q.pcs[t := Q.Idle];
  }

  lemma RefusedReturns(s: State, t: nat, id: nat)
    requires Live(s, t) && s.roles[t] == Client(EnqPush(id, 0)) && s.q.pcs[t] == Q.EnqFull
    ensures Step(s, t, GO) == Become(s, t, Client(EnqRecheckStop(id, 0))).(q := Q.Goto(s.q, t, Q.Idle))
  {
    hide Q.Next;
    QR.EntersAndLeaves(s.q, t, Q.Size);
  }

  lemma TriesAgain(s: State, t: nat, id: nat)
    requires Live(s, t) && !s.stop && s.roles[t] == Client(EnqRecheckStop(id, 0)) && s.q.pcs[t] == Q.Idle
    ensures Step(s, t, GO) == Become(s, t, Client(EnqPush(id, 1))).(q := Q.Goto(s.q, t, Q.EnqLoadTail(Husk(id))))
  {
    hide Q.Next;
    QR.EntersAndLeaves(s.q, t, Q.Enqueue(Husk(id)));
  }

  // ---------------------------------------------------------------- worker_loop

  /** A worker takes the oldest item out of the queue. */
  lemma Takes(s: State, t: nat)
    requires Live(s, t) && s.roles[t] == Dequeuing && s.q.pcs[t] == Q.Idle
    requires QI.At(s.q, s.q.head).sequence == s.q.head + 1
    ensures var k, q, i := s.q.head, s.q, Slot(s.q.head, |s.q.slots|);
            var job := q.slots[i].data;
            After(s, t, 7) == Become(s, t, CountUp(k, job)).(
              q := Q.Goto(q, t, Q.Idle).(head := k + 1, slots := q.slots[i := Q.Cell(k + |q.slots|, Husk(0))],
                                         taken := q.taken[k := job]))
    ensures PassesBy(s, t, 7)
  {
    hide Step, After, Q.Next, QR.After, QR.Inside, Slot, PassesBy;
    var k, q, i := s.q.head, s.q, Slot(s.q.head, |s.q.slots|);
    var job := q.slots[i].data;
    Seeks(s, t);
    var s1 := s.(q := Q.Goto(q, t, Q.DeqLoadHead));
    AfterOne(s, t);
    QR.DequeuesFrom(q, t, Husk(0));
    QR.Dequeues(s1.q, t, Husk(0));
    Lift(s1, t, 5);
    AfterAfter(s, t, 1, 5);
    var s6 := s.(q := Q.Goto(q, t, Q.DeqTaken(k, job)).(head := k + 1, taken := q.taken[k := job],
                                                        slots := q.slots[i := Q.Cell(k + |q.slots|, Husk(0))]));
    assert After(s, t, 6) == s6;
    Gets(s6, t);
    AfterOne(s6, t);
    AfterAfter(s, t, 6, 1);
    PassesByOne(s, t);
    PassesByBoth(s, t, 1, 5);
    PassesByOne(s6, t);
    PassesByBoth(s, t, 6, 1);
    assert q.pcs[t := Q.DeqTaken(k, job)][t := Q.Idle] == q.pcs[t := Q.Idle];
  }

  lemma Seeks(s: State, t: nat)
    requires Live(s, t) && s.roles[t] == Dequeuing && s.q.pcs[t] == Q.Idle
    ensures Step(s, t, GO) == s.(q := Q.Goto(s.q, t, Q.DeqLoadHead))
  {
    hide Q.Next;
    QR.EntersAndLeaves(s.q, t, Q.Dequeue);
  }

  lemma Gets(s: State, t: nat)
    requires Live(s, t) && s.roles[t] == Dequeuing && s.q.pcs[t].DeqTaken?
    ensures Step(s, t, GO) == Become(s, t, CountUp(s.q.pcs[t].ticket, s.q.pcs[t].got)).(q := Q.Goto(s.q, t, Q.Idle))
  {
    hide Q.Next;
    QR.EntersAndLeaves(s.q, t, Q.Size);
  }

  lemma Begins(s: State, t: nat, k: nat, job: Job)
    requires Live(s, t) && s.roles[t] == CountUp(k, job)
    ensures Step(s, t, GO)
            == Become(s, t, Running(k, job, NoCall)).(active := s.active + 1, begun := s.begun + multiset{k})
  {
    hide Q.Next;
  }

  /** A worker that has taken a task runs it to its end. */
  lemma RunsTask(s0: State, s: State, t: nat, k: nat, job: Job)
    requires WellFormed(s0) && Live(s, t) && Reaches(s0, s) && s.roles[t] == CountUp(k, job) && job.Task?
    ensures Reaches(s0, Become(s, t, Dequeuing).(completed := s.completed + 1, begun := s.begun + multiset{k},
                                                 ended := s.ended + multiset{k}))
  {
    hide Reaches, Step;
    Begins(s, t, k, job);
    var s1 := Become(s, t, Running(k, job, NoCall)).(active := s.active + 1, begun := s.begun + multiset{k});
    ReachesStep(s0, s, t, GO, s1);
    var s2 := Become(s1, t, CountDown(k)).(ended := s.ended + multiset{k});
    Ends(s1, t, k, job);
    ReachesStep(s0, s1, t, Finish, s2);
    CountsBack(s2, t, k);
    var s3 := Become(s2, t, CountDone(k)).(active := s.active);
    ReachesStep(s0, s2, t, GO, s3);
    var s4 := Become(s3, t, Dequeuing).(completed := s.completed + 1);
    ReachesStep(s0, s3, t, GO, s4);
    assert s4.roles == s.roles[t := Dequeuing];
  }

  lemma Ends(s: State, t: nat, k: nat, job: Job)
    requires Live(s, t) && s.roles[t] == Running(k, job, NoCall) && job.Task?
    ensures Step(s, t, Finish) == Become(s, t, CountDown(k)).(ended := s.ended + multiset{k})
  {
    hide Q.Next, CallStep;
  }

  lemma CountsBack(s: State, t: nat, k: nat)
    requires Live(s, t) && s.roles[t] == CountDown(k)
    ensures var s1 := Become(s, t, CountDone(k)).(active := s.active - 1);
            && Step(s, t, GO) == s1
            && Step(s1, t, GO) == Become(s1, t, Dequeuing).(completed := s.completed + 1)
  {
    hide Q.Next;
  }

  /** A worker that finds the queue empty after the stop leaves its loop. */
  lemma Leaves(s: State, t: nat)
    requires Live(s, t) && s.roles[t] == Dequeuing && s.q.pcs[t] == Q.Idle && s.stop && s.q.head == s.q.tail
    requires QI.At(s.q, s.q.head).sequence == s.q.head
    ensures After(s, t, 8) == Become(s, t, Exited).(q := Q.Goto(s.q, t, Q.Idle))
  {
    hide Step, After, Q.Next, QR.After, QR.Inside;
    var q := s.q;
    Seeks(s, t);
    AfterOne(s, t);
    var s1 := s.(q := Q.Goto(q, t, Q.DeqLoadHead));
    QR.FindsNothing(s1.q, t, Husk(0));
    Lift(s1, t, 2);
    AfterAfter(s, t, 1, 2);
    QR.GotoTwice(q, t, Q.DeqLoadHead, Q.DeqEmpty);
    var s3 := s.(q := Q.Goto(q, t, Q.DeqEmpty));
    assert After(s, t, 3) == s3;
    LooksAgain(s3, t);
    AfterAfter(s, t, 3, 2);
    QR.GotoTwice(q, t, Q.DeqEmpty, Q.SizeLoadHead);
    var s5 := Become(s, t, LoadEmpty).(q := Q.Goto(q, t, Q.SizeLoadHead));
    assert After(s, t, 5) == s5;
    QR.Sizes(s5.q, t, Husk(0));
    Lift(s5, t, 2);
    AfterAfter(s, t, 5, 2);
    QR.GotoTwice(q, t, Q.SizeLoadHead, Q.SizeDone(q.head, q.tail));
    var s7 := Become(s, t, LoadEmpty).(q := Q.Goto(q, t, Q.SizeDone(q.head, q.tail)));
    assert After(s, t, 7) == s7;
    Exits(s7, t);
    AfterOne(s7, t);
    AfterAfter(s, t, 7, 1);
    QR.GotoTwice(q, t, Q.SizeDone(q.head, q.tail), Q.Idle);
    assert s7.roles[t := Exited] == s.roles[t := Exited];
  }

  lemma LooksAgain(s: State, t: nat)
    requires Live(s, t) && s.roles[t] == Dequeuing && s.q.pcs[t] == Q.DeqEmpty && s.stop
    ensures After(s, t, 2) == Become(s, t, LoadEmpty).(q := Q.Goto(s.q, t, Q.SizeLoadHead))
  {
    hide After, Q.Next;
    var s1 := Become(s, t, LoadStop).(q := Q.Goto(s.q, t, Q.Idle));
    QR.EntersAndLeaves(s.q, t, Q.Size);
    AfterOne(s, t);
    QR.EntersAndLeaves(s1.q, t, Q.Size);
    QR.GotoTwice(s.q, t, Q.Idle, Q.SizeLoadHead);
    AfterOne(s1, t);
    AfterAfter(s, t, 1, 1);
    assert s1.roles[t := LoadEmpty] == s.roles[t := LoadEmpty];
  }

  lemma Exits(s: State, t: nat)
    requires Live(s, t) && s.roles[t] == LoadEmpty && SizedEmpty(s.q.pcs[t])
    ensures Step(s, t, GO) == Become(s, t, Exited).(q := Q.Goto(s.q, t, Q.Idle))
  {
    hide Q.Next;
    QR.EntersAndLeaves(s.q, t, Q.Size);
  }
}
