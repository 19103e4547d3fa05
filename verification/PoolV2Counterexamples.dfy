/** Runs of the lock-free pool that show what it does not guarantee. */
module PoolV2Counterexamples {
  import opened RingArithmetic
  import Tally
  import Q = QueueMachine
  import QI = QueueInvariant
  import QR = QueueRuns
  import opened ThreadPoolV2
  import opened PoolV2Invariant
  import opened PoolV2Theorems
  import opened PoolV2Runs

  lemma ReachedInv(capacity: nat, workers: nat, clients: nat, s: State)
    requires capacity >= 2 && workers > 0 && Reaches(Init(capacity, workers, clients), s)
    ensures Inv(s) && |s.q.slots| == capacity
  {
    hide Inv;
    InitInv(capacity, workers, clients);
    var moves :| Run(Init(capacity, workers, clients), moves) == s;
    RunKeepsInv(Init(capacity, workers, clients), moves);
  }

  /** No thread is between winning a ticket and its sequence store. */
  lemma Cells(capacity: nat, workers: nat, clients: nat, s: State)
    requires capacity >= 2 && workers > 0 && Reaches(Init(capacity, workers, clients), s)
    requires forall u :: 0 <= u < |s.q.pcs| ==> !QI.Holds(s.q.pcs[u])
    ensures s.q.head <= s.q.tail == |s.q.pushed| && s.q.tail - s.q.head <= capacity == |s.q.slots|
    ensures s.q.head < s.q.tail ==> QI.At(s.q, s.q.head) == Q.Cell(s.q.head + 1, s.q.pushed[s.q.head])
    ensures s.q.tail - s.q.head < capacity ==> QI.At(s.q, s.q.tail).sequence == s.q.tail
    ensures s.q.tail - s.q.head == capacity ==> QI.At(s.q, s.q.tail).sequence < s.q.tail
  {
    hide Roles, Accounts, Tickets, Draining, Reaches;
    ReachedInv(capacity, workers, clients, s);
    QR.StillCells(s.q);
  }

  // ---------------------------------------------------------------- wait_all returns early

  /** wait_all finds the queue empty and no active task. */
  lemma FindsAllDone(s: State, t: nat)
    requires Live(s, t) && s.roles[t] == Client(WaitLoop(s.q.tail)) && s.q.pcs[t] == Q.Idle
    requires s.q.head == s.q.tail && s.active == 0
    ensures After(s, t, 5) == Become(s, t, Client(WaitReturned(s.q.tail)))
    ensures PassesBy(s, t, 5)
  {
    hide Step, After, Q.Next, QR.After, QR.Inside, PassesBy;
    var q, n := s.q, s.q.tail;
    CallsEmpty(s, t);
    AfterOne(s, t);
    var s1 := Become(s, t, Client(WaitEmpty(n))).(q := Q.Goto(q, t, Q.SizeLoadHead));
    QR.Sizes(s1.q, t, Husk(0));
    Lift(s1, t, 2);
    AfterAfter(s, t, 1, 2);
    QR.GotoTwice(q, t, Q.SizeLoadHead, Q.SizeDone(n, n));
    var s3 := Become(s, t, Client(WaitEmpty(n))).(q := Q.Goto(q, t, Q.SizeDone(n, n)));
    assert After(s, t, 3) == s3;
    FoundEmpty(s3, t, n);
    AfterAfter(s, t, 3, 2);
    PassesByOne(s, t);
    PassesByBoth(s, t, 1, 2);
    PassesByBoth(s, t, 3, 2);
    assert q.pcs[t := Q.SizeDone(n, n)][t := Q.Idle] == q.pcs;
    assert s3.roles[t := Client(WaitReturned(n))] == s.roles[t := Client(WaitReturned(n))];
  }

  lemma CallsEmpty(s: State, t: nat)
    requires Live(s, t) && s.roles[t] == Client(WaitLoop(s.q.tail)) && s.q.pcs[t] == Q.Idle
    ensures Step(s, t, GO) == Become(s, t, Client(WaitEmpty(s.q.tail))).(q := Q.Goto(s.q, t, Q.SizeLoadHead))
  {
    hide Q.Next;
    QR.EntersAndLeaves(s.q, t, Q.Size);
  }

  lemma FoundEmpty(s: State, t: nat, n: nat)
    requires Live(s, t) && s.roles[t] == Client(WaitEmpty(n)) && s.q.pcs[t] == Q.SizeDone(n, n) && s.active == 0
    ensures After(s, t, 2) == Become(s, t, Client(WaitReturned(n))).(q := Q.Goto(s.q, t, Q.Idle))
    ensures PassesBy(s, t, 2)
  {
    hide After, Q.Next, PassesBy;
    QR.EntersAndLeaves(s.q, t, Q.Size);
    AfterOne(s, t);
    PassesByOne(s, t);
    var s1 := Become(s, t, Client(WaitActive(n))).(q := Q.Goto(s.q, t, Q.Idle));
    AfterOne(s1, t);
    PassesByOne(s1, t);
    PassesByBoth(s, t, 1, 1);
    AfterAfter(s, t, 1, 1);
    assert s1.roles[t := Client(WaitReturned(n))] == s.roles[t := Client(WaitReturned(n))];
  }

  /** A client puts a task into the queue. */
  lemma Submits(s0: State, s: State, t: nat, id: nat)
    requires WellFormed(s0) && Reaches(s0, s) && Live(s, t) && !s.stop
    requires s.roles[t] == Client(NoCall) && s.q.pcs[t] == Q.Idle && QI.At(s.q, s.q.tail).sequence == s.q.tail
    ensures var k := s.q.tail;
            Reaches(s0, s.(q := s.q.(tail := k + 1, pushed := s.q.pushed + [Task(id)],
                                     slots := s.q.slots[Slot(k, |s.q.slots|) := Q.Cell(k + 1, Task(id))]),
                           enqueued := s.enqueued + 1))
  {
    hide Step, After, Reaches, Slot;
    EntersQueue(s, t, id);
    var s1 := Become(s, t, Client(EnqCheckStop(id)));
    ReachesStep(s0, s, t, Invoke(Submit(id)), s1);
    var s2 := Become(s, t, Client(EnqPush(id, 0))).(q := Q.Goto(s.q, t, Q.EnqLoadTail(Task(id))));
    ReachesStep(s0, s1, t, GO, s2);
    Accepted(s2, t, id, 0, Task(id));
    ReachesAfter(s0, s2, t, 8, After(s2, t, 8));
    assert s2.roles[t := Client(NoCall)] == s.roles;
    assert s2.q.pcs[t := Q.Idle] == s.q.pcs;
  }

  /** wait_all can return although its caller's only task has not begun: one client, one worker. */
  lemma WaitAllReturnsEarly(capacity: nat, id: nat) returns (s: State)
    requires capacity >= 2
    ensures Reaches(Init(capacity, 1, 1), s)
    ensures s.roles == [CountUp(0, Task(id)), Client(WaitReturned(1))] && s.q.pushed == [Task(id)]
    ensures s.enqueued == 1 && s.begun == multiset{} && s.ended == multiset{}
  {
    hide Step, After, Reaches;
    var s0 := Init(capacity, 1, 1);
    ReachesSelf(s0);
    assert s0.roles == [Dequeuing, Client(NoCall)] && Slot(0, capacity) == 0;
    Submits(s0, s0, 1, id);
    var s1 := s0.(q := s0.q.(tail := 1, pushed := [] + [Task(id)], slots := s0.q.slots[0 := Q.Cell(1, Task(id))]),
                  enqueued := 1);
    Takes(s1, 0);
    var s2 := After(s1, 0, 7);
    ReachesAfter(s0, s1, 0, 7, s2);
    var s3 := Become(s2, 1, Client(WaitLoop(1)));
    CallsWait(s2, 1);
    ReachesStep(s0, s2, 1, Invoke(WaitAll), s3);
    FindsAllDone(s3, 1);
    s := Become(s3, 1, Client(WaitReturned(1)));
    ReachesAfter(s0, s3, 1, 5, s);
  }

  lemma CallsWait(s: State, t: nat)
    requires Live(s, t) && s.roles[t] == Client(NoCall)
    ensures Step(s, t, Invoke(WaitAll)) == Become(s, t, Client(WaitLoop(s.q.tail)))
  {
  }

  // ---------------------------------------------------------------- a retry ends the process

  /** Nothing is under way: the first `n` tickets are tasks, `done` of them ended. */
  ghost predicate Resting(capacity: nat, s: State, n: nat, done: nat, call: Call)
    requires capacity >= 2
  {
    && Reaches(Init(capacity, 1, 2), s) && Live(s, 0) && |s.q.slots| == capacity && !s.stop
    && s.roles == [Dequeuing, Client(NoCall), Client(call)] && s.q.pcs == [Q.Idle, Q.Idle, Q.Idle]
    && done <= n && s.q.head == done && s.q.tail >= n && s.q.tail == |s.q.pushed|
    && (forall k :: 0 <= k < n ==> s.q.pushed[k].Task?)
    && (forall k: nat :: s.begun[k] == s.ended[k] == if k < done then 1 else 0)
  }

  lemma {:induction false} Fills(capacity: nat, n: nat) returns (s: State)
    requires capacity >= 2 && n <= capacity
    ensures Resting(capacity, s, n, 0, NoCall) && s.q.tail == s.enqueued == n
  {
    hide Step, Reaches;
    var s0 := Init(capacity, 1, 2);
    if n == 0 {
      s := s0;
      ReachesSelf(s0);
      assert s0.roles == [Dequeuing, Client(NoCall), Client(NoCall)] && s0.q.pcs == [Q.Idle, Q.Idle, Q.Idle];
    } else {
      var s1 := Fills(capacity, n - 1);
      Cells(capacity, 1, 2, s1);
      Submits(s0, s1, 1, n);
      s := s1.(q := s1.q.(tail := n, pushed := s1.q.pushed + [Task(n)],
                          slots := s1.q.slots[Slot(n - 1, capacity) := Q.Cell(n, Task(n))]), enqueued := n);
    }
  }

  /** The worker takes the oldest task and runs it. */
  lemma Serves(capacity: nat, s: State, n: nat, done: nat, call: Call) returns (s': State)
    requires capacity >= 2 && Resting(capacity, s, n, done, call) && done < n
    ensures Resting(capacity, s', n, done + 1, call)
    ensures s'.q.tail == s.q.tail && s'.q.pushed == s.q.pushed && s'.enqueued == s.enqueued
  {
    hide Step, After, Reaches, Slot;
    Cells(capacity, 1, 2, s);
    Takes(s, 0);
    var s1 := After(s, 0, 7);
    ReachesAfter(Init(capacity, 1, 2), s, 0, 7, s1);
    RunsTask(Init(capacity, 1, 2), s1, 0, done, s.q.pushed[done]);
    s' := Become(s1, 0, Dequeuing).(completed := s1.completed + 1, begun := s1.begun + multiset{done},
                                    ended := s1.ended + multiset{done});
  }

  lemma {:induction false} ServesAll(capacity: nat, s: State, n: nat, done: nat, call: Call) returns (s': State)
    requires capacity >= 2 && Resting(capacity, s, n, done, call)
    ensures Resting(capacity, s', n, n, call)
    ensures s'.q.tail == s.q.tail && s'.q.pushed == s.q.pushed && s'.enqueued == s.enqueued
    decreases n - done
  {
    hide Reaches;
    if done < n {
      var s1 := Serves(capacity, s, n, done, call);
      s' := ServesAll(capacity, s1, n, done + 1, call);
    } else {
      s' := s;
    }
  }

  /** The second client meets a full queue. */
  lemma MeetsFullQueue(capacity: nat, id: nat) returns (s: State)
    requires capacity >= 2
    ensures Resting(capacity, s, capacity, 0, EnqRecheckStop(id, 0)) && s.q.tail == s.enqueued == capacity
  {
    hide Step, After, Reaches, Slot;
    var s0 := Init(capacity, 1, 2);
    var s1 := Fills(capacity, capacity);
    Cells(capacity, 1, 2, s1);
    EntersQueue(s1, 2, id);
    var s2 := Become(s1, 2, Client(EnqCheckStop(id)));
    ReachesStep(s0, s1, 2, Invoke(Submit(id)), s2);
    var s3 := Become(s1, 2, Client(EnqPush(id, 0))).(q := Q.Goto(s1.q, 2, Q.EnqLoadTail(Task(id))));
    ReachesStep(s0, s2, 2, GO, s3);
    Refused(s3, 2, id, Task(id));
    s := Become(s1, 2, Client(EnqRecheckStop(id, 0)));
    assert s3.q.pcs[2 := Q.Idle] == s1.q.pcs && s3.roles[2 := Client(EnqRecheckStop(id, 0))] == s.roles;
    ReachesAfter(s0, s3, 2, 3, s);
  }

  /** Its retry meets a free cell. */
  lemma Retries(capacity: nat, id: nat) returns (s: State)
    requires capacity >= 2
    ensures Resting(capacity, s, capacity, 1, NoCall)
    ensures s.q.tail == s.enqueued == capacity + 1 && s.q.pushed[capacity] == Husk(id)
  {
    hide Step, After, Reaches, Slot;
    var s0 := Init(capacity, 1, 2);
    var s4 := MeetsFullQueue(capacity, id);
    var s5 := Serves(capacity, s4, capacity, 0, EnqRecheckStop(id, 0));
    Cells(capacity, 1, 2, s5);
    TriesAgain(s5, 2, id);
    var s6 := Become(s5, 2, Client(EnqPush(id, 1))).(q := Q.Goto(s5.q, 2, Q.EnqLoadTail(Husk(id))));
    ReachesStep(s0, s5, 2, GO, s6);
    Accepted(s6, 2, id, 1, Husk(id));
    s := After(s6, 2, 8);
    ReachesAfter(s0, s6, 2, 8, s);
  }

  /** A submission meets a full queue, is accepted on its second attempt and returns normally; the worker
      that takes it out ends the process. One worker and two clients, any capacity. */
  lemma RetryCrashes(capacity: nat, id: nat) returns (s: State)
    requires capacity >= 2
    ensures Reaches(Init(capacity, 1, 2), s) && s.crashed && s.roles[2] == Client(NoCall)
    ensures s.enqueued == s.q.tail == capacity + 1 == |s.q.pushed| && s.q.pushed[capacity] == Husk(id)
    ensures forall k: nat :: s.begun[k] == if k <= capacity then 1 else 0
    ensures forall k: nat :: s.ended[k] == if k < capacity then 1 else 0
  {
    hide Step, After, Reaches, Slot;
    var s0 := Init(capacity, 1, 2);
    var s1 := Retries(capacity, id);
    var s2 := ServesAll(capacity, s1, capacity, 1, NoCall);
    Cells(capacity, 1, 2, s2);
    Takes(s2, 0);
    var s3 := After(s2, 0, 7);
    ReachesAfter(s0, s2, 0, 7, s3);
    Begins(s3, 0, capacity, Husk(id));
    var s4 := Become(s3, 0, Running(capacity, Husk(id), NoCall)).(active := s3.active + 1,
                                                                 begun := s3.begun + multiset{capacity});
    ReachesStep(s0, s3, 0, GO, s4);
    Crashes(s4, 0);
    s := s4.(crashed := true);
    ReachesStep(s0, s4, 0, GO, s);
  }

  lemma Crashes(s: State, t: nat)
    requires Live(s, t) && s.roles[t].Running? && s.roles[t].job.Husk?
    ensures Step(s, t, GO) == s.(crashed := true)
  {
    hide Q.Next;
  }

  // ---------------------------------------------------------------- submissions that overlap the destructor

  /** The role of thread `u` among `workers` workers, of which `out` have exited; `late` clients, of which
      `entered` are or were in an attempt and `sent` have returned; and a client that calls the destructor. */
  function Part(workers: nat, late: nat, entered: nat, out: nat, sent: nat, last: Call, u: nat): Role {
    if u < workers then (if u < out then Exited else Dequeuing)
    else if u < workers + late then Client(if workers + sent <= u < workers + entered then EnqPush(u, 0) else NoCall)
    else Client(last)
  }

  function PartPc(workers: nat, late: nat, entered: nat, sent: nat, u: nat): Q.Pc<Job> {
    if workers + sent <= u < workers + entered then Q.EnqLoadTail(Task(u)) else Q.Idle
  }

  /** Everybody plays that part, and only the late tasks are in the queue. */
  ghost predicate Scene(capacity: nat, workers: nat, late: nat, s: State, entered: nat, out: nat, sent: nat, last: Call)
    requires capacity >= 2 && workers > 0
  {
    && Reaches(Init(capacity, workers, late + 1), s) && Live(s, 0) && |s.q.slots| == capacity
    && |s.roles| == workers + late + 1 && sent <= entered <= late && out <= workers
    && (forall u :: 0 <= u < |s.roles| ==>
          && s.roles[u] == Part(workers, late, entered, out, sent, last, u)
          && s.q.pcs[u] == PartPc(workers, late, entered, sent, u))
    && s.q.head == 0 && s.q.tail == s.enqueued == sent && s.begun == s.ended == multiset{}
    && (s.stop <==> last.StopJoin? || last.StopReturned?) && (s.stop ==> s.latecomers == late)
  }

  lemma {:induction false} ClientsEnter(capacity: nat, workers: nat, late: nat, entered: nat) returns (s: State)
    requires capacity >= 2 && workers > 0 && entered <= late
    ensures Scene(capacity, workers, late, s, entered, 0, 0, NoCall) && Count(s, Late) == entered
  {
    hide Step, Reaches, Count;
    var s0 := Init(capacity, workers, late + 1);
    if entered == 0 {
      s := s0;
      ReachesSelf(s0);
      NoThread(s0, Late);
    } else {
      var s1 := ClientsEnter(capacity, workers, late, entered - 1);
      var u := workers + entered - 1;
      EntersQueue(s1, u, u);
      var s2 := Become(s1, u, Client(EnqCheckStop(u)));
      ReachesStep(s0, s1, u, Invoke(Submit(u)), s2);
      s := Become(s1, u, Client(EnqPush(u, 0))).(q := Q.Goto(s1.q, u, Q.EnqLoadTail(Task(u))));
      ReachesStep(s0, s2, u, GO, s);
      CountUpdate(s1, s, u, Late);
    }
  }

  /** The destructor sets `stop_`. */
  lemma StopsMeanwhile(capacity: nat, workers: nat, late: nat) returns (s: State)
    requires capacity >= 2 && workers > 0
    ensures Scene(capacity, workers, late, s, late, 0, 0, StopJoin)
  {
    hide Step, Reaches, Count;
    var s0, t := Init(capacity, workers, late + 1), workers + late;
    var s1 := ClientsEnter(capacity, workers, late, late);
    var s2 := Become(s1, t, Client(StopStore));
    SetsStop(s1, t);
    ReachesStep(s0, s1, t, Invoke(Shutdown), s2);
    CountUpdate(s1, s2, t, Late);
    LatecomersCounted(s2);
    s := Become(s2, t, Client(StopJoin)).(stop := true, latecomers := late);
    ReachesStep(s0, s2, t, GO, s);
  }

  lemma SetsStop(s: State, t: nat)
    requires Live(s, t) && s.roles[t] == Client(NoCall) && !s.stop
    ensures var s1 := Become(s, t, Client(StopStore));
            && Step(s, t, Invoke(Shutdown)) == s1
            && Step(s1, t, GO)
               == Become(s1, t, Client(StopJoin)).(stop := true, latecomers := Tally.Sum(LateBits(s1.roles, s1.q.pcs)))
  {
    hide Q.Next;
  }

  lemma {:induction false} WorkersLeave(capacity: nat, workers: nat, late: nat, out: nat) returns (s: State)
    requires capacity >= 2 && workers > 0 && out <= workers
    ensures Scene(capacity, workers, late, s, late, out, 0, StopJoin)
  {
    hide Step, After, Reaches;
    if out == 0 {
      s := StopsMeanwhile(capacity, workers, late);
    } else {
      var s1 := WorkersLeave(capacity, workers, late, out - 1);
      Cells(capacity, workers, late + 1, s1);
      Leaves(s1, out - 1);
      s := After(s1, out - 1, 8);
      ReachesAfter(Init(capacity, workers, late + 1), s1, out - 1, 8, s);
    }
  }

  lemma {:induction false} LateTasksArrive(capacity: nat, workers: nat, late: nat, sent: nat) returns (s: State)
    requires capacity >= 2 && workers > 0 && sent <= late <= capacity
    ensures Scene(capacity, workers, late, s, late, workers, sent, StopJoin)
  {
    hide Step, After, Reaches, Slot;
    if sent == 0 {
      s := WorkersLeave(capacity, workers, late, workers);
    } else {
      var s1 := LateTasksArrive(capacity, workers, late, sent - 1);
      var u := workers + sent - 1;
      Cells(capacity, workers, late + 1, s1);
      Accepted(s1, u, u, 0, Task(u));
      s := After(s1, u, 8);
      ReachesAfter(Init(capacity, workers, late + 1), s1, u, 8, s);
    }
  }

  /** The bound of UnrunAreLate is met: for any capacity, any number of workers, and up to `capacity` clients
      that could still put a task into the queue when `stop_` was set, the destructor can return with all
      their tasks accepted and none of them run. */
  lemma OverlapLosesTasks(capacity: nat, workers: nat, late: nat) returns (s: State)
    requires capacity >= 2 && workers > 0 && late <= capacity
    ensures Reaches(Init(capacity, workers, late + 1), s) && Joined(s.roles) && |s.roles| == workers + late + 1
    ensures s.roles[workers + late] == Client(StopReturned)
    ensures forall u :: workers <= u < workers + late ==> s.roles[u] == Client(NoCall)
    ensures s.latecomers == s.enqueued == s.q.tail - s.q.head == late && s.begun == s.ended == multiset{}
  {
    hide Step, Reaches;
    var t := workers + late;
    var s1 := LateTasksArrive(capacity, workers, late, late);
    s := Become(s1, t, Client(StopReturned));
    Joins(s1, t);
    ReachesStep(Init(capacity, workers, late + 1), s1, t, GO, s);
  }

  lemma Joins(s: State, t: nat)
    requires Live(s, t) && s.roles[t] == Client(StopJoin) && Joined(s.roles)
    ensures Step(s, t, GO) == Become(s, t, Client(StopReturned))
  {
    hide Q.Next;
  }
}
