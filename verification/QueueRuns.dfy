/** Operations of one thread while the others stand still, and runs that show what the ring buffer does
    not guarantee. */
module QueueRuns {
  import opened RingArithmetic
  import opened QueueMachine
  import opened QueueInvariant
  import opened QueueTheorems

  function Solo<T>(t: nat, n: nat, residue: T): (moves: Schedule<T>)
    ensures |moves| == n
  {
    seq(n, _ => (t, Advance(false, residue)))
  }

  /** The state after `n` accesses of thread `t` in a row. */
  function After<T>(s: State<T>, t: nat, n: nat, residue: T): (s': State<T>)
    requires |s.slots| > 0
    ensures |s'.slots| == |s.slots| && |s'.pcs| == |s.pcs|
  {
    if n == 0 then s else Next(After(s, t, n - 1, residue), t, Advance(false, residue))
  }

  lemma {:induction false} RunSolo<T>(s: State<T>, t: nat, n: nat, residue: T)
    requires |s.slots| > 0
    ensures Run(Unbounded, s, Solo(t, n, residue)) == After(s, t, n, residue)
  {
    if n > 0 {
      RunSolo(s, t, n - 1, residue);
      assert Solo(t, n, residue)[..n - 1] == Solo(t, n - 1, residue);
    }
  }

  lemma RunOne<T>(s: State<T>, t: nat, mv: Move<T>)
    requires |s.slots| > 0
    ensures Run(Unbounded, s, [(t, mv)]) == Next(s, t, mv)
  {
    assert [(t, mv)][..0] == [];
    assert Run(Unbounded, s, []) == s;
  }

  predicate Moving<T>(pc: Pc<T>) {
    !pc.Idle? && !Done(pc)
  }

  /** None of the first `n` accesses ends the operation. */
  ghost predicate Inside<T>(s: State<T>, t: nat, n: nat, residue: T)
    requires |s.slots| > 0 && t < |s.pcs|
  {
    forall j: nat {:trigger After(s, t, j, residue)} :: j < n ==> Moving(After(s, t, j, residue).pcs[t])
  }

  // ---------------------------------------------------------------- one operation

  lemma {:induction false} AfterAfter<T>(s: State<T>, t: nat, m: nat, n: nat, residue: T)
    requires |s.slots| > 0
    ensures After(s, t, m + n, residue) == After(After(s, t, m, residue), t, n, residue)
  {
    hide Step;
    if n > 0 {
      AfterAfter(s, t, m, n - 1, residue);
    }
  }

  lemma InsideInside<T>(s: State<T>, t: nat, m: nat, n: nat, residue: T)
    requires |s.slots| > 0 && t < |s.pcs| && Inside(s, t, m, residue) && Inside(After(s, t, m, residue), t, n, residue)
    ensures Inside(s, t, m + n, residue)
  {
    hide After, Moving;
    forall j: nat | j < m + n
      ensures Moving(After(s, t, j, residue).pcs[t])
    {
      if j >= m {
        AfterAfter(s, t, m, j - m, residue);
      }
    }
  }

  lemma GotoTwice<T>(s: State<T>, t: nat, pc: Pc<T>, pc': Pc<T>)
    requires t < |s.pcs|
    ensures Goto(Goto(s, t, pc), t, pc') == Goto(s, t, pc')
  {
    assert s.pcs[t := pc][t := pc'] == s.pcs[t := pc'];
  }

  lemma OneAccess<T>(s: State<T>, t: nat, residue: T)
    requires |s.slots| > 0 && t < |s.pcs| && Moving(s.pcs[t])
    ensures Inside(s, t, 1, residue) && After(s, t, 1, residue) == Next(s, t, Advance(false, residue))
  {
    hide Step;
    assert After(s, t, 0, residue) == s;
  }

  lemma TwoAccesses<T>(s: State<T>, t: nat, residue: T)
    requires |s.slots| > 0 && t < |s.pcs| && Moving(s.pcs[t]) && Moving(Next(s, t, Advance(false, residue)).pcs[t])
    ensures Inside(s, t, 2, residue)
    ensures After(s, t, 2, residue) == Next(Next(s, t, Advance(false, residue)), t, Advance(false, residue))
  {
    hide Step, After, Inside;
    var s1 := Next(s, t, Advance(false, residue));
    OneAccess(s, t, residue);
    OneAccess(s1, t, residue);
    AfterAfter(s, t, 1, 1, residue);
    InsideInside(s, t, 1, 1, residue);
  }

  lemma Claims<T>(s: State<T>, t: nat, item: T, residue: T)
    requires t < |s.pcs| && |s.slots| > 0 && s.pcs[t] == EnqLoadTail(item) && At(s, s.tail).sequence == s.tail
    ensures Inside(s, t, 3, residue)
    ensures After(s, t, 3, residue)
            == Goto(s, t, EnqWrite(item, s.tail)).(tail := s.tail + 1, pushed := s.pushed + [item])
  {
    hide After, Inside;
    var k := s.tail;
    var s2 := Goto(s, t, EnqCas(item, Attempt(k, k, 1, 0)));
    TwoAccesses(s, t, residue);
    GotoTwice(s, t, EnqLoadSeq(item, Attempt(k, k, 0, 0)), EnqCas(item, Attempt(k, k, 1, 0)));
    GotoTwice(s, t, EnqCas(item, Attempt(k, k, 1, 0)), EnqWrite(item, k));
    OneAccess(s2, t, residue);
    AfterAfter(s, t, 2, 1, residue);
    InsideInside(s, t, 2, 1, residue);
  }

  lemma Publishes<T>(s: State<T>, t: nat, item: T, k: nat, residue: T)
    requires t < |s.pcs| && |s.slots| > 0 && s.pcs[t] == EnqWrite(item, k)
    ensures Inside(s, t, 2, residue)
    ensures After(s, t, 2, residue)
            == Goto(s, t, EnqAccepted(k)).(slots := s.slots[Slot(k, |s.slots|) := Cell(k + 1, item)])
  {
    hide After, Inside;
    TwoAccesses(s, t, residue);
  }

  /** try_enqueue with a free slot. */
  lemma Enqueues<T>(s: State<T>, t: nat, item: T, residue: T)
    requires t < |s.pcs| && |s.slots| > 0 && s.pcs[t] == EnqLoadTail(item) && At(s, s.tail).sequence == s.tail
    ensures Inside(s, t, 5, residue)
    ensures var k := s.tail;
            After(s, t, 5, residue)
            == Goto(s, t, EnqAccepted(k)).(tail := k + 1, pushed := s.pushed + [item],
                                           slots := s.slots[Slot(k, |s.slots|) := Cell(k + 1, item)])
  {
    hide After, Inside;
    var k := s.tail;
    Claims(s, t, item, residue);
    var s3 := Goto(s, t, EnqWrite(item, k)).(tail := k + 1, pushed := s.pushed + [item]);
    Publishes(s3, t, item, k, residue);
    AfterAfter(s, t, 3, 2, residue);
    InsideInside(s, t, 3, 2, residue);
    assert s.pcs[t := EnqWrite(item, k)][t := EnqAccepted(k)] == s.pcs[t := EnqAccepted(k)];
  }

  /** try_enqueue with the slot's last lap unreleased. */
  lemma Refuses<T>(s: State<T>, t: nat, item: T, residue: T)
    requires t < |s.pcs| && |s.slots| > 0 && s.pcs[t] == EnqLoadTail(item) && At(s, s.tail).sequence < s.tail
    ensures Inside(s, t, 2, residue) && After(s, t, 2, residue) == Goto(s, t, EnqFull)
  {
    hide After, Inside;
    TwoAccesses(s, t, residue);
  }

  lemma Wins<T>(s: State<T>, t: nat, residue: T)
    requires t < |s.pcs| && |s.slots| > 0 && s.pcs[t] == DeqLoadHead && At(s, s.head).sequence == s.head + 1
    ensures Inside(s, t, 3, residue)
    ensures After(s, t, 3, residue) == Goto(s, t, DeqRead(s.head)).(head := s.head + 1)
  {
    hide After, Inside;
    var k := s.head;
    var s2 := Goto(s, t, DeqCas(Attempt(k, k, 1, 0)));
    TwoAccesses(s, t, residue);
    GotoTwice(s, t, DeqLoadSeq(Attempt(k, k, 0, 0)), DeqCas(Attempt(k, k, 1, 0)));
    GotoTwice(s, t, DeqCas(Attempt(k, k, 1, 0)), DeqRead(k));
    OneAccess(s2, t, residue);
    AfterAfter(s, t, 2, 1, residue);
    InsideInside(s, t, 2, 1, residue);
  }

  lemma Releases<T>(s: State<T>, t: nat, k: nat, residue: T)
    requires t < |s.pcs| && |s.slots| > 0 && s.pcs[t] == DeqRead(k)
    ensures Inside(s, t, 2, residue)
    ensures var i := Slot(k, |s.slots|);
            var got := s.slots[i].data;
            After(s, t, 2, residue)
            == Goto(s, t, DeqTaken(k, got)).(slots := s.slots[i := Cell(k + |s.slots|, residue)],
                                             taken := s.taken[k := got])
  {
    hide After, Inside;
    TwoAccesses(s, t, residue);
  }

  /** try_dequeue with its item published. */
  lemma Dequeues<T>(s: State<T>, t: nat, residue: T)
    requires t < |s.pcs| && |s.slots| > 0 && s.pcs[t] == DeqLoadHead && At(s, s.head).sequence == s.head + 1
    ensures Inside(s, t, 5, residue)
    ensures var k, i := s.head, Slot(s.head, |s.slots|);
            var got := s.slots[i].data;
            After(s, t, 5, residue)
            == Goto(s, t, DeqTaken(k, got)).(head := k + 1, slots := s.slots[i := Cell(k + |s.slots|, residue)],
                                             taken := s.taken[k := got])
  {
    hide After, Inside;
    var k := s.head;
    Wins(s, t, residue);
    var s3 := Goto(s, t, DeqRead(k)).(head := k + 1);
    Releases(s3, t, k, residue);
    AfterAfter(s, t, 3, 2, residue);
    InsideInside(s, t, 3, 2, residue);
    var taken := DeqTaken(k, s.slots[Slot(k, |s.slots|)].data);
    assert s.pcs[t := DeqRead(k)][t := taken] == s.pcs[t := taken];
  }

  /** try_dequeue with its item not published. */
  lemma FindsNothing<T>(s: State<T>, t: nat, residue: T)
    requires t < |s.pcs| && |s.slots| > 0 && s.pcs[t] == DeqLoadHead && At(s, s.head).sequence <= s.head
    ensures Inside(s, t, 2, residue) && After(s, t, 2, residue) == Goto(s, t, DeqEmpty)
  {
    hide After, Inside;
    TwoAccesses(s, t, residue);
  }

  /** size() */
  lemma Sizes<T>(s: State<T>, t: nat, residue: T)
    requires t < |s.pcs| && |s.slots| > 0 && s.pcs[t] == SizeLoadHead
    ensures Inside(s, t, 2, residue) && After(s, t, 2, residue) == Goto(s, t, SizeDone(s.head, s.tail))
  {
    hide After, Inside;
    TwoAccesses(s, t, residue);
  }

  lemma EntersAndLeaves<T>(s: State<T>, t: nat, op: Op<T>)
    requires |s.slots| > 0 && t < |s.pcs|
    ensures s.pcs[t].Idle? ==> Next(s, t, Begin(op)) == Goto(s, t, Start(op))
    ensures Done(s.pcs[t]) ==> Next(s, t, Return) == Goto(s, t, Idle)
  {
    hide Access;
  }

  /** What the cells hold while no thread is between winning a ticket and its sequence store. */
  lemma StillCells<T>(s: State<T>)
    requires Inv(s) && forall t :: 0 <= t < |s.pcs| ==> !Holds(s.pcs[t])
    ensures s.head < s.tail ==> s.head < |s.pushed| && At(s, s.head) == Cell(s.head + 1, s.pushed[s.head])
    ensures s.tail - s.head < |s.slots| ==> At(s, s.tail).sequence == s.tail
    ensures s.tail - s.head == |s.slots| ==> At(s, s.tail).sequence < s.tail
  {
    NothingLost(s);
    TailSequence(s);
    EnqSequence(s, s.tail);
    if s.tail >= |s.slots| {
      assert !Draining(s, s.tail - |s.slots|);
    }
  }

  // ---------------------------------------------------------------- whole calls

  function Put<T>(t: nat, item: T, residue: T): Schedule<T> {
    [(t, Begin(Enqueue(item)))] + Solo(t, 5, residue) + [(t, Return)]
  }

  function Get<T>(t: nat, residue: T): Schedule<T> {
    [(t, Begin(Dequeue))] + Solo(t, 5, residue) + [(t, Return)]
  }

  lemma RunThree<T>(s: State<T>, t: nat, op: Op<T>, n: nat, residue: T)
    requires |s.slots| > 0 && t < |s.pcs| && s.pcs[t] == Idle
    requires Done(After(Goto(s, t, Start(op)), t, n, residue).pcs[t])
    ensures Run(Unbounded, s, [(t, Begin(op))] + Solo(t, n, residue) + [(t, Return)])
            == Goto(After(Goto(s, t, Start(op)), t, n, residue), t, Idle)
  {
    hide Step, After, Solo;
    EntersAndLeaves(s, t, op);
    RunOne(s, t, Begin(op));
    var s1 := Goto(s, t, Start(op));
    RunSolo(s1, t, n, residue);
    RunAppend(s, [(t, Begin(op))], Solo(t, n, residue));
    var s2 := After(s1, t, n, residue);
    EntersAndLeaves(s2, t, op);
    RunOne(s2, t, Return);
    RunAppend(s, [(t, Begin(op))] + Solo(t, n, residue), [(t, Return)]);
  }

  lemma EnqueuesFrom<T>(s: State<T>, t: nat, item: T, residue: T)
    requires |s.slots| > 0 && t < |s.pcs| && s.pcs[t] == Idle && At(s, s.tail).sequence == s.tail
    ensures var k := s.tail;
            After(Goto(s, t, EnqLoadTail(item)), t, 5, residue)
            == Goto(s, t, EnqAccepted(k)).(tail := k + 1, pushed := s.pushed + [item],
                                           slots := s.slots[Slot(k, |s.slots|) := Cell(k + 1, item)])
  {
    hide Step, After, Inside, Slot;
    Enqueues(Goto(s, t, EnqLoadTail(item)), t, item, residue);
    GotoTwice(s, t, EnqLoadTail(item), EnqAccepted(s.tail));
  }

  lemma Puts<T>(s: State<T>, t: nat, item: T, residue: T)
    requires |s.slots| > 0 && t < |s.pcs| && s.pcs[t] == Idle && At(s, s.tail).sequence == s.tail
    ensures var k := s.tail;
            Run(Unbounded, s, Put(t, item, residue))
            == s.(tail := k + 1, pushed := s.pushed + [item], slots := s.slots[Slot(k, |s.slots|) := Cell(k + 1, item)])
  {
    hide Step, After, Solo, Run, Slot;
    EnqueuesFrom(s, t, item, residue);
    RunThree(s, t, Enqueue(item), 5, residue);
    assert s.pcs[t := EnqAccepted(s.tail)][t := Idle] == s.pcs;
  }

  lemma DequeuesFrom<T>(s: State<T>, t: nat, residue: T)
    requires |s.slots| > 0 && t < |s.pcs| && s.pcs[t] == Idle && At(s, s.head).sequence == s.head + 1
    ensures var k, i := s.head, Slot(s.head, |s.slots|);
            var got := s.slots[i].data;
            After(Goto(s, t, DeqLoadHead), t, 5, residue)
            == Goto(s, t, DeqTaken(k, got)).(head := k + 1, slots := s.slots[i := Cell(k + |s.slots|, residue)],
                                             taken := s.taken[k := got])
  {
    hide Step, After, Inside, Slot;
    Dequeues(Goto(s, t, DeqLoadHead), t, residue);
    GotoTwice(s, t, DeqLoadHead, DeqTaken(s.head, s.slots[Slot(s.head, |s.slots|)].data));
  }

  lemma Gets<T>(s: State<T>, t: nat, residue: T)
    requires |s.slots| > 0 && t < |s.pcs| && s.pcs[t] == Idle && At(s, s.head).sequence == s.head + 1
    ensures var k, i := s.head, Slot(s.head, |s.slots|);
            Run(Unbounded, s, Get(t, residue))
            == s.(head := k + 1, slots := s.slots[i := Cell(k + |s.slots|, residue)],
                  taken := s.taken[k := s.slots[i].data])
  {
    hide Step, After, Solo, Run, Slot;
    DequeuesFrom(s, t, residue);
    RunThree(s, t, Dequeue, 5, residue);
    assert s.pcs[t := DeqTaken(s.head, s.slots[Slot(s.head, |s.slots|)].data)][t := Idle] == s.pcs;
  }

  // ---------------------------------------------------------------- full and empty in spite of the counters

  function Fill<T>(t: nat, item: T, n: nat): Schedule<T> {
    if n == 0 then [] else Fill(t, item, n - 1) + Put(t, item, item)
  }

  lemma {:induction false} Fills<T>(capacity: nat, threads: nat, item: T, n: nat)
    requires n <= capacity && capacity > 0 && threads > 0
    ensures var s := Run(Unbounded, Init(capacity, threads, item), Fill(0, item, n));
            && s.head == 0 && s.tail == n && s.pcs == Init(capacity, threads, item).pcs
            && forall e :: 0 <= e < capacity ==> s.slots[e].sequence == if e < n then e + 1 else e
  {
    hide Put;
    if n == 0 {
      assert Run(Unbounded, Init(capacity, threads, item), []) == Init(capacity, threads, item);
    } else {
      Fills(capacity, threads, item, n - 1);
      var s := Run(Unbounded, Init(capacity, threads, item), Fill(0, item, n - 1));
      Puts(s, 0, item, item);
      RunAppend(Init(capacity, threads, item), Fill(0, item, n - 1), Put(0, item, item));
    }
  }

  /** Thread 0 fills the queue, and thread 1 claims the oldest item and stops. */
  function FilledAndClaimed<T>(capacity: nat, item: T): Schedule<T> {
    Fill(0, item, capacity) + [(1, Begin(Dequeue))] + Solo(1, 3, item)
  }

  /** A call up to its decision, by thread `t` alone. */
  function Attempted<T>(t: nat, op: Op<T>, item: T): (call: Schedule<T>)
    ensures forall i :: 0 <= i < |call| ==> call[i].0 == t
  {
    [(t, Begin(op))] + Solo(t, 2, item)
  }

  /** A call of try_enqueue can come out full although one of the cells counts as free by `head_` and
      `tail_` during the whole call: a dequeuer has claimed the oldest item and not released its cell. */
  lemma FullWithACellFree<T>(capacity: nat, item: T)
    requires capacity >= 2
    ensures var s := Run(Unbounded, Init(capacity, 2, item), FilledAndClaimed(capacity, item));
            var s' := Run(Unbounded, s, Attempted(0, Enqueue(item), item));
            && s.pcs[0] == Idle && s.tail - s.head == capacity - 1
            && s'.pcs[0] == EnqFull && s'.tail - s'.head == capacity - 1
  {
    hide Step, After, Run, Solo, Put, Fill;
    var s0 := Init(capacity, 2, item);
    Fills(capacity, 2, item, capacity);
    var s1 := Run(Unbounded, s0, Fill(0, item, capacity));
    var s2 := Goto(s1, 1, DeqLoadHead);
    EntersAndLeaves(s1, 1, Dequeue);
    RunOne(s1, 1, Begin(Dequeue));
    RunAppend(s0, Fill(0, item, capacity), [(1, Begin(Dequeue))]);
    Wins(s2, 1, item);
    RunSolo(s2, 1, 3, item);
    RunAppend(s0, Fill(0, item, capacity) + [(1, Begin(Dequeue))], Solo(1, 3, item));
    var s3 := Goto(s2, 1, DeqRead(0)).(head := 1);
    var s4 := Goto(s3, 0, EnqLoadTail(item));
    EntersAndLeaves(s3, 0, Enqueue(item));
    RunOne(s3, 0, Begin(Enqueue(item)));
    assert Slot(capacity, capacity) == Slot(0, capacity) == 0;
    Refuses(s4, 0, item, item);
    RunSolo(s4, 0, 2, item);
    RunAppend(s3, [(0, Begin(Enqueue(item)))], Solo(0, 2, item));
  }

  /** Thread 0 claims ticket 0 and stops; thread 2 puts an item in and returns. */
  function ClaimedAndPut<T>(item: T): Schedule<T> {
    [(0, Begin(Enqueue(item)))] + Solo(0, 3, item) + Put(2, item, item)
  }

  /** A call of try_dequeue can come out empty although an item that was accepted before is in the queue
      during the whole call: the one ahead of it is claimed and not published. */
  lemma EmptyWithAnItemAccepted<T>(capacity: nat, item: T)
    requires capacity >= 2
    ensures var s := Run(Unbounded, Init(capacity, 3, item), ClaimedAndPut(item));
            var s' := Run(Unbounded, s, Attempted(1, Dequeue, item));
            && s.pcs[1] == Idle && s.pcs[2] == Idle && s.head == 0 && s.tail == 2 && At(s, 1) == Cell(2, item)
            && s'.pcs[1] == DeqEmpty && s'.head == 0 && s'.tail == 2 && At(s', 1) == Cell(2, item)
  {
    hide Step, After, Run, Solo, Put;
    var s0 := Init(capacity, 3, item);
    var s1 := Goto(s0, 0, EnqLoadTail(item));
    EntersAndLeaves(s0, 0, Enqueue(item));
    RunOne(s0, 0, Begin(Enqueue(item)));
    Claims(s1, 0, item, item);
    RunSolo(s1, 0, 3, item);
    RunAppend(s0, [(0, Begin(Enqueue(item)))], Solo(0, 3, item));
    var s2 := Goto(s1, 0, EnqWrite(item, 0)).(tail := 1, pushed := [] + [item]);
    Puts(s2, 2, item, item);
    RunAppend(s0, [(0, Begin(Enqueue(item)))] + Solo(0, 3, item), Put(2, item, item));
    assert Slot(1, capacity) == 1;
    var s3 := s2.(tail := 2, pushed := [] + [item] + [item], slots := s2.slots[1 := Cell(2, item)]);
    assert Run(Unbounded, s0, ClaimedAndPut(item)) == s3;
    var s4 := Goto(s3, 1, DeqLoadHead);
    EntersAndLeaves(s3, 1, Dequeue);
    RunOne(s3, 1, Begin(Dequeue));
    FindsNothing(s4, 1, item);
    RunSolo(s4, 1, 2, item);
    RunAppend(s3, [(1, Begin(Dequeue))], Solo(1, 2, item));
  }

  // ---------------------------------------------------------------- any number of retries

  /** The queue is empty after `n` items went through it, and thread 0 is about to claim ticket `n` in its
      pass `n + 1` of one call. */
  ghost predicate Racing<T>(s: State<T>, item: T, n: nat) {
    && |s.slots| > 0 && s.head == s.tail == n
    && s.pcs == [EnqCas(item, Attempt(n, 0, n + 1, 0)), Idle]
    && forall e: nat :: n <= e < n + |s.slots| ==> At(s, e).sequence == e
  }

  /** Thread 1 puts one item in and takes it out. */
  lemma Passes<T>(s: State<T>, item: T, n: nat)
    requires Racing(s, item, n) && |s.slots| >= 2
    ensures var s' := Run(Unbounded, s, Put(1, item, item) + Get(1, item));
            && |s'.slots| == |s.slots| && s'.head == s'.tail == n + 1 && s'.pcs == s.pcs
            && forall e: nat :: n + 1 <= e < n + 1 + |s.slots| ==> At(s', e).sequence == e
  {
    hide Put, Get, Run;
    Puts(s, 1, item, item);
    var i, capacity := Slot(n, |s.slots|), |s.slots|;
    var s1 := s.(tail := n + 1, pushed := s.pushed + [item], slots := s.slots[i := Cell(n + 1, item)]);
    Gets(s1, 1, item);
    RunAppend(s, Put(1, item, item), Get(1, item));
    var s' := Run(Unbounded, s, Put(1, item, item) + Get(1, item));
    assert Slot(n + capacity, capacity) == i;
    OneLap(capacity, n, n);
    assert s'.slots == s.slots[i := Cell(n + capacity, item)];
    forall e: nat | n + 1 <= e < n + 1 + capacity
      ensures At(s', e).sequence == e
    {
      if e < n + capacity {
        assert Slot(e, capacity) != i;
        assert At(s', e) == At(s, e);
      }
    }
  }

  /** The compare-exchange of thread 0 finds a new value, and its next pass begins. */
  lemma Retries<T>(s: State<T>, item: T, n: nat)
    requires |s.slots| > 0 && s.head == s.tail == n + 1 && s.pcs == [EnqCas(item, Attempt(n, 0, n + 1, 0)), Idle]
    requires forall e: nat :: n + 1 <= e < n + 1 + |s.slots| ==> At(s, e).sequence == e
    ensures Racing(After(s, 0, 2, item), item, n + 1)
  {
    hide After, Inside, Slot;
    TwoAccesses(s, 0, item);
    var s1 := Goto(s, 0, EnqLoadSeq(item, Attempt(n + 1, 0, n + 1, 0)));
    assert Next(s, 0, Advance(false, item)) == s1;
    assert At(s, n + 1).sequence == n + 1;
    var s2 := Next(s1, 0, Advance(false, item));
    assert s2.pcs == [EnqCas(item, Attempt(n + 1, 0, n + 2, 0)), Idle] && s2.slots == s.slots;
    assert forall e :: At(s2, e) == At(s, e);
  }

  /** There is no bound on the passes of one call of try_enqueue, even without a spurious failure. */
  lemma {:induction false} UnboundedRetries<T>(capacity: nat, item: T, n: nat) returns (moves: Schedule<T>)
    requires capacity >= 2
    ensures var s := Run(Unbounded, Init(capacity, 2, item), moves);
            && |s.slots| == capacity && Racing(s, item, n)
            && s.pcs[0].EnqCas? && s.pcs[0].at.passes == n + 1 && s.pcs[0].at.spurious == 0
  {
    hide Step, After, Solo, Put, Get;
    var s0 := Init(capacity, 2, item);
    if n == 0 {
      moves := [(0, Begin(Enqueue(item)))] + Solo(0, 2, item);
      EntersAndLeaves(s0, 0, Enqueue(item));
      RunOne(s0, 0, Begin(Enqueue(item)));
      var s1 := Goto(s0, 0, EnqLoadTail(item));
      FirstPass(s1, item);
      RunSolo(s1, 0, 2, item);
      RunAppend(s0, [(0, Begin(Enqueue(item)))], Solo(0, 2, item));
      assert forall e: nat :: e < capacity ==> At(s0, e).sequence == e;
    } else {
      var front := UnboundedRetries(capacity, item, n - 1);
      var s := Run(Unbounded, s0, front);
      Passes(s, item, n - 1);
      var s1 := Run(Unbounded, s, Put(1, item, item) + Get(1, item));
      Retries(s1, item, n - 1);
      RunSolo(s1, 0, 2, item);
      RunAppend(s0, front, Put(1, item, item) + Get(1, item));
      RunAppend(s0, front + (Put(1, item, item) + Get(1, item)), Solo(0, 2, item));
      moves := front + (Put(1, item, item) + Get(1, item)) + Solo(0, 2, item);
    }
  }

  lemma FirstPass<T>(s: State<T>, item: T)
    requires |s.slots| > 0 && s.tail == 0 && |s.pcs| > 0 && s.pcs[0] == EnqLoadTail(item) && At(s, 0).sequence == 0
    ensures After(s, 0, 2, item) == Goto(s, 0, EnqCas(item, Attempt(0, 0, 1, 0)))
  {
    hide After, Inside;
    TwoAccesses(s, 0, item);
  }
}
