/** What the lock-free ring buffer guarantees, in every reachable state and over whole runs. */
module QueueTheorems {
  import opened RingArithmetic
  import opened QueueMachine
  import opened QueueInvariant

  lemma InitInv<T>(capacity: nat, threads: nat, blank: T)
    requires capacity >= 2
    ensures Inv(Init(capacity, threads, blank))
  {
    var s := Init(capacity, threads, blank);
    assert forall e: nat :: e < capacity ==> At(s, e) == s.slots[e];
  }

  /** The invariant holds after any schedule of any number of threads. */
  lemma {:induction false} RunKeepsInv<T>(s: State<T>, moves: Schedule<T>)
    requires Inv(s)
    ensures Inv(Run(Unbounded, s, moves))
  {
    if moves != [] {
      var last := |moves| - 1;
      RunKeepsInv(s, moves[..last]);
      StepKeepsInv(Run(Unbounded, s, moves[..last]), moves[last].0, moves[last].1);
    }
  }

  lemma {:induction false} RunAppend<T>(s: State<T>, a: Schedule<T>, b: Schedule<T>)
    requires |s.slots| > 0
    ensures Run(Unbounded, s, a + b) == Run(Unbounded, Run(Unbounded, s, a), b)
  {
    if b == [] {
      assert a + b == a;
    } else {
      var last := |b| - 1;
      assert (a + b)[..|a + b| - 1] == a + b[..last];
      RunAppend(s, a, b[..last]);
    }
  }

  // ---------------------------------------------------------------- linearization to a bounded FIFO

  /** The effect of a step on the abstract queue: an item goes in, an item comes out, or nothing. */
  datatype Label<T> = Silent | Put(item: T) | Get(item: T)

  ghost function Fifo<T>(capacity: nat, queue: seq<T>, effect: Label<T>): Option<seq<T>> {
    match effect
    case Silent => Some(queue)
    case Put(x) => if |queue| < capacity then Some(queue + [x]) else None
    case Get(x) => if queue != [] && queue[0] == x then Some(queue[1..]) else None
  }

  ghost function FifoRun<T>(capacity: nat, labels: seq<Label<T>>): Option<seq<T>> {
    if labels == [] then Some([])
    else
      var last := |labels| - 1;
      match FifoRun(capacity, labels[..last])
      case None => None
      case Some(queue) => Fifo(capacity, queue, labels[last])
  }

  /** Operations take effect at their winning compare-exchange. */
  function LabelOf<T>(s: State<T>, t: nat, mv: Move<T>): Label<T> {
    if t < |s.pcs| && mv.Advance? && !mv.spurious then
      var pc := s.pcs[t];
      if pc.EnqCas? && s.tail == pc.at.index then Put(pc.item)
      else if pc.DeqCas? && s.head == pc.at.index && s.head < |s.pushed| then Get(s.pushed[s.head])
      else Silent
    else Silent
  }

  function Trace<T>(s: State<T>, moves: Schedule<T>): (labels: seq<Label<T>>)
    requires |s.slots| > 0
    ensures |labels| == |moves|
  {
    if moves == [] then []
    else
      var last := |moves| - 1;
      Trace(s, moves[..last]) + [LabelOf(Run(Unbounded, s, moves[..last]), moves[last].0, moves[last].1)]
  }

  /** The items in the queue, oldest first. */
  function Contents<T>(s: State<T>): seq<T>
    requires s.head <= |s.pushed|
  {
    s.pushed[s.head..]
  }

  /** What a winning compare-exchange on either counter finds. */
  lemma WinnersFind<T>(s: State<T>, t: nat)
    requires Inv(s) && t < |s.pcs|
    ensures s.head <= s.tail == |s.pushed|
    ensures s.pcs[t].EnqCas? && s.tail == s.pcs[t].at.index ==> s.tail < s.head + |s.slots|
    ensures s.pcs[t].DeqCas? && s.head == s.pcs[t].at.index ==> s.head < s.tail
  {
    assert PcOk(s, s.pcs[t]);
    EnqSequence(s, s.tail);
    DeqSequence(s, s.head);
  }

  /** One step of the ring is one step of the bounded FIFO. */
  lemma StepRefinesFifo<T>(s: State<T>, t: nat, mv: Move<T>)
    requires Inv(s)
    ensures Inv(Next(s, t, mv))
    ensures Fifo(|s.slots|, Contents(s), LabelOf(s, t, mv)) == Some(Contents(Next(s, t, mv)))
  {
    hide Inv;
    StepKeepsInv(s, t, mv);
    HeadWithinPushed(s);
    HeadWithinPushed(Next(s, t, mv));
    if t < |s.pcs| {
      WinnersFind(s, t);
      var s' := Next(s, t, mv);
      match LabelOf(s, t, mv)
      case Put(x) => assert Contents(s') == Contents(s) + [x];
      case Get(x) => assert Contents(s') == Contents(s)[1..];
      case Silent => assert s'.pushed == s.pushed && s'.head == s.head;
    }
  }

  lemma HeadWithinPushed<T>(s: State<T>)
    requires Inv(s)
    ensures s.head <= |s.pushed| && |s.slots| > 0
  {
  }

  lemma Reached<T>(capacity: nat, threads: nat, blank: T, moves: Schedule<T>)
    requires capacity >= 2
    ensures Inv(Run(Unbounded, Init(capacity, threads, blank), moves))
  {
    InitInv(capacity, threads, blank);
    RunKeepsInv(Init(capacity, threads, blank), moves);
  }

  /** In every reachable state: the dequeuer that won ticket `k` hands out what the enqueuer that won
      ticket `k` put in. */
  lemma ResultsAreFifo<T>(capacity: nat, threads: nat, blank: T, moves: Schedule<T>)
    requires capacity >= 2
    ensures var s := Run(Unbounded, Init(capacity, threads, blank), moves);
            && (forall k :: k in s.taken ==> k < s.head <= |s.pushed| && s.taken[k] == s.pushed[k])
            && (forall t :: 0 <= t < |s.pcs| && s.pcs[t].DeqTaken? ==>
                  s.pcs[t].ticket < s.head <= |s.pushed| && s.pcs[t].got == s.pushed[s.pcs[t].ticket])
  {
    Reached(capacity, threads, blank, moves);
    var s := Run(Unbounded, Init(capacity, threads, blank), moves);
    assert forall t :: 0 <= t < |s.pcs| ==> PcOk(s, s.pcs[t]);
  }

  /** The items of the puts, in order. */
  function Puts<T>(labels: seq<Label<T>>): seq<T> {
    if labels == [] then []
    else
      var last := |labels| - 1;
      Puts(labels[..last]) + if labels[last].Put? then [labels[last].item] else []
  }

  /** The items of the gets, in order. */
  function Gets<T>(labels: seq<Label<T>>): seq<T> {
    if labels == [] then []
    else
      var last := |labels| - 1;
      Gets(labels[..last]) + if labels[last].Get? then [labels[last].item] else []
  }

  lemma {:induction false} TraceHistory<T>(capacity: nat, threads: nat, blank: T, moves: Schedule<T>)
    requires capacity >= 2
    ensures var s0 := Init(capacity, threads, blank);
            var s, trace := Run(Unbounded, s0, moves), Trace(s0, moves);
            Inv(s) && s.head <= |s.pushed| && Puts(trace) == s.pushed && Gets(trace) == s.pushed[..s.head]
  {
    hide Inv, Step;
    var s0 := Init(capacity, threads, blank);
    Reached(capacity, threads, blank, moves);
    HeadWithinPushed(Run(Unbounded, s0, moves));
    if moves != [] {
      var last := |moves| - 1;
      var s := Run(Unbounded, s0, moves[..last]);
      TraceHistory(capacity, threads, blank, moves[..last]);
      StepCounters(s, moves[last].0, moves[last].1);
      assert Trace(s0, moves)[..last] == Trace(s0, moves[..last]);
    }
  }

  /** For any number of producers and consumers, the successful operations of a run, in the order of their
      compare-exchanges, are a run of a bounded FIFO that ends with the ring's contents. The `k`-th put is the
      item of the enqueuer that claimed ticket `k`, and the `k`-th get is what the dequeuer of ticket `k` returns. */
  lemma Linearizes<T>(capacity: nat, threads: nat, blank: T, moves: Schedule<T>)
    requires capacity >= 2
    ensures var s0 := Init(capacity, threads, blank);
            var s, trace := Run(Unbounded, s0, moves), Trace(s0, moves);
            && Inv(s)
            && FifoRun(capacity, trace) == Some(Contents(s))
            && |Contents(s)| == s.tail - s.head <= capacity
            && Puts(trace) == s.pushed && |Gets(trace)| == s.head
            && (forall k :: k in s.taken ==> k < s.head && s.taken[k] == Gets(trace)[k])
            && (forall t :: 0 <= t < |s.pcs| && s.pcs[t].DeqTaken? ==>
                  s.pcs[t].ticket < s.head && s.pcs[t].got == Gets(trace)[s.pcs[t].ticket])
  {
    hide Run, Init, FifoRun, Puts, Trace;
    TraceHistory(capacity, threads, blank, moves);
    ResultsAreFifo(capacity, threads, blank, moves);
    TraceIsFifoRun(capacity, threads, blank, moves);
  }

  lemma {:induction false} TraceIsFifoRun<T>(capacity: nat, threads: nat, blank: T, moves: Schedule<T>)
    requires capacity >= 2
    ensures var s := Run(Unbounded, Init(capacity, threads, blank), moves);
            && Inv(s)
            && FifoRun(capacity, Trace(Init(capacity, threads, blank), moves)) == Some(Contents(s))
            && |Contents(s)| == s.tail - s.head <= capacity
  {
    var s0 := Init(capacity, threads, blank);
    InitInv(capacity, threads, blank);
    if moves != [] {
      var last := |moves| - 1;
      TraceIsFifoRun(capacity, threads, blank, moves[..last]);
      StepRefinesFifo(Run(Unbounded, s0, moves[..last]), moves[last].0, moves[last].1);
      assert Trace(s0, moves)[..last] == Trace(s0, moves[..last]);
    }
  }

  /** The step releases ticket `k` and hands its item over. */
  predicate Delivers<T>(s: State<T>, t: nat, mv: Move<T>, k: nat) {
    t < |s.pcs| && mv.Advance? && s.pcs[t].DeqRelease? && s.pcs[t].ticket == k
  }

  lemma StepDelivers<T>(s: State<T>, t: nat, mv: Move<T>, k: nat)
    requires Inv(s)
    ensures Delivers(s, t, mv, k) ==> k !in s.taken
    ensures k in Next(s, t, mv).taken <==> k in s.taken || Delivers(s, t, mv, k)
    ensures k in s.taken ==> Next(s, t, mv).taken[k] == s.taken[k]
  {
    if Delivers(s, t, mv, k) {
      assert Drains(s.pcs[t], k);
    }
    if t < |s.pcs| && s.pcs[t].DeqRelease? {
      assert Drains(s.pcs[t], s.pcs[t].ticket);
    }
  }

  /** How often ticket `k` is handed over in a run. */
  function Deliveries<T>(s: State<T>, moves: Schedule<T>, k: nat): nat
    requires |s.slots| > 0
  {
    if moves == [] then 0
    else
      var last := |moves| - 1;
      Deliveries(s, moves[..last], k)
        + if Delivers(Run(Unbounded, s, moves[..last]), moves[last].0, moves[last].1, k) then 1 else 0
  }

  /** In every run a ticket's item is handed over at most once, and once it is, that is final. */
  lemma {:induction false} DeliveredOnce<T>(s: State<T>, moves: Schedule<T>, k: nat)
    requires Inv(s)
    ensures var s' := Run(Unbounded, s, moves);
            && Deliveries(s, moves, k) + (if k in s.taken then 1 else 0) == (if k in s'.taken then 1 else 0)
            && (k in s.taken ==> s'.taken[k] == s.taken[k])
  {
    hide Delivers, Inv;
    NotEmpty(s);
    if moves != [] {
      var last := |moves| - 1;
      DeliveredOnce(s, moves[..last], k);
      RunKeepsInv(s, moves[..last]);
      StepDelivers(Run(Unbounded, s, moves[..last]), moves[last].0, moves[last].1, k);
    }
  }

  lemma NotEmpty<T>(s: State<T>)
    requires Inv(s)
    ensures |s.slots| > 0
  {
  }

  /** When no operation is under way, exactly the items below `head_` were handed out. */
  lemma NothingLost<T>(s: State<T>)
    requires Inv(s) && forall t :: 0 <= t < |s.pcs| ==> !Holds(s.pcs[t])
    ensures forall k: nat :: k in s.taken <==> k < s.head
    ensures forall k: nat :: k < s.head ==> s.taken[k] == s.pushed[k]
    ensures forall e: nat :: s.head <= e < s.tail ==> At(s, e) == Cell(e + 1, s.pushed[e])
  {
    forall e: nat
      ensures !Draining(s, e) && !Filling(s, e)
    {
    }
    forall e: nat | s.head <= e < s.tail
      ensures At(s, e) == Cell(e + 1, s.pushed[e])
    {
      assert LiveCell(s, e);
    }
  }

  // ---------------------------------------------------------------- ownership

  /** A step writes no cell but that of the ticket which its thread holds. */
  lemma WritesOwnCell<T>(s: State<T>, u: nat, mv: Move<T>, i: nat)
    requires |s.slots| > 0 && i < |s.slots| && u < |s.pcs|
    requires Holds(s.pcs[u]) ==> Slot(s.pcs[u].ticket, |s.slots|) != i
    ensures Next(s, u, mv).slots[i] == s.slots[i]
    ensures forall t :: 0 <= t < |s.pcs| && t != u ==> Next(s, u, mv).pcs[t] == s.pcs[t]
  {
  }

  /** From its winning compare-exchange to its sequence store, a thread's cell is read and written by
      no other thread. */
  lemma OwnershipIsExclusive<T>(s: State<T>, t: nat, u: nat, mv: Move<T>)
    requires Inv(s) && t < |s.pcs| && u < |s.pcs| && t != u && Holds(s.pcs[t])
    ensures var mine := Slot(s.pcs[t].ticket, |s.slots|);
            && (Holds(s.pcs[u]) ==> Slot(s.pcs[u].ticket, |s.slots|) != mine)
            && Next(s, u, mv).slots[mine] == s.slots[mine]
            && Next(s, u, mv).pcs[t] == s.pcs[t]
  {
    ForeignCell(s, t, u);
    WritesOwnCell(s, u, mv, Slot(s.pcs[t].ticket, |s.slots|));
  }

  // ---------------------------------------------------------------- what a failure says

  /** The ticket a lap before `tail_` still keeps its cell: its item is queued, or being moved out. */
  ghost predicate LapUnreleased<T>(s: State<T>) {
    s.tail >= |s.slots| && (s.head <= s.tail - |s.slots| || Draining(s, s.tail - |s.slots|))
  }

  /** The cell of the next ticket to claim is behind exactly when it is not released from the lap before. */
  lemma TailSequence<T>(s: State<T>)
    requires Inv(s)
    ensures At(s, s.tail).sequence < s.tail <==> LapUnreleased(s)
  {
    var k := s.tail;
    if k >= |s.slots| {
      var e := k - |s.slots|;
      assert At(s, k) == At(s, e);
      if s.head <= e { assert LiveCell(s, e); } else { assert FreeCell(s, k); }
      if u :| 0 <= u < |s.pcs| && Drains(s.pcs[u], e) { assert PcOk(s, s.pcs[u]); }
    } else {
      assert FreeCell(s, k);
    }
  }

  /** try_enqueue gives up exactly when its index is current and the cell of the ticket a lap
      earlier has not been released. */
  lemma EnqueueFails<T>(s: State<T>, t: nat, spurious: bool, residue: T)
    requires Inv(s) && t < |s.pcs| && s.pcs[t].EnqLoadSeq?
    ensures Next(s, t, Advance(spurious, residue)).pcs[t].EnqFull?
            <==> s.pcs[t].at.index == s.tail && LapUnreleased(s)
  {
    hide LapUnreleased, Slot, Window, Exclusive, Accounted, Delivered;
    assert PcOk(s, s.pcs[t]);
    EnqSequence(s, s.pcs[t].at.index);
    TailSequence(s);
  }

  /** try_dequeue gives up exactly when its index is current and the queue is empty or the item of
      that ticket is claimed and not yet published. */
  lemma DequeueFails<T>(s: State<T>, t: nat, spurious: bool, residue: T)
    requires Inv(s) && t < |s.pcs| && s.pcs[t].DeqLoadSeq?
    ensures Next(s, t, Advance(spurious, residue)).pcs[t].DeqEmpty?
            <==> s.pcs[t].at.index == s.head && (s.head == s.tail || Filling(s, s.head))
  {
    var k := s.pcs[t].at.index;
    assert PcOk(s, s.pcs[t]);
    DeqSequence(s, k);
    if k == s.head {
      if k < s.tail { assert LiveCell(s, k); } else { assert FreeCell(s, k); }
      if u :| 0 <= u < |s.pcs| && Fills(s.pcs[u], k) { assert PcOk(s, s.pcs[u]); }
    }
  }

  /** With no other operation inside its critical window, the failures mean full and empty. */
  lemma FailureAlone<T>(s: State<T>, t: nat, spurious: bool, residue: T)
    requires Inv(s) && t < |s.pcs| && forall u :: 0 <= u < |s.pcs| && u != t ==> !Holds(s.pcs[u])
    ensures s.pcs[t].EnqLoadSeq? ==>
              (Next(s, t, Advance(spurious, residue)).pcs[t].EnqFull?
               <==> s.pcs[t].at.index == s.tail && s.tail - s.head == |s.slots|)
    ensures s.pcs[t].DeqLoadSeq? ==>
              (Next(s, t, Advance(spurious, residue)).pcs[t].DeqEmpty?
               <==> s.pcs[t].at.index == s.head && s.head == s.tail)
  {
    if !Holds(s.pcs[t]) {
      assert forall e :: !Filling(s, e) && !Draining(s, e);
    }
    if s.pcs[t].EnqLoadSeq? { EnqueueFails(s, t, spurious, residue); }
    if s.pcs[t].DeqLoadSeq? { DequeueFails(s, t, spurious, residue); }
  }

  // ---------------------------------------------------------------- progress

  /** In every reachable state: the passes of a retry loop so far are at most one, plus the shared
      counter's advance since the operation's first load, plus its spurious compare-exchange failures. */
  lemma PassesBounded<T>(capacity: nat, threads: nat, blank: T, moves: Schedule<T>, t: nat)
    requires capacity >= 2 && t < threads
    ensures var s := Run(Unbounded, Init(capacity, threads, blank), moves);
            var pc := s.pcs[t];
            && (pc.EnqLoadSeq? || pc.EnqCas? || pc.EnqReload? ==>
                  pc.at.index <= s.tail && pc.at.passes <= 1 + (s.tail - pc.at.start) + pc.at.spurious)
            && (pc.DeqLoadSeq? || pc.DeqCas? || pc.DeqReload? ==>
                  pc.at.index <= s.head && pc.at.passes <= 1 + (s.head - pc.at.start) + pc.at.spurious)
  {
    Reached(capacity, threads, blank, moves);
    var s := Run(Unbounded, Init(capacity, threads, blank), moves);
    assert PcOk(s, s.pcs[t]);
  }

  /** In every reachable state: a pass that ends in another pass has a strictly larger index, or was spurious. */
  lemma RetryAdvances<T>(capacity: nat, threads: nat, blank: T, moves: Schedule<T>, t: nat, spurious: bool, residue: T)
    requires capacity >= 2 && t < threads
    ensures var s := Run(Unbounded, Init(capacity, threads, blank), moves);
            var pc, pc' := s.pcs[t], Next(s, t, Advance(spurious, residue)).pcs[t];
            (pc.EnqCas? || pc.EnqReload? || pc.DeqCas? || pc.DeqReload?) && (pc'.EnqLoadSeq? || pc'.DeqLoadSeq?) ==>
              pc'.at.index > pc.at.index || (pc'.at.index == pc.at.index && pc'.at.spurious == pc.at.spurious + 1)
  {
    Reached(capacity, threads, blank, moves);
    var s := Run(Unbounded, Init(capacity, threads, blank), moves);
    assert PcOk(s, s.pcs[t]);
  }

  // ---------------------------------------------------------------- size() and empty()

  /** A step moves `tail_` exactly when it enters the enqueuer's window, and likewise `head_`. */
  lemma StepCounters<T>(s: State<T>, t: nat, mv: Move<T>)
    requires Inv(s)
    ensures var s', effect := Next(s, t, mv), LabelOf(s, t, mv);
            && s'.tail == s.tail + (if effect.Put? then 1 else 0)
            && s'.head == s.head + (if effect.Get? then 1 else 0)
            && s'.pushed == s.pushed + (if effect.Put? then [effect.item] else [])
  {
    if t < |s.pcs| && s.pcs[t].DeqCas? && s.head == s.pcs[t].at.index {
      assert PcOk(s, s.pcs[t]);
      DeqSequence(s, s.head);
    }
  }

  lemma {:induction false} CountersGrow<T>(s: State<T>, moves: Schedule<T>)
    requires Inv(s)
    ensures var s' := Run(Unbounded, s, moves);
            Inv(s') && s.head <= s'.head && s.tail <= s'.tail && s.pushed <= s'.pushed
  {
    if moves != [] {
      var last := |moves| - 1;
      CountersGrow(s, moves[..last]);
      StepKeepsInv(Run(Unbounded, s, moves[..last]), moves[last].0, moves[last].1);
      StepCounters(Run(Unbounded, s, moves[..last]), moves[last].0, moves[last].1);
    }
  }

  /** size() loads `head_` in state `s` and `tail_` later. At every instant in between its result is
      at least the number of items; a zero says that the queue was empty and that no ticket was
      claimed from one load to the other. */
  lemma SizeBounds<T>(s: State<T>, before: Schedule<T>, after: Schedule<T>)
    requires Inv(s)
    ensures var now := Run(Unbounded, s, before);
            var end := Run(Unbounded, now, after);
            var size := SizeResult(s.head, end.tail);
            && size == end.tail - s.head
            && size - (now.tail - now.head) == (end.tail - now.tail) + (now.head - s.head) >= 0
            && (size == 0 ==> now.head == now.tail && s.tail == end.tail)
  {
    CountersGrow(s, before);
    CountersGrow(Run(Unbounded, s, before), after);
  }

  // ---------------------------------------------------------------- 64-bit words

  lemma LoadOnWords<T>(s: State<T>, k: nat)
    requires Inv(s) && ValidCapacity(|s.slots|) && s.tail + |s.slots| <= HALF && k <= s.tail
    ensures var sequence := At(s, k).sequence;
            && Word64.Index(k, |s.slots|) == Slot(k, |s.slots|)
            && Word64.Add(k, 1) == k + 1
            && Word64.Diff(sequence, k) == sequence - k
            && Word64.Diff(sequence, k + 1) == sequence - (k + 1)
  {
    var e := WindowTicket(s, k);
    assert At(s, e) == At(s, k) && if e < s.tail then LiveCell(s, e) else FreeCell(s, e);
    WordsAgree(k, 1, |s.slots|);
    WordsAgree(At(s, k).sequence, k, |s.slots|);
    WordsAgree(At(s, k).sequence, k + 1, |s.slots|);
  }

  lemma StepOnWords<T>(s: State<T>, t: nat, mv: Move<T>)
    requires Inv(s) && ValidCapacity(|s.slots|) && s.tail + |s.slots| <= HALF
    ensures Step(Word64, s, t, mv) == Next(s, t, mv)
  {
    hide BitAnd, Slot, Signed, Exclusive, Accounted, Delivered, Window;
    if t < |s.pcs| && mv.Advance? {
      var pc := s.pcs[t];
      assert PcOk(s, pc);
      if pc.EnqLoadSeq? || pc.DeqLoadSeq? {
        LoadOnWords(s, pc.at.index);
      } else if pc.EnqCas? || pc.DeqCas? {
        WordsAgree(pc.at.index, 1, |s.slots|);
      } else if Holds(pc) {
        WordsAgree(pc.ticket, 1, |s.slots|);
        WordsAgree(pc.ticket, |s.slots|, |s.slots|);
      }
    }
  }

  lemma StepTail<T>(s: State<T>, t: nat, mv: Move<T>)
    requires Inv(s)
    ensures s.tail <= Next(s, t, mv).tail
  {
    StepCounters(s, t, mv);
  }

  /** As long as the run's tickets stay below 2^63, the code's 64-bit arithmetic (masked index,
      wrapping increments, signed differences) computes exactly the run with unbounded counters. */
  lemma {:induction false} RunOnWords<T>(capacity: nat, threads: nat, blank: T, moves: Schedule<T>)
    requires ValidCapacity(capacity)
    requires Run(Unbounded, Init(capacity, threads, blank), moves).tail + capacity <= HALF
    ensures Run(Word64, Init(capacity, threads, blank), moves) == Run(Unbounded, Init(capacity, threads, blank), moves)
  {
    hide Inv, Step;
    if moves != [] {
      var last, s0 := |moves| - 1, Init(capacity, threads, blank);
      var s := Run(Unbounded, s0, moves[..last]);
      InitInv(capacity, threads, blank);
      RunKeepsInv(s0, moves[..last]);
      StepTail(s, moves[last].0, moves[last].1);
      RunOnWords(capacity, threads, blank, moves[..last]);
      StepOnWords(s, moves[last].0, moves[last].1);
    }
  }
}
