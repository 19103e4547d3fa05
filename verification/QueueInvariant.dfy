/** The inductive invariant of the ring-buffer machine with unbounded counters. */
module QueueInvariant {
  import opened RingArithmetic
  import opened QueueMachine

  /** The cell that ticket `e` uses. */
  function At<T>(s: State<T>, e: nat): Cell<T>
    requires |s.slots| > 0
  {
    s.slots[Slot(e, |s.slots|)]
  }

  /** Thread is between winning the tail CAS for ticket `e` and its sequence store. */
  predicate Fills<T>(pc: Pc<T>, e: nat) {
    (pc.EnqWrite? || pc.EnqPublish?) && pc.ticket == e
  }

  /** Thread is between winning the head CAS for ticket `e` and its sequence store. */
  predicate Drains<T>(pc: Pc<T>, e: nat) {
    (pc.DeqRead? || pc.DeqRelease?) && pc.ticket == e
  }

  predicate Holds<T>(pc: Pc<T>) {
    pc.EnqWrite? || pc.EnqPublish? || pc.DeqRead? || pc.DeqRelease?
  }

  /** The cell of a ticket that is in the queue: being filled, or filled with its item. */
  ghost predicate LiveCell<T>(s: State<T>, e: nat)
    requires |s.slots| > 0 && e < |s.pushed|
  {
    || At(s, e).sequence == e
    || (At(s, e).sequence == e + 1 && At(s, e).data == s.pushed[e])
  }

  /** The cell of a ticket not yet claimed: released, or the ticket a lap earlier is being drained. */
  predicate FreeCell<T>(s: State<T>, e: nat)
    requires |s.slots| > 0
  {
    || At(s, e).sequence == e
    || (e >= |s.slots| && At(s, e).sequence == e - |s.slots| + 1)
  }

  /** The retry passes so far: one that is under way, those that advanced the index, spurious ones. */
  predicate Progress(at: Attempt, shared: nat, underway: nat) {
    at.start <= at.index <= shared && at.passes <= underway + (at.index - at.start) + at.spurious
  }

  ghost predicate PcOk<T>(s: State<T>, pc: Pc<T>)
    requires |s.slots| > 0 && |s.pushed| == s.tail && s.head <= s.tail
  {
    match pc
    case EnqLoadSeq(_, at) => Progress(at, s.tail, 0)
    case EnqCas(_, at) => Progress(at, s.tail, 1) && (at.index == s.tail ==> At(s, at.index).sequence == at.index)
    case EnqReload(_, at) => Progress(at, s.tail, 1) && at.index < s.tail
    case EnqWrite(item, k) => s.head <= k < s.tail && At(s, k).sequence == k && s.pushed[k] == item
    case EnqPublish(item, k) =>
      s.head <= k < s.tail && At(s, k) == Cell(k, item) && s.pushed[k] == item
    case EnqAccepted(k) => k < s.tail
    case DeqLoadSeq(at) => Progress(at, s.head, 0)
    case DeqCas(at) => Progress(at, s.head, 1) && (at.index == s.head ==> At(s, at.index).sequence == at.index + 1)
    case DeqReload(at) => Progress(at, s.head, 1) && at.index < s.head
    case DeqRead(k) => k < s.head && s.tail <= k + |s.slots| && At(s, k) == Cell(k + 1, s.pushed[k])
    case DeqRelease(k, got) =>
      k < s.head && s.tail <= k + |s.slots| && At(s, k).sequence == k + 1 && got == s.pushed[k]
    case DeqTaken(k, got) => k < s.head && got == s.pushed[k]
    case SizeLoadTail(h) => h <= s.head
    case SizeDone(h, l) => h <= s.head && l <= s.tail
    case _ => true
  }

  predicate Counters<T>(s: State<T>) {
    && |s.slots| >= 2
    && s.head <= s.tail <= s.head + |s.slots|
    && |s.pushed| == s.tail
  }

  ghost predicate Window<T>(s: State<T>)
    requires Counters(s)
  {
    && (forall e: nat :: s.head <= e < s.tail ==> LiveCell(s, e))
    && (forall e: nat :: s.tail <= e < s.head + |s.slots| ==> FreeCell(s, e))
  }

  ghost predicate Threads<T>(s: State<T>)
    requires Counters(s)
  {
    forall t :: 0 <= t < |s.pcs| ==> PcOk(s, s.pcs[t])
  }

  /** No two threads hold tickets with the same role and number. */
  predicate Exclusive<T>(s: State<T>) {
    forall t, u :: 0 <= t < |s.pcs| && 0 <= u < |s.pcs| && t != u && Holds(s.pcs[t]) && Holds(s.pcs[u])
      && Fills(s.pcs[t], s.pcs[t].ticket) == Fills(s.pcs[u], s.pcs[u].ticket)
      ==> s.pcs[t].ticket != s.pcs[u].ticket
  }

  ghost predicate Filling<T>(s: State<T>, e: nat) {
    exists t :: 0 <= t < |s.pcs| && Fills(s.pcs[t], e)
  }

  ghost predicate Draining<T>(s: State<T>, e: nat) {
    exists t :: 0 <= t < |s.pcs| && Drains(s.pcs[t], e)
  }

  /** A cell in a transient state has the thread that will finish it. */
  ghost predicate Accounted<T>(s: State<T>)
    requires Counters(s)
  {
    && (forall e: nat ::
          s.head <= e < s.tail && At(s, e).sequence == e ==> Filling(s, e))
    && (forall e: nat ::
          s.tail <= e < s.head + |s.slots| && At(s, e).sequence != e ==>
          e >= |s.slots| && Draining(s, e - |s.slots|))
  }

  /** A ticket below `head_` was handed to its dequeuer, or its dequeuer is still reading the cell. */
  ghost predicate Delivered<T>(s: State<T>)
    requires Counters(s)
  {
    && (forall k :: k in s.taken ==> k < s.head && s.taken[k] == s.pushed[k] && !Draining(s, k))
    && (forall k: nat :: k < s.head ==> k in s.taken || Draining(s, k))
  }

  ghost predicate Inv<T>(s: State<T>) {
    Counters(s) && Window(s) && Threads(s) && Exclusive(s) && Accounted(s) && Delivered(s)
  }

  /** Within one lap of `head_`, a ticket's cell belongs to that ticket alone. */
  lemma OneLap(capacity: nat, base: nat, k: nat)
    requires capacity > 0 && base <= k < base + capacity
    ensures forall e: nat {:trigger Slot(e, capacity)} ::
              base <= e < base + capacity && e != k ==> Slot(e, capacity) != Slot(k, capacity)
  {
    forall e: nat | base <= e < base + capacity && e != k
      ensures Slot(e, capacity) != Slot(k, capacity)
    {
      if e < k { SlotInjective(e, k, capacity); } else { SlotInjective(k, e, capacity); }
    }
  }

  /** A step that touches only the thread's own program counter, outside the critical windows. */
  lemma MovePc<T>(s: State<T>, t: nat, pc: Pc<T>)
    requires Inv(s) && t < |s.pcs| && !Holds(s.pcs[t]) && !Holds(pc) && PcOk(s, pc)
    ensures Inv(Goto(s, t, pc))
  {
    var s' := Goto(s, t, pc);
    assert forall e: nat :: At(s', e) == At(s, e);
    assert forall e: nat :: s.head <= e < s.tail ==> LiveCell(s', e) == LiveCell(s, e);
    assert forall e: nat :: FreeCell(s', e) == FreeCell(s, e);
    SameFilling(s, s', t);
    SameDraining(s, s', t);
  }

  /** What the sequence number of any ticket up to `tail_` can be, and what it says. */
  lemma EnqSequence<T>(s: State<T>, k: nat)
    requires Inv(s) && k <= s.tail
    ensures At(s, k).sequence == k && k == s.tail ==> s.tail < s.head + |s.slots|
    ensures At(s, k).sequence > k ==> k < s.tail
    ensures At(s, k).sequence < k ==> k == s.tail
  {
    var e := WindowTicket(s, k);
    assert At(s, e) == At(s, k);
    assert if e < s.tail then LiveCell(s, e) else FreeCell(s, e);
  }

  lemma DeqSequence<T>(s: State<T>, k: nat)
    requires Inv(s) && k <= s.head
    ensures At(s, k).sequence == k + 1 && k == s.head ==> s.head < s.tail
    ensures At(s, k).sequence > k + 1 ==> k < s.head
    ensures At(s, k).sequence < k + 1 ==> k == s.head
  {
    var e := WindowTicket(s, k);
    assert At(s, e) == At(s, k);
    assert if e < s.tail then LiveCell(s, e) else FreeCell(s, e);
  }

  /** The ticket of the current window whose cell is that of ticket `k`. */
  lemma {:induction false} WindowTicket<T>(s: State<T>, k: nat) returns (e: nat)
    requires Counters(s) && k <= s.tail
    ensures s.head <= e < s.head + |s.slots| && Slot(e, |s.slots|) == Slot(k, |s.slots|)
    ensures k < s.head ==> e >= k + |s.slots|
    ensures s.head <= k < s.head + |s.slots| ==> e == k
    ensures k == s.head + |s.slots| ==> e == s.head
    decreases s.head + |s.slots| - k
  {
    if k == s.head + |s.slots| {
      e := s.head;
    } else if k >= s.head {
      e := k;
    } else if k + |s.slots| <= s.tail {
      e := WindowTicket(s, k + |s.slots|);
      if k + |s.slots| == s.head + |s.slots| { assert false; }
    } else {
      e := k + |s.slots|;
    }
  }

  /** Who drains which ticket is unchanged by a step of a thread that drains the same ticket before and after. */
  lemma SameDraining<T>(s: State<T>, s': State<T>, t: nat)
    requires t < |s.pcs| == |s'.pcs| && s'.pcs == s.pcs[t := s'.pcs[t]]
    requires forall e :: Drains(s.pcs[t], e) == Drains(s'.pcs[t], e)
    ensures forall e :: Draining(s', e) == Draining(s, e)
  {
    forall e
      ensures Draining(s', e) == Draining(s, e)
    {
      if u :| 0 <= u < |s.pcs| && Drains(s.pcs[u], e) { assert Drains(s'.pcs[u], e); }
      if u :| 0 <= u < |s.pcs| && Drains(s'.pcs[u], e) { assert Drains(s.pcs[u], e); }
    }
  }

  lemma SameFilling<T>(s: State<T>, s': State<T>, t: nat)
    requires t < |s.pcs| == |s'.pcs| && s'.pcs == s.pcs[t := s'.pcs[t]]
    requires forall e :: Fills(s.pcs[t], e) == Fills(s'.pcs[t], e)
    ensures forall e :: Filling(s', e) == Filling(s, e)
  {
    forall e
      ensures Filling(s', e) == Filling(s, e)
    {
      if u :| 0 <= u < |s.pcs| && Fills(s.pcs[u], e) { assert Fills(s'.pcs[u], e); }
      if u :| 0 <= u < |s.pcs| && Fills(s'.pcs[u], e) { assert Fills(s.pcs[u], e); }
    }
  }

  /** Winning the compare-exchange on `tail_`. */
  lemma ClaimTail<T>(s: State<T>, t: nat, s': State<T>)
    requires Inv(s) && t < |s.pcs| && s.pcs[t].EnqCas? && s.tail == s.pcs[t].at.index
    requires s' == Goto(s, t, EnqWrite(s.pcs[t].item, s.tail)).(tail := s.tail + 1, pushed := s.pushed
             + [s.pcs[t].item])
    ensures Inv(s')
  {
    EnqSequence(s, s.tail);
    assert forall e: nat :: At(s', e) == At(s, e);
    ClaimTailWindow(s, s');
    ClaimTailThreads(s, t, s');
    SameDraining(s, s', t);
    FillingGrows(s, t, s');
  }

  lemma FillingGrows<T>(s: State<T>, t: nat, s': State<T>)
    requires t < |s.pcs| == |s'.pcs| && !Holds(s.pcs[t]) && s'.pcs == s.pcs[t := s'.pcs[t]] && s'.pcs[t].EnqWrite?
    ensures forall e: nat :: Filling(s', e) == (Filling(s, e) || e == s'.pcs[t].ticket)
  {
    assert Fills(s'.pcs[t], s'.pcs[t].ticket);
    forall e: nat | e != s'.pcs[t].ticket
      ensures Filling(s', e) == Filling(s, e)
    {
      if u :| 0 <= u < |s.pcs| && Fills(s.pcs[u], e) { assert Fills(s'.pcs[u], e); }
      if u :| 0 <= u < |s.pcs| && Fills(s'.pcs[u], e) { assert Fills(s.pcs[u], e); }
    }
  }

  lemma ClaimTailWindow<T>(s: State<T>, s': State<T>)
    requires Counters(s) && Window(s) && At(s, s.tail).sequence == s.tail && s.tail < s.head + |s.slots|
    requires s'.slots == s.slots && s'.head == s.head && s'.tail == s.tail + 1
    requires |s'.pushed| == s'.tail && forall k: nat :: k < s.tail ==> s'.pushed[k] == s.pushed[k]
    ensures Counters(s') && Window(s')
  {
    assert forall e: nat :: At(s', e) == At(s, e);
    forall e: nat | s'.head <= e < s'.tail ensures LiveCell(s', e) { assert e < s.tail ==> LiveCell(s, e); }
    forall e: nat | s'.tail <= e < s'.head + |s.slots| ensures FreeCell(s', e) { assert FreeCell(s, e); }
  }

  lemma ClaimTailThreads<T>(s: State<T>, t: nat, s': State<T>)
    requires Counters(s) && Threads(s) && t < |s.pcs| && Counters(s') && At(s, s.tail).sequence == s.tail
    requires exists item :: s' == Goto(s, t, EnqWrite(item, s.tail)).(tail := s.tail + 1, pushed := s.pushed + [item])
    ensures Threads(s')
  {
    assert forall e: nat :: At(s', e) == At(s, e);
    forall u | 0 <= u < |s.pcs|
      ensures PcOk(s', s'.pcs[u])
    {
      assert PcOk(s, s.pcs[u]);
    }
  }

  /** Winning the compare-exchange on `head_`. */
  lemma ClaimHead<T>(s: State<T>, t: nat, s': State<T>)
    requires Inv(s) && t < |s.pcs| && s.pcs[t].DeqCas? && s.head == s.pcs[t].at.index
    requires s' == Goto(s, t, DeqRead(s.head)).(head := s.head + 1)
    ensures Inv(s')
  {
    var k, lap := s.head, s.head + |s.slots|;
    DeqSequence(s, k);
    assert LiveCell(s, k) && At(s, lap) == At(s, k);
    assert forall e: nat :: At(s', e) == At(s, e);
    ClaimHeadWindow(s, s');
    ClaimHeadThreads(s, t, s');
    SameFilling(s, s', t);
    DrainingGrows(s, t, s');
    ClaimHeadExclusive(s, t, s');
  }

  lemma DrainingGrows<T>(s: State<T>, t: nat, s': State<T>)
    requires t < |s.pcs| == |s'.pcs| && !Holds(s.pcs[t]) && s'.pcs == s.pcs[t := s'.pcs[t]] && s'.pcs[t].DeqRead?
    ensures forall e: nat :: Draining(s', e) == (Draining(s, e) || e == s'.pcs[t].ticket)
  {
    assert Drains(s'.pcs[t], s'.pcs[t].ticket);
    forall e: nat | e != s'.pcs[t].ticket
      ensures Draining(s', e) == Draining(s, e)
    {
      if u :| 0 <= u < |s.pcs| && Drains(s.pcs[u], e) { assert Drains(s'.pcs[u], e); }
      if u :| 0 <= u < |s.pcs| && Drains(s'.pcs[u], e) { assert Drains(s.pcs[u], e); }
    }
  }

  lemma ClaimHeadWindow<T>(s: State<T>, s': State<T>)
    requires Counters(s) && Window(s) && At(s, s.head).sequence == s.head + 1 && s.head < s.tail
    requires s'.slots == s.slots && s'.head == s.head + 1 && s'.tail == s.tail && s'.pushed == s.pushed
    ensures Counters(s') && Window(s')
  {
    assert forall e: nat :: At(s', e) == At(s, e);
    assert At(s, s.head + |s.slots|) == At(s, s.head);
    forall e: nat | s'.head <= e < s'.tail ensures LiveCell(s', e) { assert LiveCell(s, e); }
    forall e: nat | s'.tail <= e < s'.head + |s.slots| ensures FreeCell(s', e) {
      assert e < s.head + |s.slots| ==> FreeCell(s, e);
    }
  }

  lemma ClaimHeadThreads<T>(s: State<T>, t: nat, s': State<T>)
    requires Counters(s) && Threads(s) && t < |s.pcs| && Counters(s') && s.head < s.tail
    requires At(s, s.head) == Cell(s.head + 1, s.pushed[s.head])
    requires s' == Goto(s, t, DeqRead(s.head)).(head := s.head + 1)
    ensures Threads(s')
  {
    assert forall e: nat :: At(s', e) == At(s, e);
    forall u | 0 <= u < |s.pcs|
      ensures PcOk(s', s'.pcs[u])
    {
      assert PcOk(s, s.pcs[u]);
    }
  }

  lemma ClaimHeadExclusive<T>(s: State<T>, t: nat, s': State<T>)
    requires Counters(s) && Threads(s) && Exclusive(s) && t < |s.pcs|
    requires s' == Goto(s, t, DeqRead(s.head)).(head := s.head + 1)
    ensures Exclusive(s')
  {
  }

  /** The cell of a ticket that a thread holds is no other thread's business: every other thread
      that relies on a cell relies on another one. */
  lemma ForeignCell<T>(s: State<T>, t: nat, u: nat)
    requires Counters(s) && Threads(s) && Exclusive(s)
    requires t < |s.pcs| && u < |s.pcs| && t != u && Holds(s.pcs[t])
    ensures Holds(s.pcs[u]) ==> Slot(s.pcs[u].ticket, |s.slots|) != Slot(s.pcs[t].ticket, |s.slots|)
    ensures s.pcs[u].EnqCas? && s.pcs[u].at.index == s.tail ==>
              Slot(s.tail, |s.slots|) != Slot(s.pcs[t].ticket, |s.slots|)
    ensures s.pcs[u].DeqCas? && s.pcs[u].at.index == s.head ==>
              Slot(s.head, |s.slots|) != Slot(s.pcs[t].ticket, |s.slots|)
  {
    var k := s.pcs[t].ticket;
    assert PcOk(s, s.pcs[t]) && PcOk(s, s.pcs[u]);
    SlotInjective(k, k + 1, |s.slots|);
    if k > 0 { SlotInjective(k - 1, k, |s.slots|); }
    assert At(s, k).sequence == if s.pcs[t].EnqWrite? || s.pcs[t].EnqPublish? then k else k + 1;
  }

  /** A holder changes its own cell: every other cell, and what every other thread relies on, is unchanged. */
  lemma WriteThreads<T>(s: State<T>, t: nat, s': State<T>)
    requires Counters(s) && Threads(s) && Exclusive(s) && t < |s.pcs| == |s'.pcs| && Holds(s.pcs[t])
    requires |s'.slots| == |s.slots| && s'.head == s.head && s'.tail == s.tail && s'.pushed == s.pushed
    requires s'.pcs == s.pcs[t := s'.pcs[t]] && PcOk(s', s'.pcs[t])
    requires forall i :: 0 <= i < |s.slots| && i != Slot(s.pcs[t].ticket, |s.slots|) ==> s'.slots[i] == s.slots[i]
    ensures Threads(s')
  {
    forall u | 0 <= u < |s.pcs|
      ensures PcOk(s', s'.pcs[u])
    {
      if u != t {
        ForeignCell(s, t, u);
        assert PcOk(s, s.pcs[u]);
      }
    }
  }

  lemma WriteWindow<T>(s: State<T>, s': State<T>, w: nat)
    requires Counters(s) && Window(s) && s.head <= w < s.head + |s.slots|
    requires |s'.slots| == |s.slots| && s'.head == s.head && s'.tail == s.tail && s'.pushed == s.pushed
    requires if w < s.tail then LiveCell(s', w) else FreeCell(s', w)
    requires forall i :: 0 <= i < |s.slots| && i != Slot(w, |s.slots|) ==> s'.slots[i] == s.slots[i]
    ensures Counters(s') && Window(s')
    ensures forall e: nat :: s.head <= e < s.head + |s.slots| && e != w ==> At(s', e) == At(s, e)
  {
    OneLap(|s.slots|, s.head, w);
    forall e: nat | s.head <= e < s.tail ensures LiveCell(s', e) { assert LiveCell(s, e); }
    forall e: nat | s.tail <= e < s.head + |s.slots| ensures FreeCell(s', e) { assert FreeCell(s, e); }
  }

  /** Storing the item in the claimed cell. */
  lemma WriteItem<T>(s: State<T>, t: nat, s': State<T>)
    requires Inv(s) && t < |s.pcs| && s.pcs[t].EnqWrite?
    requires var i := Slot(s.pcs[t].ticket, |s.slots|);
             s' == Goto(s, t, EnqPublish(s.pcs[t].item,
                 s.pcs[t].ticket)).(slots := s.slots[i := s.slots[i].(data := s.pcs[t].item)])
    ensures Inv(s')
  {
    assert PcOk(s, s.pcs[t]);
    WriteWindow(s, s', s.pcs[t].ticket);
    WriteThreads(s, t, s');
    SameFilling(s, s', t);
    SameDraining(s, s', t);
  }

  /** Publishing the stored item. */
  lemma Publish<T>(s: State<T>, t: nat, s': State<T>)
    requires Inv(s) && t < |s.pcs| && s.pcs[t].EnqPublish?
    requires var i := Slot(s.pcs[t].ticket, |s.slots|);
             s' == Goto(s, t, EnqAccepted(s.pcs[t].ticket)).(
                     slots := s.slots[i := s.slots[i].(sequence := s.pcs[t].ticket + 1)])
    ensures Inv(s')
  {
    assert PcOk(s, s.pcs[t]);
    WriteWindow(s, s', s.pcs[t].ticket);
    WriteThreads(s, t, s');
    SameDraining(s, s', t);
    forall e: nat | Filling(s, e) && e != s.pcs[t].ticket
      ensures Filling(s', e)
    {
      var u :| 0 <= u < |s.pcs| && Fills(s.pcs[u], e);
      assert Fills(s'.pcs[u], e);
    }
  }

  /** Moving the item out of the claimed cell. */
  lemma ReadItem<T>(s: State<T>, t: nat, residue: T, s': State<T>)
    requires Inv(s) && t < |s.pcs| && s.pcs[t].DeqRead?
    requires var i := Slot(s.pcs[t].ticket, |s.slots|);
             s' == Goto(s, t, DeqRelease(s.pcs[t].ticket,
                 s.slots[i].data)).(slots := s.slots[i := s.slots[i].(data := residue)])
    ensures Inv(s')
  {
    assert PcOk(s, s.pcs[t]);
    WriteWindow(s, s', s.pcs[t].ticket + |s.slots|);
    WriteThreads(s, t, s');
    SameFilling(s, s', t);
    SameDraining(s, s', t);
  }

  /** Releasing the cell for the next lap. */
  lemma Release<T>(s: State<T>, t: nat, s': State<T>)
    requires Inv(s) && t < |s.pcs| && s.pcs[t].DeqRelease?
    requires var k := s.pcs[t].ticket; var i := Slot(k, |s.slots|);
             s' == Goto(s, t, DeqTaken(k, s.pcs[t].got)).(slots := s.slots[i := s.slots[i].(sequence := k + |s.slots|)],
                                                         taken := s.taken[k := s.pcs[t].got])
    ensures Inv(s')
  {
    var k := s.pcs[t].ticket;
    assert PcOk(s, s.pcs[t]);
    WriteWindow(s, s', k + |s.slots|);
    WriteThreads(s, t, s');
    SameFilling(s, s', t);
    DrainingEnds(s, t, s');
  }

  lemma DrainingEnds<T>(s: State<T>, t: nat, s': State<T>)
    requires Exclusive(s) && t < |s.pcs| == |s'.pcs| && s.pcs[t].DeqRelease? && s'.pcs == s.pcs[t := s'.pcs[t]]
             && !Holds(s'.pcs[t])
    ensures forall e: nat :: Draining(s', e) == (Draining(s, e) && e != s.pcs[t].ticket)
  {
    var k := s.pcs[t].ticket;
    forall e: nat
      ensures Draining(s', e) == (Draining(s, e) && e != k)
    {
      if u :| 0 <= u < |s.pcs| && Drains(s.pcs[u], e) { assert e != k ==> Drains(s'.pcs[u], e); }
      if u :| 0 <= u < |s.pcs| && Drains(s'.pcs[u], e) { assert Drains(s.pcs[u], e) && Drains(s.pcs[t], k); }
    }
  }

  /** Every step of every thread keeps the invariant. */
  lemma StepKeepsInv<T>(s: State<T>, t: nat, mv: Move<T>)
    requires Inv(s)
    ensures Inv(Next(s, t, mv))
  {
    if t < |s.pcs| {
      match mv
      case Begin(op) => if s.pcs[t].Idle? { MovePc(s, t, Start(op)); }
      case Return => if Done(s.pcs[t]) { MovePc(s, t, Idle); }
      case Advance(spurious, residue) => AccessKeepsInv(s, t, spurious, residue);
    }
  }

  lemma AccessKeepsInv<T>(s: State<T>, t: nat, spurious: bool, residue: T)
    requires Inv(s) && t < |s.pcs|
    ensures Inv(Access(Unbounded, s, t, spurious, residue))
  {
    var s' := Access(Unbounded, s, t, spurious, residue);
    match s.pcs[t]
    case EnqLoadSeq(_, _) => LoadSequence(s, t, spurious, residue);
    case EnqCas(_, at) =>
      if s.tail == at.index && !spurious { ClaimTail(s, t, s'); } else { Retry(s, t, spurious, residue); }
    case EnqWrite(_, _) => WriteItem(s, t, s');
    case EnqPublish(_, _) => Publish(s, t, s');
    case DeqLoadSeq(_) => LoadSequence(s, t, spurious, residue);
    case DeqCas(at) =>
      if s.head == at.index && !spurious { ClaimHead(s, t, s'); } else { Retry(s, t, spurious, residue); }
    case DeqRead(_) => ReadItem(s, t, residue, s');
    case DeqRelease(_, _) => Release(s, t, s');
    case _ => Retry(s, t, spurious, residue);
  }

  lemma LoadSequence<T>(s: State<T>, t: nat, spurious: bool, residue: T)
    requires Inv(s) && t < |s.pcs| && (s.pcs[t].EnqLoadSeq? || s.pcs[t].DeqLoadSeq?)
    ensures Inv(Access(Unbounded, s, t, spurious, residue))
  {
    assert PcOk(s, s.pcs[t]);
    if s.pcs[t].EnqLoadSeq? { EnqSequence(s, s.pcs[t].at.index); } else { DeqSequence(s, s.pcs[t].at.index); }
    MovePc(s, t, Access(Unbounded, s, t, spurious, residue).pcs[t]);
  }

  /** The accesses that only read, and the compare-exchanges that fail. */
  lemma Retry<T>(s: State<T>, t: nat, spurious: bool, residue: T)
    requires Inv(s) && t < |s.pcs| && !Holds(s.pcs[t]) && !s.pcs[t].EnqLoadSeq? && !s.pcs[t].DeqLoadSeq?
    requires s.pcs[t].EnqCas? ==> s.tail != s.pcs[t].at.index || spurious
    requires s.pcs[t].DeqCas? ==> s.head != s.pcs[t].at.index || spurious
    ensures Inv(Access(Unbounded, s, t, spurious, residue))
  {
    assert PcOk(s, s.pcs[t]);
    var s' := Access(Unbounded, s, t, spurious, residue);
    if s' != s {
      MovePc(s, t, s'.pcs[t]);
    }
  }
}
