/** The ring buffer as the code has it: an array of cells, two counters and two retry loops.

    Other threads may run before any access of a method. What they will do is `turns`, one schedule
    for each such point, and `glitches` says which weak compare-exchanges fail for no reason; both
    are arbitrary. `pcs`, `pushed` and `taken` are bookkeeping that the code lacks. The methods
    change `slots`, `head` and `tail` by their own statements, and Valid() ties the object to a run
    of the step machine: every access made here is the step that the machine takes. */
module LockFreeQueues {
  import opened RingArithmetic
  import opened QueueMachine
  import opened QueueInvariant
  import opened QueueTheorems

  lemma RunExtend<T>(s: State<T>, a: Schedule<T>, t: nat, mv: Move<T>)
    requires |s.slots| > 0
    ensures Run(Unbounded, s, a + [(t, mv)]) == Next(Run(Unbounded, s, a), t, mv)
  {
    assert (a + [(t, mv)])[..|a|] == a;
  }

  predicate LeavesAlone<T>(moves: Schedule<T>, me: nat) {
    forall i :: 0 <= i < |moves| ==> moves[i].0 != me
  }

  predicate LeaveAlone<T>(turns: seq<Schedule<T>>, me: nat) {
    forall i :: 0 <= i < |turns| ==> LeavesAlone(turns[i], me)
  }

  function Rest<X>(xs: seq<X>): seq<X> {
    if xs == [] then [] else xs[1..]
  }

  lemma {:induction false} OthersRun<T>(s: State<T>, moves: Schedule<T>, me: nat)
    requires |s.slots| > 0 && me < |s.pcs| && LeavesAlone(moves, me)
    ensures Run(Unbounded, s, moves).pcs[me] == s.pcs[me]
  {
    if moves != [] {
      OthersRun(s, moves[..|moves| - 1], me);
    }
  }

  /** No other thread is between a winning compare-exchange and its sequence store. */
  ghost predicate Alone<T>(s: State<T>, me: nat) {
    forall u :: 0 <= u < |s.pcs| && u != me ==> !Holds(s.pcs[u])
  }

  /** What thread `me` finds after the other threads' turn. */
  ghost predicate Between<T>(s: State<T>, me: nat, seen: State<T>) {
    && Inv(seen) && |seen.slots| == |s.slots| && me < |seen.pcs| == |s.pcs|
    && seen.pcs[me] == s.pcs[me] && s.tail <= seen.tail && s.head <= seen.head && s.pushed <= seen.pushed
  }

  class LockFreeQueue<T> {
    const slots: array<Cell<T>>
    var head: nat
    var tail: nat
    var pcs: seq<Pc<T>>
    var pushed: seq<T>
    var taken: map<nat, T>
    var turns: seq<Schedule<T>>
    var glitches: seq<bool>
    ghost const origin: State<T>
    ghost var history: Schedule<T>

    function View(): State<T>
      reads this, slots
    {
      State(slots[..], head, tail, pcs, pushed, taken)
    }

    /** The state after the first `n` steps since construction. */
    ghost function Past(n: nat): State<T>
      requires |origin.slots| > 0 && n <= |history|
      reads this
    {
      Run(Unbounded, origin, history[..n])
    }

    ghost predicate Valid()
      reads this, slots
    {
      && ValidCapacity(slots.Length)
      && Inv(View())
      && |origin.slots| > 0 && Inv(origin) && View() == Run(Unbounded, origin, history)
    }

    constructor (capacity: nat, threads: nat, blank: T, turns: seq<Schedule<T>>, glitches: seq<bool>)
      requires ValidCapacity(capacity)
      ensures Valid() && fresh(slots)
      ensures View() == origin == Init(capacity, threads, blank)
      ensures this.turns == turns && this.glitches == glitches
    {
      slots := new Cell<T>[capacity](i => Cell(i, blank));
      head, tail := 0, 0;
      pcs, pushed, taken := seq(threads, _ => Idle), [], map[];
      origin, history := Init(capacity, threads, blank), [];
      this.turns, this.glitches := turns, glitches;
      new;
      assert View().slots == origin.slots;
      InitInv(capacity, threads, blank);
    }

    /** The other threads' turn before an access of thread `me`. */
    method Turn(me: nat)
      requires Valid() && me < |pcs| && LeaveAlone(turns, me)
      modifies this, slots
      ensures Valid() && old(history) <= history && Between(old(View()), me, View())
      ensures turns == Rest(old(turns)) && glitches == old(glitches) && LeaveAlone(turns, me)
      ensures old(turns) == [] ==> View() == old(View())
    {
      if turns != [] {
        var others := turns[0];
        var s := Run(Unbounded, View(), others);
        CountersGrow(View(), others);
        OthersRun(View(), others, me);
        RunAppend(origin, history, others);
        forall i | 0 <= i < slots.Length {
          slots[i] := s.slots[i];
        }
        assert slots[..] == s.slots;
        head, tail, pcs, pushed, taken := s.head, s.tail, s.pcs, s.pushed, s.taken;
        history, turns := history + others, turns[1..];
      }
    }

    /** Bookkeeping for a step of thread `me`; the caller makes its access to the shared fields. */
    method Note(me: nat, mv: Move<T>)
      requires Valid()
      modifies this`pcs, this`pushed, this`taken, this`history
      ensures history == old(history) + [(me, mv)]
      ensures var s := Next(old(View()), me, mv);
              && pcs == s.pcs && pushed == s.pushed && taken == s.taken
              && s == Run(Unbounded, origin, history) && Inv(s)
    {
      StepKeepsInv(View(), me, mv);
      RunExtend(origin, history, me, mv);
      history := history + [(me, mv)];
      var s := Next(View(), me, mv);
      pcs, pushed, taken := s.pcs, s.pushed, s.taken;
    }

    /** Entering and leaving an operation touches no shared field. */
    method Local(me: nat, mv: Move<T>)
      requires Valid() && !mv.Advance?
      modifies this`pcs, this`pushed, this`taken, this`history
      ensures Valid() && history == old(history) + [(me, mv)] && View() == Next(old(View()), me, mv)
    {
      Note(me, mv);
    }

    /** After the other threads' turn, which led to state `seen`, thread `me` made the machine's step `mv`. */
    twostate predicate Accessed(me: nat, mv: Move<T>, new seen: State<T>)
      requires old(Valid()) && me < old(|pcs|)
      reads this, slots
    {
      && Valid() && old(history) < history && Between(old(View()), me, seen)
      && turns == Rest(old(turns)) && LeaveAlone(turns, me) && (old(turns) == [] ==> seen == old(View()))
      && seen == Past(|history| - 1) && View() == Next(seen, me, mv)
    }

    /** `slots_[index & MASK].sequence.load()` */
    method LoadSequence(me: nat, index: nat, residue: T) returns (sequence: nat, ghost seen: State<T>)
      requires Valid() && me < |pcs| && LeaveAlone(turns, me)
      requires (pcs[me].EnqLoadSeq? || pcs[me].DeqLoadSeq?) && pcs[me].at.index == index
      modifies this, slots
      ensures Accessed(me, Advance(false, residue), seen) && glitches == old(glitches)
      ensures sequence == At(seen, index).sequence
    {
      hide Inv;
      Turn(me);
      seen := View();
      MaskIsSlot(index, slots.Length);
      sequence := slots[BitAnd(index, slots.Length - 1)].sequence;
      Note(me, Advance(false, residue));
    }

    /** `tail_.load()`, before the loop and to catch up. */
    method LoadTail(me: nat, residue: T) returns (index: nat, ghost seen: State<T>)
      requires Valid() && me < |pcs| && LeaveAlone(turns, me)
      requires pcs[me].EnqLoadTail? || pcs[me].EnqReload? || pcs[me].SizeLoadTail?
      modifies this, slots
      ensures Accessed(me, Advance(false, residue), seen) && glitches == old(glitches)
      ensures index == seen.tail == tail
    {
      hide Inv;
      Turn(me);
      seen := View();
      index := tail;
      Note(me, Advance(false, residue));
    }

    /** `head_.load()`, before the loop and to catch up. */
    method LoadHead(me: nat, residue: T) returns (index: nat, ghost seen: State<T>)
      requires Valid() && me < |pcs| && LeaveAlone(turns, me)
      requires pcs[me].DeqLoadHead? || pcs[me].DeqReload? || pcs[me].SizeLoadHead?
      modifies this, slots
      ensures Accessed(me, Advance(false, residue), seen) && glitches == old(glitches)
      ensures index == seen.head == head
    {
      hide Inv;
      Turn(me);
      seen := View();
      index := head;
      Note(me, Advance(false, residue));
    }

    /** `tail_.compare_exchange_weak(index, index + 1)`; a failure returns the current value. */
    method CasTail(me: nat, index: nat, residue: T) returns (won: bool, current: nat, ghost glitch: bool,
        ghost seen: State<T>)
      requires Valid() && me < |pcs| && LeaveAlone(turns, me)
      requires pcs[me].EnqCas? && pcs[me].at.index == index
      modifies this, slots
      ensures glitch == (old(glitches) != [] && old(glitches)[0]) && glitches == Rest(old(glitches))
      ensures Accessed(me, Advance(glitch, residue), seen)
      ensures won == (seen.tail == index && !glitch) && current == seen.tail
    {
      hide Inv, Access;
      Turn(me);
      seen := View();
      var fails := glitches != [] && glitches[0];
      glitch, current := fails, tail;
      won := tail == index && !fails;
      EnqueueCompares(seen, me, fails, residue);
      Note(me, Advance(fails, residue));
      if won {
        tail := index + 1;
      }
      glitches := Rest(glitches);
    }

    /** `head_.compare_exchange_weak(index, index + 1)`; a failure returns the current value. */
    method CasHead(me: nat, index: nat, residue: T) returns (won: bool, current: nat, ghost glitch: bool,
        ghost seen: State<T>)
      requires Valid() && me < |pcs| && LeaveAlone(turns, me)
      requires pcs[me].DeqCas? && pcs[me].at.index == index
      modifies this, slots
      ensures glitch == (old(glitches) != [] && old(glitches)[0]) && glitches == Rest(old(glitches))
      ensures Accessed(me, Advance(glitch, residue), seen)
      ensures won == (seen.head == index && !glitch) && current == seen.head
    {
      hide Inv, Access;
      Turn(me);
      seen := View();
      var fails := glitches != [] && glitches[0];
      glitch, current := fails, head;
      won := head == index && !fails;
      DequeueCompares(seen, me, fails, residue);
      Note(me, Advance(fails, residue));
      if won {
        head := index + 1;
      }
      glitches := Rest(glitches);
    }

    /** `slot.data = std::move(item)` */
    method StoreItem(me: nat, item: T, k: nat) returns (ghost seen: State<T>)
      requires Valid() && me < |pcs| && LeaveAlone(turns, me) && pcs[me] == EnqWrite(item, k)
      modifies this, slots
      ensures Accessed(me, Advance(false, item), seen) && glitches == old(glitches)
    {
      hide Inv, ValidCapacity, LeavesAlone;
      Turn(me);
      seen := View();
      MaskIsSlot(k, slots.Length);
      var i := BitAnd(k, slots.Length - 1);
      Note(me, Advance(false, item));
      slots[i] := slots[i].(data := item);
    }

    /** `std::move(slot.data)`, which leaves `residue` behind. */
    method MoveOut(me: nat, k: nat, residue: T) returns (item: T, ghost seen: State<T>)
      requires Valid() && me < |pcs| && LeaveAlone(turns, me) && pcs[me] == DeqRead(k)
      modifies this, slots
      ensures Accessed(me, Advance(false, residue), seen) && glitches == old(glitches)
      ensures item == At(seen, k).data
    {
      hide Inv, ValidCapacity, LeavesAlone;
      Turn(me);
      seen := View();
      MaskIsSlot(k, slots.Length);
      var i := BitAnd(k, slots.Length - 1);
      Note(me, Advance(false, residue));
      item := slots[i].data;
      slots[i] := slots[i].(data := residue);
    }

    /** `slot.sequence.store(k + 1)` publishes the stored item. */
    method StorePublished(me: nat, k: nat, residue: T) returns (ghost seen: State<T>)
      requires Valid() && me < |pcs| && LeaveAlone(turns, me) && pcs[me].EnqPublish? && pcs[me].ticket == k
      modifies this, slots
      ensures Accessed(me, Advance(false, residue), seen) && glitches == old(glitches)
    {
      hide Inv, ValidCapacity, LeavesAlone;
      Turn(me);
      seen := View();
      MaskIsSlot(k, slots.Length);
      var i := BitAnd(k, slots.Length - 1);
      Note(me, Advance(false, residue));
      slots[i] := slots[i].(sequence := k + 1);
    }

    /** `slot.sequence.store(k + Capacity)` releases the emptied cell for the next lap. */
    method StoreReleased(me: nat, k: nat, residue: T) returns (ghost seen: State<T>)
      requires Valid() && me < |pcs| && LeaveAlone(turns, me) && pcs[me].DeqRelease? && pcs[me].ticket == k
      modifies this, slots
      ensures Accessed(me, Advance(false, residue), seen) && glitches == old(glitches)
    {
      hide Inv, ValidCapacity, LeavesAlone;
      Turn(me);
      seen := View();
      MaskIsSlot(k, slots.Length);
      var i := BitAnd(k, slots.Length - 1);
      Note(me, Advance(false, residue));
      slots[i] := slots[i].(sequence := k + slots.Length);
    }

    /** The part of try_enqueue after its compare-exchange won ticket `k`. */
    method Fill(me: nat, item: T, k: nat)
      requires Valid() && me < |pcs| && LeaveAlone(turns, me) && pcs[me] == EnqWrite(item, k)
      modifies this, slots
      ensures Valid() && old(history) <= history && |pcs| == old(|pcs|) && pcs[me] == Idle
      ensures old(tail) <= tail && old(pushed) <= pushed && |pushed| == tail
      ensures old(turns) == [] ==> tail == old(tail) && head == old(head) && pushed == old(pushed) && turns == []
      ensures old(turns) == [] && Alone(old(View()), me) ==> Alone(View(), me)
    {
      hide Inv, Run;
      var seen := StoreItem(me, item, k);
      EnqueueStores(seen, me, item);
      seen := StorePublished(me, k, item);
      EnqueueStores(seen, me, item);
      Local(me, Return);
    }

    /** One pass of try_enqueue's loop, up to a winning compare-exchange. */
    method EnqueuePass(me: nat, item: T, index: nat) returns (outcome: Outcome, index': nat)
      requires Valid() && me < |pcs| && LeaveAlone(turns, me)
      requires pcs[me].EnqLoadSeq? && pcs[me].item == item && pcs[me].at.index == index
      modifies this, slots
      ensures Valid() && old(history) < history && LeaveAlone(turns, me) && |pcs| == old(|pcs|)
      ensures old(tail) <= tail == |pushed|
      ensures outcome.Won? ==> pcs[me] == EnqWrite(item, index) && old(tail) <= index < tail && pushed[index] == item
      ensures outcome.Refused? ==> pcs[me] == EnqFull && LapUnreleased(Past(|history| - 1))
      ensures outcome.Again? ==>
                && pcs[me].EnqLoadSeq? && pcs[me].item == item && pcs[me].at.index == index'
                && Retried(old(pcs[me].at), pcs[me].at, |old(glitches)| - |glitches|)
                && (|turns| < |old(turns)| || |glitches| < |old(glitches)|
                    || (|glitches| == |old(glitches)| && old(tail) != index && tail == index'))
      ensures !outcome.Again? ==> old(pcs[me].at).passes <= tail - old(pcs[me].at).start + old(pcs[me].at).spurious
      ensures |turns| <= |old(turns)| && |glitches| <= |old(glitches)|
      ensures old(turns) == [] ==>
                && (Alone(old(View()), me) ==> Alone(View(), me))
                && head == old(head) && pushed == old(pushed) + (if outcome.Won? then [item] else [])
                && (if outcome.Won? then index == old(tail) && tail - head <= slots.Length else tail == old(tail))
                && (outcome.Again? ==> tail == index')
                && (outcome.Refused? && Alone(old(View()), me) ==> tail - head == slots.Length)
    {
      hide Inv, Run, Access, LapUnreleased, ValidCapacity;
      var sequence, seen := LoadSequence(me, index, item);
      EnqueueLoads(seen, me, item);
      if sequence == index {
        var won, current, glitch, before := CasTail(me, index, item);
        EnqueueCompares(before, me, glitch, item);
        outcome, index' := if won then Won else Again, current;
      } else if sequence < index {
        outcome, index' := Refused, index;
      } else {
        outcome := Again;
        index', seen := LoadTail(me, item);
        EnqueueReloads(seen, me, item);
      }
    }

    /** The return of a call that failed; its last access decided that. */
    method Refuse(me: nat) returns (ghost judged: nat)
      requires Valid() && me < |pcs| && (pcs[me].EnqFull? || pcs[me].DeqEmpty?) && history != []
      modifies this`pcs, this`pushed, this`taken, this`history
      ensures Valid() && history == old(history) + [(me, Return)]
      ensures judged == old(|history|) - 1 && Past(judged) == old(Past(|history| - 1))
      ensures pcs == old(pcs)[me := Idle] && pushed == old(pushed) && taken == old(taken)
      ensures Alone(old(View()), me) ==> Alone(View(), me)
    {
      hide Inv, Run;
      judged := |history| - 1;
      Local(me, Return);
      assert history[..judged] == old(history)[..judged];
    }

    /** try_enqueue. On success `ticket` is the ticket won; on failure `judged` counts the steps of the
        run up to the sequence load that decided it. */
    method TryEnqueue(me: nat, item: T) returns (ok: bool, passes: nat, ghost ticket: nat, ghost judged: nat)
      requires Valid() && me < |pcs| && LeaveAlone(turns, me) && pcs[me] == Idle
      modifies this, slots
      ensures Valid() && old(history) <= history && |pcs| == old(|pcs|) && pcs[me] == Idle
      ensures ok ==> old(tail) <= ticket < tail && pushed[ticket] == item
      ensures !ok ==> |old(history)| <= judged <= |history| && LapUnreleased(Past(judged))
      ensures passes <= 1 + (tail - old(tail)) + |old(glitches)|
      ensures old(turns) == [] && Alone(old(View()), me) ==>
                && ok == (old(tail - head) < slots.Length) && Alone(View(), me) && head == old(head)
                && pushed == old(pushed) + (if ok then [item] else [])
    {
      hide Inv, Run, Access, LapUnreleased, ValidCapacity;
      Local(me, Begin(Enqueue(item)));
      var index, seen := LoadTail(me, item);
      EnqueueStarts(seen, me, item);
      ghost var at := pcs[me].at;
      passes, ticket, judged := 0, 0, 0;
      while true
        invariant Valid() && me < |pcs| == old(|pcs|) && LeaveAlone(turns, me)
        invariant pcs[me] == EnqLoadSeq(item, at) && at.index == index && at.passes == passes
        invariant old(tail) <= at.start && at.spurious + |glitches| <= |old(glitches)|
        invariant old(history) <= history && old(tail) <= tail
        invariant old(turns) == [] ==> turns == [] && head == old(head) && tail == old(tail) && pushed == old(pushed)
        invariant old(turns) == [] && Alone(old(View()), me) ==> Alone(View(), me)
        decreases |turns|, |glitches|, if tail == index then 0 else 1
      {
        passes := passes + 1;
        var outcome, current := EnqueuePass(me, item, index);
        match outcome
        case Won =>
          ticket := index;
          Fill(me, item, index);
          return true, passes, ticket, judged;
        case Refused =>
          judged := Refuse(me);
          return false, passes, ticket, judged;
        case Again =>
          index, at := current, pcs[me].at;
      }
    }

    /** The part of try_dequeue after its compare-exchange won ticket `k`. */
    method Drain(me: nat, k: nat, residue: T) returns (item: T)
      requires Valid() && me < |pcs| && LeaveAlone(turns, me) && pcs[me] == DeqRead(k)
      modifies this, slots
      ensures Valid() && old(history) <= history && |pcs| == old(|pcs|) && pcs[me] == Idle
      ensures old(head) <= head && old(pushed) <= pushed && k < head <= |pushed| && item == pushed[k]
      ensures k in taken && taken[k] == item
      ensures old(turns) == [] ==> tail == old(tail) && head == old(head) && pushed == old(pushed) && turns == []
      ensures old(turns) == [] && Alone(old(View()), me) ==> Alone(View(), me)
    {
      hide Inv, Run;
      ghost var seen;
      item, seen := MoveOut(me, k, residue);
      DequeueReads(seen, me, residue);
      var before := StoreReleased(me, k, residue);
      DequeueReleases(before, me, residue);
      Local(me, Return);
    }

    /** One pass of try_dequeue's loop, up to a winning compare-exchange. */
    method DequeuePass(me: nat, index: nat, residue: T) returns (outcome: Outcome, index': nat)
      requires Valid() && me < |pcs| && LeaveAlone(turns, me)
      requires pcs[me].DeqLoadSeq? && pcs[me].at.index == index
      modifies this, slots
      ensures Valid() && old(history) < history && LeaveAlone(turns, me) && |pcs| == old(|pcs|)
      ensures old(head) <= head <= tail == |pushed|
      ensures outcome.Won? ==> pcs[me] == DeqRead(index) && old(head) <= index < head
      ensures outcome.Refused? ==> pcs[me] == DeqEmpty && NothingPublished(Past(|history| - 1))
      ensures outcome.Again? ==>
                && pcs[me].DeqLoadSeq? && pcs[me].at.index == index'
                && Retried(old(pcs[me].at), pcs[me].at, |old(glitches)| - |glitches|)
                && (|turns| < |old(turns)| || |glitches| < |old(glitches)|
                    || (|glitches| == |old(glitches)| && old(head) != index && head == index'))
      ensures !outcome.Again? ==> old(pcs[me].at).passes <= head - old(pcs[me].at).start + old(pcs[me].at).spurious
      ensures |turns| <= |old(turns)| && |glitches| <= |old(glitches)|
      ensures old(turns) == [] ==>
                && (Alone(old(View()), me) ==> Alone(View(), me))
                && tail == old(tail) && pushed == old(pushed)
                && (if outcome.Won?
                    then index == old(head) && old(head) < tail && head == old(head) + 1
                    else head == old(head))
                && (outcome.Again? ==> head == index')
                && (outcome.Refused? && Alone(old(View()), me) ==> tail == head)
    {
      hide Inv, Run, Access, NothingPublished, ValidCapacity;
      var sequence, seen := LoadSequence(me, index, residue);
      DequeueLoads(seen, me, residue);
      if sequence == index + 1 {
        var won, current, glitch, before := CasHead(me, index, residue);
        DequeueCompares(before, me, glitch, residue);
        outcome, index' := if won then Won else Again, current;
      } else if sequence < index + 1 {
        outcome, index' := Refused, index;
      } else {
        outcome := Again;
        index', seen := LoadHead(me, residue);
        DequeueReloads(seen, me, residue);
      }
    }

    /** try_dequeue. A result is the item of ticket `ticket`, which this call won; without one,
        `judged` counts the steps of the run up to the sequence load that decided it. */
    method TryDequeue(me: nat, residue: T) returns (result: Option<T>, passes: nat, ghost ticket: nat,
        ghost judged: nat)
      requires Valid() && me < |pcs| && LeaveAlone(turns, me) && pcs[me] == Idle
      modifies this, slots
      ensures Valid() && old(history) <= history && |pcs| == old(|pcs|) && pcs[me] == Idle
      ensures result.Some? ==> old(head) <= ticket < head <= |pushed| && result.value == pushed[ticket]
      ensures result.Some? ==> ticket in taken && taken[ticket] == result.value
      ensures result.None? ==> |old(history)| <= judged <= |history| && NothingPublished(Past(judged))
      ensures passes <= 1 + (head - old(head)) + |old(glitches)|
      ensures old(turns) == [] && Alone(old(View()), me) ==>
                && result.Some? == old(head < tail) && Alone(View(), me) && tail == old(tail) && pushed == old(pushed)
                && head == old(head) + (if result.Some? then 1 else 0)
                && (result.Some? ==> ticket == old(head))
    {
      hide Inv, Run, Access, NothingPublished, ValidCapacity;
      Local(me, Begin(Dequeue));
      var index, seen := LoadHead(me, residue);
      DequeueStarts(seen, me, residue);
      ghost var at := pcs[me].at;
      result, passes, ticket, judged := None, 0, 0, 0;
      while true
        invariant Valid() && me < |pcs| == old(|pcs|) && LeaveAlone(turns, me)
        invariant pcs[me] == DeqLoadSeq(at) && at.index == index && at.passes == passes
        invariant old(head) <= at.start && at.spurious + |glitches| <= |old(glitches)|
        invariant old(history) <= history && old(head) <= head
        invariant old(turns) == [] ==> turns == [] && head == old(head) && tail == old(tail) && pushed == old(pushed)
        invariant old(turns) == [] && Alone(old(View()), me) ==> Alone(View(), me)
        decreases |turns|, |glitches|, if head == index then 0 else 1
      {
        passes := passes + 1;
        var outcome, current := DequeuePass(me, index, residue);
        match outcome
        case Won =>
          ticket := index;
          var item := Drain(me, index, residue);
          return Some(item), passes, ticket, judged;
        case Refused =>
          judged := Refuse(me);
          return None, passes, ticket, judged;
        case Again =>
          index, at := current, pcs[me].at;
      }
    }

    lemma PastGrows(i: nat, j: nat)
      requires Inv(origin) && i <= j <= |history|
      ensures Past(i).head <= Past(j).head && Past(i).tail <= Past(j).tail && Past(i).head <= Past(i).tail
    {
      assert history[..j] == history[..i] + history[i..j];
      RunAppend(origin, history[..i], history[i..j]);
      RunKeepsInv(origin, history[..i]);
      CountersGrow(Past(i), history[i..j]);
    }

    /** size(). From the load of `head_`, after `first` steps of the run, to the load of `tail_`, after
        `last` steps, the result is at least the number of items at every instant. */
    method Size(me: nat, residue: T) returns (n: nat, ghost first: nat, ghost last: nat)
      requires Valid() && me < |pcs| && LeaveAlone(turns, me) && pcs[me] == Idle
      modifies this, slots
      ensures Valid() && |pcs| == old(|pcs|) && pcs[me] == Idle
      ensures old(history) <= history && |old(history)| <= first <= last <= |history|
      ensures n == Past(last).tail - Past(first).head
      ensures forall i :: first <= i <= last ==> n >= Past(i).tail - Past(i).head
      ensures n == 0 ==> forall i :: first <= i <= last ==> Past(i).tail == Past(i).head == Past(first).tail
      ensures old(turns) == [] ==> n == tail - head && head == old(head) && tail == old(tail) && pushed == old(pushed)
    {
      hide Inv, Run, ValidCapacity, Access;
      Local(me, Begin(QueueMachine.Size));
      var seenHead, before := LoadHead(me, residue);
      SizeLoads(before, me, residue);
      first := |history| - 1;
      ghost var start := history[..first];
      var seenTail, after := LoadTail(me, residue);
      SizeLoads(after, me, residue);
      last := |history| - 1;
      assert history[..first] == start;
      n := SizeResult(seenHead, seenTail);
      ghost var loaded := history[..last];
      Local(me, Return);
      assert history[..first] == start && history[..last] == loaded;
      SizeWindow(first, last);
    }

    lemma SizeWindow(first: nat, last: nat)
      requires Inv(origin) && first <= last <= |history|
      ensures var n := SizeResult(Past(first).head, Past(last).tail);
              && n == Past(last).tail - Past(first).head
              && (forall i :: first <= i <= last ==> n >= Past(i).tail - Past(i).head)
              && (n == 0 ==> forall i :: first <= i <= last ==> Past(i).tail == Past(i).head == Past(first).tail)
    {
      forall i | first <= i <= last
        ensures Past(first).head <= Past(i).head <= Past(i).tail <= Past(last).tail && Past(first).tail <= Past(i).tail
      {
        PastGrows(first, i);
        PastGrows(i, last);
      }
    }

    /** empty() */
    method Empty(me: nat, residue: T) returns (yes: bool, ghost first: nat, ghost last: nat)
      requires Valid() && me < |pcs| && LeaveAlone(turns, me) && pcs[me] == Idle
      modifies this, slots
      ensures Valid() && |pcs| == old(|pcs|) && pcs[me] == Idle
      ensures old(history) <= history && |old(history)| <= first <= last <= |history|
      ensures yes <==> Past(last).tail == Past(first).head
      ensures yes ==> forall i :: first <= i <= last ==> Past(i).tail == Past(i).head == Past(first).tail
      ensures old(turns) == [] ==> yes == (tail == head) && head == old(head) && tail == old(tail)
    {
      var n;
      n, first, last := Size(me, residue);
      yes := n == 0;
    }
  }

  datatype Outcome = Won | Refused | Again

  /** A retry counts one more pass; what it adds to the spurious failures is at most `glitches`. */
  predicate Retried(at: Attempt, at': Attempt, glitches: int) {
    at'.start == at.start && at'.passes == at.passes + 1 && at.spurious <= at'.spurious <= at.spurious + glitches
  }

  lemma SizeLoads<T>(s: State<T>, me: nat, residue: T)
    requires Inv(s) && me < |s.pcs| && (s.pcs[me].SizeLoadHead? || s.pcs[me].SizeLoadTail?)
    ensures Next(s, me, Advance(false, residue)) ==
              Goto(s, me, if s.pcs[me].SizeLoadHead? then SizeLoadTail(s.head)
                  else SizeDone(s.pcs[me].seenHead, s.tail))
    ensures s.head <= s.tail
  {
  }

  lemma EnqueueStarts<T>(s: State<T>, me: nat, residue: T)
    requires |s.slots| > 0 && me < |s.pcs| && s.pcs[me].EnqLoadTail?
    ensures Next(s, me, Advance(false, residue)) ==
              Goto(s, me, EnqLoadSeq(s.pcs[me].item, Attempt(s.tail, s.tail, 0, 0)))
  {
  }

  lemma EnqueueStores<T>(s: State<T>, me: nat, residue: T)
    requires Inv(s) && me < |s.pcs| && (s.pcs[me].EnqWrite? || s.pcs[me].EnqPublish?)
    ensures var pc, s' := s.pcs[me], Next(s, me, Advance(false, residue));
            && s'.pcs == s.pcs[me := if pc.EnqWrite? then EnqPublish(pc.item, pc.ticket) else EnqAccepted(pc.ticket)]
            && s'.head == s.head && s'.tail == s.tail == |s.pushed| && s'.pushed == s.pushed
  {
  }

  lemma EnqueueReloads<T>(s: State<T>, me: nat, residue: T)
    requires Inv(s) && me < |s.pcs| && s.pcs[me].EnqReload?
    ensures Next(s, me, Advance(false, residue)) ==
              Goto(s, me, EnqLoadSeq(s.pcs[me].item, s.pcs[me].at.(index := s.tail)))
    ensures s.head <= s.tail == |s.pushed|
  {
  }

  lemma EnqueueLoads<T>(s: State<T>, me: nat, residue: T)
    requires Inv(s) && me < |s.pcs| && s.pcs[me].EnqLoadSeq?
    ensures var at := s.pcs[me].at;
            var s' := Next(s, me, Advance(false, residue));
            && s' == Goto(s, me, EnqBranch(At(s, at.index).sequence - at.index, s.pcs[me].item,
                at.(passes := at.passes + 1)))
            && at.start <= at.index <= s.tail == |s.pushed| && at.passes <= at.index - at.start + at.spurious
            && (s'.pcs[me].EnqFull? <==> at.index == s.tail && LapUnreleased(s))
            && (s'.pcs[me].EnqReload? ==> at.index < s.tail)
            && (s'.pcs[me].EnqCas? && at.index == s.tail ==> s.tail < s.head + |s.slots|)
            && (Alone(s, me) ==> (s'.pcs[me].EnqFull? <==> at.index == s.tail && s.tail - s.head == |s.slots|))
  {
    assert PcOk(s, s.pcs[me]);
    EnqSequence(s, s.pcs[me].at.index);
    EnqueueFails(s, me, false, residue);
    if Alone(s, me) {
      FailureAlone(s, me, false, residue);
    }
  }

  lemma EnqueueCompares<T>(s: State<T>, me: nat, glitch: bool, residue: T)
    requires Inv(s) && me < |s.pcs| && s.pcs[me].EnqCas?
    ensures var at, item := s.pcs[me].at, s.pcs[me].item;
            && at.start <= at.index <= s.tail
            && |s.pushed| == s.tail
            && Next(s, me, Advance(glitch, residue)) ==
                 (if s.tail == at.index && !glitch
                  then Goto(s, me, EnqWrite(item, at.index)).(tail := at.index + 1, pushed := s.pushed + [item])
                  else Goto(s, me, EnqLoadSeq(item, Failed(at, s.tail))))
  {
    assert PcOk(s, s.pcs[me]);
  }

  /** The queue is empty, or its oldest item is claimed and not yet published. */
  ghost predicate NothingPublished<T>(s: State<T>) {
    s.head == s.tail || Filling(s, s.head)
  }

  lemma DequeueStarts<T>(s: State<T>, me: nat, residue: T)
    requires |s.slots| > 0 && me < |s.pcs| && s.pcs[me].DeqLoadHead?
    ensures Next(s, me, Advance(false, residue)) == Goto(s, me, DeqLoadSeq(Attempt(s.head, s.head, 0, 0)))
  {
  }

  lemma DequeueReloads<T>(s: State<T>, me: nat, residue: T)
    requires Inv(s) && me < |s.pcs| && s.pcs[me].DeqReload?
    ensures Next(s, me, Advance(false, residue)) == Goto(s, me, DeqLoadSeq(s.pcs[me].at.(index := s.head)))
    ensures s.head <= s.tail == |s.pushed|
  {
  }

  lemma DequeueLoads<T>(s: State<T>, me: nat, residue: T)
    requires Inv(s) && me < |s.pcs| && s.pcs[me].DeqLoadSeq?
    ensures var at := s.pcs[me].at;
            var s' := Next(s, me, Advance(false, residue));
            && s' == Goto(s, me, DeqBranch(At(s, at.index).sequence - (at.index + 1), at.(passes := at.passes + 1)))
            && at.start <= at.index <= s.head && at.passes <= at.index - at.start + at.spurious
            && s.head <= s.tail == |s.pushed|
            && (s'.pcs[me].DeqEmpty? <==> at.index == s.head && NothingPublished(s))
            && (s'.pcs[me].DeqReload? ==> at.index < s.head)
            && (s'.pcs[me].DeqCas? && at.index == s.head ==> s.head < s.tail)
            && (Alone(s, me) ==> (s'.pcs[me].DeqEmpty? <==> at.index == s.head && s.tail == s.head))
  {
    assert PcOk(s, s.pcs[me]);
    DeqSequence(s, s.pcs[me].at.index);
    DequeueFails(s, me, false, residue);
    if Alone(s, me) {
      FailureAlone(s, me, false, residue);
    }
  }

  lemma DequeueCompares<T>(s: State<T>, me: nat, glitch: bool, residue: T)
    requires Inv(s) && me < |s.pcs| && s.pcs[me].DeqCas?
    ensures var at := s.pcs[me].at;
            && at.start <= at.index <= s.head <= s.tail == |s.pushed|
            && (s.head == at.index ==> s.head < s.tail)
            && Next(s, me, Advance(glitch, residue)) ==
                 (if s.head == at.index && !glitch
                  then Goto(s, me, DeqRead(at.index)).(head := at.index + 1)
                  else Goto(s, me, DeqLoadSeq(Failed(at, s.head))))
  {
    assert PcOk(s, s.pcs[me]);
    DeqSequence(s, s.pcs[me].at.index);
  }

  lemma DequeueReads<T>(s: State<T>, me: nat, residue: T)
    requires Inv(s) && me < |s.pcs| && s.pcs[me].DeqRead?
    ensures var k, s' := s.pcs[me].ticket, Next(s, me, Advance(false, residue));
            && k < s.head <= |s.pushed| && At(s, k).data == s.pushed[k]
            && s'.pcs == s.pcs[me := DeqRelease(k, s.pushed[k])]
            && s'.head == s.head && s'.tail == s.tail && s'.pushed == s.pushed && s'.taken == s.taken
  {
    assert PcOk(s, s.pcs[me]);
  }

  lemma DequeueReleases<T>(s: State<T>, me: nat, residue: T)
    requires Inv(s) && me < |s.pcs| && s.pcs[me].DeqRelease?
    ensures var k, s' := s.pcs[me].ticket, Next(s, me, Advance(false, residue));
            && k < s.head <= |s.pushed| && s.pcs[me].got == s.pushed[k]
            && s'.pcs == s.pcs[me := DeqTaken(k, s.pushed[k])]
            && s'.head == s.head && s'.tail == s.tail && s'.pushed == s.pushed && s'.taken == s.taken[k := s.pushed[k]]
  {
    assert PcOk(s, s.pcs[me]);
  }
}
