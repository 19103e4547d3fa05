/** The lock-free ring buffer as a step machine: any number of threads, one atomic access a step.

    A ticket is the value of `tail_` that an enqueuer claimed, or of `head_` that a dequeuer
    claimed. `pushed[k]` records the item of the enqueuer that claimed ticket `k`, `taken[k]` the
    item that the dequeuer of ticket `k` got; the code has neither. */
module QueueMachine {
  import opened RingArithmetic

  datatype Option<T> = None | Some(value: T)

  datatype Cell<T> = Cell(sequence: nat, data: T)

  /** A pass of a retry loop: the local copy of the shared index, its value at the first load, how
      often the loop body was entered, and how many compare-exchanges failed for no reason. */
  datatype Attempt = Attempt(index: nat, start: nat, passes: nat, spurious: nat)

  /** Where a thread is; each constructor names the atomic access that comes next. */
  datatype Pc<T> =
    | Idle
    | EnqLoadTail(item: T)
    | EnqLoadSeq(item: T, at: Attempt)
    | EnqCas(item: T, at: Attempt)
    | EnqReload(item: T, at: Attempt)
    | EnqWrite(item: T, ticket: nat)
    | EnqPublish(item: T, ticket: nat)
    | EnqAccepted(ticket: nat)
    | EnqFull
    | DeqLoadHead
    | DeqLoadSeq(at: Attempt)
    | DeqCas(at: Attempt)
    | DeqReload(at: Attempt)
    | DeqRead(ticket: nat)
    | DeqRelease(ticket: nat, got: T)
    | DeqTaken(ticket: nat, got: T)
    | DeqEmpty
    | SizeLoadHead
    | SizeLoadTail(seenHead: nat)
    | SizeDone(seenHead: nat, seenTail: nat)

  datatype Op<T> = Enqueue(item: T) | Dequeue | Size

  /** What a scheduled thread does. `spurious` lets a weak compare-exchange fail although the value
      matches; `residue` is what moving an item out of its cell leaves there. */
  datatype Move<T> = Begin(op: Op<T>) | Advance(spurious: bool, residue: T) | Return

  datatype State<T> = State(slots: seq<Cell<T>>, head: nat, tail: nat, pcs: seq<Pc<T>>,
                            pushed: seq<T>, taken: map<nat, T>)

  function Init<T>(capacity: nat, threads: nat, blank: T): (s: State<T>)
    ensures |s.slots| == capacity && |s.pcs| == threads
  {
    State(seq(capacity, i requires 0 <= i => Cell(i, blank)), 0, 0, seq(threads, _ => Idle), [], map[])
  }

  predicate Done<T>(pc: Pc<T>) {
    pc.EnqAccepted? || pc.EnqFull? || pc.DeqTaken? || pc.DeqEmpty? || pc.SizeDone?
  }

  /** `size()` as computed from its two loads. */
  function SizeResult(seenHead: nat, seenTail: nat): nat {
    if seenTail > seenHead then seenTail - seenHead else 0
  }

  function Start<T>(op: Op<T>): Pc<T> {
    match op
    case Enqueue(item) => EnqLoadTail(item)
    case Dequeue => DeqLoadHead
    case Size => SizeLoadHead
  }

  function Goto<T>(s: State<T>, t: nat, pc: Pc<T>): State<T>
    requires t < |s.pcs|
  {
    s.(pcs := s.pcs[t := pc])
  }

  /** After a compare-exchange that failed: the code's `expected` now holds the current value. */
  function Failed(at: Attempt, current: nat): Attempt {
    at.(index := current, spurious := at.spurious + if current == at.index then 1 else 0)
  }

  /** The branch that try_enqueue takes on the slot's sequence number. */
  function EnqBranch<T>(diff: int, item: T, at: Attempt): Pc<T> {
    if diff == 0 then EnqCas(item, at) else if diff < 0 then EnqFull else EnqReload(item, at)
  }

  /** The branch that try_dequeue takes on the slot's sequence number. */
  function DeqBranch<T>(diff: int, at: Attempt): Pc<T> {
    if diff == 0 then DeqCas(at) else if diff < 0 then DeqEmpty else DeqReload(at)
  }

  /** One step of thread `t`. A move that its program counter does not allow leaves the state as it is. */
  function Step<T>(ar: Arith, s: State<T>, t: nat, mv: Move<T>): (s': State<T>)
    requires |s.slots| > 0
    ensures |s'.slots| == |s.slots| && |s'.pcs| == |s.pcs|
  {
    if t >= |s.pcs| then s
    else
      var pc := s.pcs[t];
      match mv
      case Begin(op) => if pc.Idle? then Goto(s, t, Start(op)) else s
      case Return => if Done(pc) then Goto(s, t, Idle) else s
      case Advance(spurious, residue) => Access(ar, s, t, spurious, residue)
  }

  function Access<T>(ar: Arith, s: State<T>, t: nat, spurious: bool, residue: T): (s': State<T>)
    requires |s.slots| > 0 && t < |s.pcs|
    ensures |s'.slots| == |s.slots| && |s'.pcs| == |s.pcs|
  {
    var capacity := |s.slots|;
    match s.pcs[t]
    case EnqLoadTail(item) => Goto(s, t, EnqLoadSeq(item, Attempt(s.tail, s.tail, 0, 0)))
    case EnqLoadSeq(item, at) =>
      var sequence := s.slots[ar.Index(at.index, capacity)].sequence;
      Goto(s, t, EnqBranch(ar.Diff(sequence, at.index), item, at.(passes := at.passes + 1)))
    case EnqCas(item, at) =>
      if s.tail == at.index && !spurious
      then Goto(s, t, EnqWrite(item, at.index)).(tail := ar.Add(at.index, 1), pushed := s.pushed + [item])
      else Goto(s, t, EnqLoadSeq(item, Failed(at, s.tail)))
    case EnqReload(item, at) => Goto(s, t, EnqLoadSeq(item, at.(index := s.tail)))
    case EnqWrite(item, k) =>
      var i := ar.Index(k, capacity);
      Goto(s, t, EnqPublish(item, k)).(slots := s.slots[i := s.slots[i].(data := item)])
    case EnqPublish(item, k) =>
      var i := ar.Index(k, capacity);
      Goto(s, t, EnqAccepted(k)).(slots := s.slots[i := s.slots[i].(sequence := ar.Add(k, 1))])
    case DeqLoadHead => Goto(s, t, DeqLoadSeq(Attempt(s.head, s.head, 0, 0)))
    case DeqLoadSeq(at) =>
      var sequence := s.slots[ar.Index(at.index, capacity)].sequence;
      Goto(s, t, DeqBranch(ar.Diff(sequence, ar.Add(at.index, 1)), at.(passes := at.passes + 1)))
    case DeqCas(at) =>
      if s.head == at.index && !spurious
      then Goto(s, t, DeqRead(at.index)).(head := ar.Add(at.index, 1))
      else Goto(s, t, DeqLoadSeq(Failed(at, s.head)))
    case DeqReload(at) => Goto(s, t, DeqLoadSeq(at.(index := s.head)))
    case DeqRead(k) =>
      var i := ar.Index(k, capacity);
      Goto(s, t, DeqRelease(k, s.slots[i].data)).(slots := s.slots[i := s.slots[i].(data := residue)])
    case DeqRelease(k, got) =>
      var i := ar.Index(k, capacity);
      Goto(s, t, DeqTaken(k, got)).(slots := s.slots[i := s.slots[i].(sequence := ar.Add(k, capacity))],
                                    taken := s.taken[k := got])
    case SizeLoadHead => Goto(s, t, SizeLoadTail(s.head))
    case SizeLoadTail(seenHead) => Goto(s, t, SizeDone(seenHead, s.tail))
    case _ => s
  }

  /** One step of the machine with unbounded counters. */
  function Next<T>(s: State<T>, t: nat, mv: Move<T>): (s': State<T>)
    requires |s.slots| > 0
    ensures |s'.slots| == |s.slots| && |s'.pcs| == |s.pcs|
  {
    Step(Unbounded, s, t, mv)
  }

  /** A schedule: which thread does what, in order. */
  type Schedule<T> = seq<(nat, Move<T>)>

  function Run<T>(ar: Arith, s: State<T>, moves: Schedule<T>): (s': State<T>)
    requires |s.slots| > 0
    ensures |s'.slots| == |s.slots| && |s'.pcs| == |s.pcs|
  {
    if moves == [] then s
    else
      var last := |moves| - 1;
      Step(ar, Run(ar, s, moves[..last]), moves[last].0, moves[last].1)
  }
}
