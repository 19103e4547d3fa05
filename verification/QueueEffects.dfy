/** A step of the ring buffer's machine as its callers see it. */
module QueueEffects {
  import opened Tally
  import opened QueueMachine
  import opened QueueInvariant

  /** In try_enqueue with an item that is not claimed a ticket for yet. */
  predicate Offering<T>(pc: Pc<T>) {
    pc.EnqLoadTail? || pc.EnqLoadSeq? || pc.EnqCas? || pc.EnqReload?
  }

  /** In try_enqueue, past the winning compare-exchange. */
  predicate Won<T>(pc: Pc<T>) {
    pc.EnqWrite? || pc.EnqPublish? || pc.EnqAccepted?
  }

  /** In try_dequeue, before the winning compare-exchange. */
  predicate Seeking<T>(pc: Pc<T>) {
    pc.DeqLoadHead? || pc.DeqLoadSeq? || pc.DeqCas? || pc.DeqReload?
  }

  /** In try_dequeue, past the winning compare-exchange. */
  predicate Took<T>(pc: Pc<T>) {
    pc.DeqRead? || pc.DeqRelease? || pc.DeqTaken?
  }

  predicate Sizing<T>(pc: Pc<T>) {
    pc.SizeLoadHead? || pc.SizeLoadTail? || pc.SizeDone?
  }

  /** An access of thread `t` keeps it in its operation; `tail_` counts the enqueuers that won and
      `head_` the dequeuers that won. */
  lemma AdvanceEffect<T>(s: State<T>, t: nat, spurious: bool, residue: T)
    requires Inv(s) && t < |s.pcs| && !Done(s.pcs[t]) && !s.pcs[t].Idle?
    ensures var s', pc := Next(s, t, Advance(spurious, residue)), s.pcs[t];
            var pc' := s'.pcs[t];
            && Inv(s') && |s'.slots| == |s.slots| && s'.pcs == s.pcs[t := pc']
            && s'.tail + Bit(Won(pc)) == s.tail + Bit(Won(pc'))
            && s'.head + Bit(Took(pc)) == s.head + Bit(Took(pc'))
            && s'.pushed == s.pushed + (if s'.tail > s.tail && pc.EnqCas? then [pc.item] else [])
            && (s'.tail > s.tail ==> pc.EnqCas?)
            && (Offering(pc) ==> (Offering(pc') && pc'.item == pc.item) || pc'.EnqFull? || Won(pc'))
            && (Won(pc) ==> Won(pc'))
            && (Seeking(pc) ==> Seeking(pc') || pc'.DeqEmpty? || (Took(pc') && pc'.ticket == s.head))
            && (Took(pc) ==> Took(pc') && pc'.ticket == pc.ticket)
            && (Sizing(pc) ==> Sizing(pc') && (pc'.SizeDone? ==> pc.SizeLoadTail?))
  {
    hide Inv;
    StepKeepsInv(s, t, Advance(spurious, residue));
  }

  /** What a thread that has an item, or a size, knows about it. */
  lemma Results<T>(s: State<T>, t: nat)
    requires Inv(s) && t < |s.pcs|
    ensures s.head <= s.tail == |s.pushed|
    ensures Took(s.pcs[t]) ==> s.pcs[t].ticket < s.head
    ensures s.pcs[t].DeqTaken? ==> s.pcs[t].got == s.pushed[s.pcs[t].ticket]
    ensures s.pcs[t].SizeLoadTail? ==> s.pcs[t].seenHead <= s.head
    ensures s.pcs[t].SizeDone? ==> s.pcs[t].seenHead <= s.head && s.pcs[t].seenTail <= s.tail
  {
    assert PcOk(s, s.pcs[t]);
  }

  /** The load of `tail_` that ends a size(): an empty result means that the queue is empty right then. */
  lemma SizeEnds<T>(s: State<T>, t: nat, spurious: bool, residue: T)
    requires Inv(s) && t < |s.pcs| && s.pcs[t].SizeLoadTail?
    ensures var s' := Next(s, t, Advance(spurious, residue));
            && s'.pcs[t] == SizeDone(s.pcs[t].seenHead, s.tail) && s'.tail == s.tail && s'.head == s.head
            && (SizeResult(s.pcs[t].seenHead, s.tail) == 0 ==> s.head == s.tail)
  {
    assert PcOk(s, s.pcs[t]);
  }

  /** Entering and leaving an operation. */
  lemma LocalEffect<T>(s: State<T>, t: nat, mv: Move<T>)
    requires Inv(s) && t < |s.pcs| && ((mv.Begin? && s.pcs[t].Idle?) || (mv.Return? && Done(s.pcs[t])))
    ensures Inv(Next(s, t, mv))
    ensures Next(s, t, mv) == Goto(s, t, if mv.Begin? then Start(mv.op) else Idle)
  {
    StepKeepsInv(s, t, mv);
  }
}
