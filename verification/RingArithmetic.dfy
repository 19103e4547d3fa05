/** Index and sequence arithmetic of the ring buffer: the mask that stands for a modulo, and the
    signed comparison of two 64-bit counters. */
module RingArithmetic {
  const WORD := 0x1_0000_0000_0000_0000
  const HALF := 0x8000_0000_0000_0000

  /** `x & y` on natural numbers of any width. */
  function BitAnd(x: nat, y: nat): (r: nat)
    ensures r <= x && r <= y
  {
    if x == 0 || y == 0 then 0
    else 2 * BitAnd(x / 2, y / 2) + (if x % 2 == 1 && y % 2 == 1 then 1 else 0)
  }

  /** The two compile-time checks on the queue's capacity. */
  predicate ValidCapacity(capacity: nat) {
    capacity >= 2 && BitAnd(capacity, capacity - 1) == 0
  }

  /** The value of a 64-bit word read as a two's complement number. */
  function Signed(x: nat): int {
    if x % WORD < HALF then x % WORD else x % WORD - WORD
  }

  /** The arithmetic a run of the queue uses: mathematical, or that of 64-bit words. */
  datatype Arith = Unbounded | Word64 {
    function Add(x: nat, y: nat): nat {
      match this
      case Unbounded => x + y
      case Word64 => (x + y) % WORD
    }

    function Index(x: nat, capacity: nat): (i: nat)
      requires capacity > 0
      ensures i < capacity
    {
      match this
      case Unbounded => Slot(x, capacity)
      case Word64 => BitAnd(x, capacity - 1)
    }

    function Diff(x: nat, y: nat): int {
      match this
      case Unbounded => x - y
      case Word64 => Signed(x) - Signed(y)
    }
  }

  /** The slot that ticket `x` uses, found by stepping back whole laps. */
  function Slot(x: nat, capacity: nat): (i: nat)
    requires capacity > 0
    ensures i < capacity
  {
    if x < capacity then x else Slot(x - capacity, capacity)
  }

  lemma {:induction false} BitAndSelf(x: nat)
    ensures BitAnd(x, x) == x
  {
    if x > 0 {
      BitAndSelf(x / 2);
    }
  }

  /** For a capacity that passes the compile-time checks, masking is the modulo. */
  lemma {:induction false} MaskIsModulo(x: nat, capacity: nat)
    requires capacity > 0 && BitAnd(capacity, capacity - 1) == 0
    ensures BitAnd(x, capacity - 1) == x % capacity
  {
    if capacity == 1 {
      assert BitAnd(x, 0) == 0;
    } else if capacity % 2 == 1 {
      var d := capacity / 2;
      assert (capacity - 1) / 2 == d && (capacity - 1) % 2 == 0;
      BitAndSelf(d);
      assert false;
    } else {
      var d := capacity / 2;
      assert (capacity - 1) / 2 == d - 1 && (capacity - 1) % 2 == 1;
      MaskIsModulo(x / 2, d);
      HalveModulo(x, d);
    }
  }

  lemma HalveModulo(x: nat, d: nat)
    requires d > 0
    ensures x % (2 * d) == 2 * ((x / 2) % d) + x % 2
  {
    var q, r := (x / 2) / d, (x / 2) % d;
    assert x == (2 * d) * q + (2 * r + x % 2);
    ModuloUnique(x, 2 * d, q, 2 * r + x % 2);
  }

  lemma MultipleBounds(m: nat, d: int)
    ensures d >= 1 ==> m * d >= m
    ensures d <= -1 ==> m * d + m <= 0
    ensures d == 0 ==> m * d == 0
  {
  }

  lemma ModuloUnique(x: int, m: nat, q: int, r: nat)
    requires r < m && x == m * q + r
    ensures x % m == r
  {
    var d := q - x / m;
    assert m * d == m * q - m * (x / m);
    MultipleBounds(m, d);
  }

  lemma {:induction false} SlotIsModulo(x: nat, capacity: nat)
    requires capacity > 0
    ensures Slot(x, capacity) == x % capacity
  {
    if x >= capacity {
      SlotIsModulo(x - capacity, capacity);
      var y := x - capacity;
      assert x == capacity * (y / capacity + 1) + y % capacity by {
        assert capacity * (y / capacity + 1) == capacity * (y / capacity) + capacity;
      }
      ModuloUnique(x, capacity, y / capacity + 1, y % capacity);
    }
  }

  /** Tickets less than one lap apart use different slots. */
  lemma {:induction false} SlotInjective(x: nat, y: nat, capacity: nat)
    requires capacity > 0 && x < y < x + capacity
    ensures Slot(x, capacity) != Slot(y, capacity)
  {
    if x >= capacity {
      SlotInjective(x - capacity, y - capacity, capacity);
    }
  }

  /** For a capacity that passes the compile-time checks, the masked index is the slot. */
  lemma MaskIsSlot(x: nat, capacity: nat)
    requires ValidCapacity(capacity)
    ensures BitAnd(x, capacity - 1) == Slot(x, capacity)
  {
    MaskIsModulo(x, capacity);
    SlotIsModulo(x, capacity);
  }

  /** While counters stay below 2^63 the word arithmetic of the code is the mathematical one. */
  lemma WordsAgree(x: nat, y: nat, capacity: nat)
    requires ValidCapacity(capacity) && x < HALF && y < HALF
    ensures Word64.Add(x, y) == Unbounded.Add(x, y)
    ensures Word64.Index(x, capacity) == Unbounded.Index(x, capacity)
    ensures Word64.Diff(x, y) == Unbounded.Diff(x, y)
  {
    hide BitAnd, Slot, ValidCapacity;
    MaskIsSlot(x, capacity);
    SmallWord(x + y);
    SmallWord(x);
    SmallWord(y);
  }

  lemma SmallWord(x: nat)
    requires x < WORD
    ensures x % WORD == x
  {
  }
}
