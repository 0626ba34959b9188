/** The width of the repository's counters, and facts about ring slots and sequences that several modules use. */
module Basics {

  const MAX_U64 := 0xFFFF_FFFF_FFFF_FFFF

  lemma Reassociate<T>(a: seq<T>, b: seq<T>, c: seq<T>)
    ensures a + b + c == a + (b + c)
  {
  }

  /** Positions less than a whole turn apart use different slots of a ring. */
  lemma SlotsDiffer(capacity: nat, i: nat, j: nat)
    requires i < j < i + capacity
    ensures i % capacity != j % capacity
  {
    if i % capacity == j % capacity { NoTurn(capacity, j / capacity - i / capacity, j - i); }
  }

  /** The only multiple of the capacity within one turn of zero is zero. */
  lemma NoTurn(capacity: nat, turns: int, difference: int)
    requires difference == capacity * turns && 0 - capacity < difference < capacity
    ensures turns == 0 && difference == 0
  {
  }

  /** Counting on from a slot is counting on from the position that it holds. */
  lemma NextSlot(capacity: nat, i: nat, k: nat)
    requires capacity > 0
    ensures (i % capacity + k) % capacity == (i + k) % capacity
  {
    var j := i % capacity + k;
    NoTurn(capacity, i / capacity + j / capacity - (i + k) / capacity, (i + k) % capacity - j % capacity);
  }
}
