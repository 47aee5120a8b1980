/** Index arithmetic shared by the circular buffers. */
module RingIndex {

  /** One step around a ring as a conditional subtraction. */
  function Wrap(x: int, capacity: int): (r: int)
    requires 0 < capacity && 0 <= x < 2 * capacity
    ensures 0 <= r < capacity
  {
    if x < capacity then x else x - capacity
  }

  lemma {:induction false} WrapIsMod(x: int, capacity: int)
    requires 0 < capacity && 0 <= x < 2 * capacity
    ensures x % capacity == Wrap(x, capacity)
  {
    if x >= capacity {
      assert x == (x - capacity) + capacity * 1;
      assert x % capacity == (x - capacity) % capacity;
    }
  }
}
