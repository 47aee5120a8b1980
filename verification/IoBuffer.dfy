/** The IOBuffer of iobuffer.c: a block of memory with a read offset and a count of unread bytes. */
module IoBufferObject {
  import opened Common

  /**
   * The unread bytes `d` after a commit at read offset `off`.  The terminator is written at distance
   * |d| from the start of the memory rather than from the read offset, so at a positive offset it may
   * fall on an unread byte.
   */
  function Terminated(off: nat, d: Bytes): (r: Bytes)
    ensures |r| == |d|
  {
    if off == 0 || |d| < off then d else d[|d| - off := 0]
  }

  /** A commit keeps the data exactly when the terminator misses it or falls on a zero. */
  lemma {:induction false} TerminatorMisses(off: nat, d: Bytes)
    ensures Terminated(off, d) == d <==> off == 0 || |d| < off || d[|d| - off] == 0
  {
    if off != 0 && off <= |d| {
      assert Terminated(off, d)[|d| - off] == 0;
    }
  }

  class IOBuffer {
    const capacity: nat
    const mem: array<Byte>          // one byte more than the capacity, for a terminator
    var ptr: nat                    // read offset: buffer_ptr - mem_p
    var remaining: nat

    ghost predicate Valid()
      reads this
    {
      mem.Length == capacity + 1 && ptr + remaining <= capacity
    }

    /** The bytes not yet consumed. */
    ghost function Data(): (d: Bytes)
      requires Valid()
      reads this, mem
      ensures |d| == remaining
    {
      mem[ptr..ptr + remaining]
    }

    constructor (capacity: nat)
      ensures Valid() && this.capacity == capacity && fresh(mem) && ptr == 0 && Data() == []
    {
      this.capacity := capacity;
      mem := new Byte[capacity + 1](_ => 0);
      ptr, remaining := 0, 0;
    }

    method SpaceLen() returns (n: nat)
      requires Valid()
      ensures n == capacity - ptr - remaining
    {
      n := capacity - (ptr + remaining);
    }

    /** `n` bytes have been placed in the space by the caller. */
    method Commit(n: nat)
      requires Valid() && 0 < n <= capacity - ptr - remaining
      modifies this`remaining, mem
      ensures Valid() && remaining == old(remaining) + n
      ensures Data() == Terminated(ptr, old(mem[ptr..ptr + remaining + n]))
      ensures forall i :: 0 <= i < mem.Length && i != remaining ==> mem[i] == old(mem[i])
    {
      assert n > 0;
      remaining := remaining + n;
      mem[remaining] := 0;
    }

    method DataAdd(p: Bytes)
      requires Valid() && 0 < |p| <= capacity - ptr - remaining
      modifies this`remaining, mem
      ensures Valid() && Data() == Terminated(ptr, old(Data()) + p)
    {
      var at := ptr + remaining;
      for i := 0 to |p|
        invariant forall k :: 0 <= k < i ==> mem[at + k] == p[k]
        invariant forall k :: 0 <= k < at ==> mem[k] == old(mem[k])
        modifies mem
      {
        mem[at + i] := p[i];
      }
      assert mem[ptr..at + |p|] == old(Data()) + p;
      Commit(|p|);
    }

    method Consume(n: nat)
      requires Valid() && n <= remaining
      modifies this`ptr, this`remaining
      ensures Valid() && Data() == old(Data())[n..]
      ensures ptr == if remaining == 0 then 0 else old(ptr) + n
    {
      ptr := ptr + n;
      assert ptr <= capacity;
      remaining := remaining - n;
      assert remaining >= 0;
      if remaining == 0 {
        ptr := 0;
      }
    }

    method Reset()
      requires Valid()
      modifies this`ptr, this`remaining
      ensures Valid() && Data() == [] && ptr == 0
    {
      ptr, remaining := 0, 0;
    }

    method Dup() returns (b: IOBuffer)
      requires Valid()
      ensures b.Valid() && fresh(b) && fresh(b.mem) && b.Data() == Data() && b.ptr == ptr && b.capacity == capacity
    {
      b := new IOBuffer(capacity);
      for i := 0 to mem.Length
        invariant forall k :: 0 <= k < i ==> b.mem[k] == mem[k]
        modifies b.mem
      {
        b.mem[i] := mem[i];
      }
      b.remaining := remaining;
      b.ptr := ptr;
    }
  }

  /** Three bytes added, two read, one more added: the byte that was left is overwritten by the terminator. */
  method TerminatorExample() returns (b: IOBuffer)
    ensures fresh(b) && b.Valid() && b.ptr == 2 && b.Data() == [0, 8]
  {
    b := new IOBuffer(8);
    b.DataAdd([5, 6, 7]);
    assert [] + [5, 6, 7] == [5, 6, 7];
    b.Consume(2);
    assert [5, 6, 7][2..] == [7];
    b.DataAdd([8]);
    assert [7] + [8] == [7, 8];
  }
}
