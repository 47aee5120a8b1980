/**
 * The ring buffer of queue.c.  `AddOnce` and `RemoveOnce` are what a thread does between taking the
 * mutex (or waking up) and giving it back: each is proved to be one pass of the queue machine.
 */
module BlockingQueueObject {
  import opened QueueMachine
  import opened RingIndex

  datatype Outcome = Slept | Added(broadcast: bool) | Removed(sock: int, broadcast: bool)

  class Queue {
    const q: array<int>
    const maxSize: nat           // uint32_t
    var size: nat
    var next: nat
    var first: nat

    ghost predicate Valid()
      reads this
    {
      && q.Length == maxSize && size <= maxSize
      && (if maxSize == 0 then first == 0 && next == 0 else first < maxSize && next == Wrap(first + size, maxSize))
    }

    /** The queued sockets, oldest first. */
    ghost function Contents(): (s: seq<int>)
      requires Valid()
      reads this, q
      ensures |s| == size && forall i :: 0 <= i < size ==> s[i] == q[Wrap(first + i, maxSize)]
    {
      seq(size, i requires Valid() && 0 <= i < size reads this, q => q[Wrap(first + i, maxSize)])
    }

    constructor (capacity: nat)
      ensures Valid() && fresh(q) && maxSize == capacity % 0x1_0000_0000 && Contents() == []
    {
      maxSize := capacity % 0x1_0000_0000;
      q := new int[capacity % 0x1_0000_0000](_ => 0);
      size, first, next := 0, 0, 0;
    }

    predicate IsFull()
      reads this
    {
      first == next && size > 0
    }

    predicate IsEmpty()
      reads this
    {
      first == next && size == 0
    }

    /** The index tests of the source say what the count says. */
    lemma {:induction false} IndexTests()
      requires Valid()
      ensures IsEmpty() <==> Contents() == []
      ensures IsFull() <==> |Contents()| == maxSize > 0
    {
    }

    method AdvanceNext()
      requires Valid() && size < maxSize
      modifies this`next
      ensures next == Wrap(first + size + 1, maxSize)
    {
      IndexTests();
      assert !IsFull();
      WrapIsMod(next + 1, maxSize);
      next := (next + 1) % maxSize;
    }

    method AdvanceFirst()
      requires Valid() && size > 0
      modifies this`first
      ensures first == Wrap(old(first) + 1, maxSize)
    {
      IndexTests();
      assert !IsEmpty();
      WrapIsMod(first + 1, maxSize);
      first := (first + 1) % maxSize;
    }

    method AddOnce(sock: int) returns (o: Outcome)
      requires Valid()
      modifies this`size, this`next, q
      ensures Valid()
      ensures match AddPass(old(Contents()), maxSize, sock)
              case Wait => o == Slept && Contents() == old(Contents())
              case Done(queue, broadcast) => o == Added(broadcast) && Contents() == queue
      ensures o == if |old(Contents())| == maxSize then Slept else Added(old(Contents()) == [])
      ensures o.Added? ==> Contents() == old(Contents()) + [sock]
    {
      if size == maxSize {
        return Slept;
      }
      q[next] := sock;
      AdvanceNext();
      size := size + 1;
      o := Added(size == 1);
    }

    method RemoveOnce() returns (o: Outcome)
      requires Valid()
      modifies this`size, this`first
      ensures Valid()
      ensures match RemovePass(old(Contents()), maxSize)
              case Wait => o == Slept && Contents() == old(Contents())
              case Done(queue, broadcast) => o == Removed(old(Contents())[0], broadcast) && Contents() == queue
      ensures o == if old(Contents()) == [] then Slept else Removed(old(Contents())[0], true)
      ensures o.Removed? ==> Contents() == old(Contents())[1..]
    {
      IndexTests();
      if IsEmpty() {
        return Slept;
      }
      var r := q[first];
      AdvanceFirst();
      size := size - 1;
      o := Removed(r, size < maxSize);
    }
  }
}
