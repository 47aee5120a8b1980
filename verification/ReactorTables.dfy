/**
 * The reactor's two containers as the source has them: the circular ready list of functor_list.c and
 * the descriptor table of fdtable.c.
 */
module ReactorTables {
  import opened Common
  import opened AsyncTypes
  import opened ReactorMachine
  import opened RingIndex

  /** The `n` items that follow slot `before` in a ring. */
  function Ring<T>(slots: seq<T>, before: int, n: nat, capacity: int): (s: seq<T>)
    requires 0 < capacity <= |slots| && 0 <= before < capacity && n < capacity
    ensures |s| == n && forall i :: 0 <= i < n ==> s[i] == slots[Wrap(before + 1 + i, capacity)]
  {
    seq(n, i requires 0 <= i < n => slots[Wrap(before + 1 + i, capacity)])
  }

  /**
   * head is the slot of the newest item, tailPlus the slot before the oldest; equal means empty, so
   * the ring holds one item less than its capacity.
   */
  class FunctorList {
    const capacity: int
    const list: array<Functor>
    var head: int
    var tailPlus: int

    ghost predicate Valid()
      reads this
    {
      0 < capacity && list.Length == capacity + 1 && 0 <= head < capacity && 0 <= tailPlus < capacity
    }

    ghost function Length(): (n: nat)
      requires Valid()
      reads this
      ensures n < capacity
    {
      Wrap(head + capacity - tailPlus, capacity)
    }

    /** The queued functors, oldest first. */
    ghost function Contents(): (s: seq<Functor>)
      requires Valid()
      reads this, list
      ensures |s| == Length()
    {
      Ring(list[..], tailPlus, Length(), capacity)
    }

    constructor (capacity: int, initial: Functor)
      requires 0 < capacity <= READY_LIST_MAX
      ensures Valid() && fresh(list) && this.capacity == capacity && Contents() == []
    {
      this.capacity := capacity;
      head, tailPlus := 0, 0;
      list := new Functor[capacity + 1](_ => initial);
    }

    method Size() returns (n: int)
      requires Valid()
      ensures n == |Contents()|
    {
      WrapIsMod(head + capacity - tailPlus, capacity);
      n := (head + capacity - tailPlus) % capacity;
    }

    method Add(f: Functor)
      requires Valid() && |Contents()| < capacity - 1
      modifies this`head, list
      ensures Valid() && Contents() == old(Contents()) + [f]
    {
      WrapIsMod(head + 1, capacity);
      var tmp := (head + 1) % capacity;
      assert tmp != tailPlus;
      head := tmp;
      list[head] := f;
    }

    method Remove() returns (f: Functor)
      requires Valid() && |Contents()| > 0
      modifies this`tailPlus
      ensures Valid() && f == old(Contents())[0] && Contents() == old(Contents())[1..]
    {
      WrapIsMod(tailPlus + 1, capacity);
      var tmp := (tailPlus + 1) % capacity;
      tailPlus := tmp;
      f := list[tmp];
    }
  }

  /** The watchers by descriptor. */
  class FdTable {
    const entries: array<Option<Watcher>>
    var count: nat

    ghost function Entries(): map<Fd, Watcher>
      reads this, entries
    {
      map fd: nat | 0 <= fd < entries.Length && entries[fd].Some? :: entries[fd].value
    }

    ghost predicate Valid()
      reads this, entries
    {
      entries.Length == FDTABLE_MAX && count == |Entries()|
    }

    constructor ()
      ensures Valid() && fresh(entries) && Entries() == map[]
    {
      entries := new Option<Watcher>[FDTABLE_MAX](_ => None);
      count := 0;
    }

    method Insert(w: Watcher, fd: Fd)
      requires Valid() && fd < FDTABLE_MAX && fd !in Entries()
      modifies this`count, entries
      ensures Valid() && Entries() == old(Entries())[fd := w]
    {
      assert entries[fd] == None;
      entries[fd] := Some(w);
      count := count + 1;
      assert Entries() == old(Entries())[fd := w];
    }

    method Remove(fd: Fd)
      requires Valid() && fd in Entries()
      modifies this`count, entries
      ensures Valid() && Entries() == old(Entries()) - {fd}
    {
      assert entries[fd].Some?;
      ghost var m := Entries();
      assert m.Keys == (m - {fd}).Keys + {fd};
      entries[fd] := None;
      count := count - 1;
      forall k: nat ensures k in Entries() <==> k in m - {fd} {
      }
      assert Entries() == old(Entries()) - {fd};
    }

    method Lookup(fd: Fd) returns (w: Watcher)
      requires Valid() && fd in Entries()
      ensures w == Entries()[fd]
    {
      assert entries[fd].Some?;
      w := entries[fd].value;
    }

    /** The least occupied descriptor above `iter`, or -1: iterator() is NextIterator(-1). */
    method NextIterator(iter: int) returns (fd: int)
      requires Valid() && -1 <= iter && iter + 1 < FDTABLE_MAX
      ensures fd == -1 ==> forall k :: k in Entries() ==> k <= iter
      ensures fd != -1 ==> iter < fd && fd in Entries() && forall k :: k in Entries() && iter < k ==> fd <= k
    {
      var i := iter + 1;
      while i < FDTABLE_MAX
        invariant iter < i <= FDTABLE_MAX
        invariant forall k :: k in Entries() && iter < k ==> i <= k
      {
        if entries[i].Some? {
          return i;
        }
        i := i + 1;
      }
      return -1;
    }
  }
}
