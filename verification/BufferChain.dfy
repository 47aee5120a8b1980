/**
 * The BufferChain of buffer_chain.c: a list of IOBuffers and a running size that together denote one
 * byte sequence.  Members may be empty or partly consumed; two operations care.  Appending to a partly
 * consumed last member lets the commit's terminator fall on its data, and compact asserts that no
 * member is empty.
 */
module BufferChainObject {
  import opened Common
  import opened IoBufferObject
  import opened LinkedListObject
  import D = DemoProtocol

  /** The last piece grows by `p`, at read offset `off`. */
  function Grown(parts: seq<Bytes>, off: nat, p: Bytes): (r: seq<Bytes>)
    requires parts != []
    ensures |r| == |parts|
  {
    parts[|parts| - 1 := Terminated(off, parts[|parts| - 1] + p)]
  }

  /** Appending in place adds exactly the bytes iff the terminator misses the last piece or falls on a zero. */
  lemma {:induction false} GrownIff(parts: seq<Bytes>, off: nat, p: Bytes)
    requires parts != []
    ensures var d := parts[|parts| - 1] + p;
      && |Flat(Grown(parts, off, p))| == |Flat(parts)| + |p|
      && (Flat(Grown(parts, off, p)) == Flat(parts) + p <==> off == 0 || |d| < off || d[|d| - off] == 0)
  {
    hide Flat, Terminated;
    var n, d := |parts| - 1, parts[|parts| - 1] + p;
    var front := parts[..n];
    TerminatorMisses(off, d);
    assert parts == front + [parts[n]] && Grown(parts, off, p) == front + [Terminated(off, d)];
    FlatSnoc(front, parts[n]);
    FlatSnoc(front, Terminated(off, d));
    assert (Flat(front) + parts[n]) + p == Flat(front) + d;
    if Flat(front) + Terminated(off, d) == Flat(front) + d {
      assert (Flat(front) + Terminated(off, d))[|Flat(front)|..] == Terminated(off, d);
      assert (Flat(front) + d)[|Flat(front)|..] == d;
    }
  }

  /** The first of one sequence moves to the end of the other. */
  lemma {:induction false} Shift<X>(a: seq<X>, b: seq<X>)
    requires b != []
    ensures (a + [b[0]]) + b[1..] == a + b
  {
  }

  class BufferChain {
    const list: List<IOBuffer>
    var size: nat
    ghost var chain: seq<IOBuffer>    // the members, as the list has them
    ghost var parts: seq<Bytes>       // what each member holds

    ghost predicate Holds(b: IOBuffer, p: Bytes)
      reads b, b.mem
    {
      b.Valid() && b.Data() == p
    }

    ghost predicate Valid()
      reads this, list, list.repr, chain, set i | 0 <= i < |chain| :: chain[i].mem
    {
      && list.Valid() && list.Items() == chain
      && |parts| == |chain| && size == |Flat(parts)|
      && (forall i :: 0 <= i < |chain| ==> Holds(chain[i], parts[i]))
      && (forall i, j :: 0 <= i < j < |chain| ==> chain[i] != chain[j] && chain[i].mem != chain[j].mem)
    }

    ghost function Contents(): Bytes
      reads this
    {
      Flat(parts)
    }

    /** No member is empty. */
    ghost predicate NoneEmpty()
      reads this
    {
      forall i :: 0 <= i < |parts| ==> parts[i] != []
    }

    /** No member is, or shares memory with, `b`. */
    ghost predicate Apart(b: IOBuffer)
      reads this
    {
      forall i :: 0 <= i < |chain| ==> chain[i] != b && chain[i].mem != b.mem
    }

    constructor ()
      ensures Valid() && Contents() == [] && chain == [] && parts == [] && fresh(list) && list.repr == {}
    {
      list := new List<IOBuffer>();
      chain, size, parts := [], 0, [];
    }

    /** Whether the bytes go into the last member's space. */
    ghost predicate Fits(p: Bytes)
      reads this, chain
    {
      size > 0 && chain != [] && chain[|chain| - 1].ptr + chain[|chain| - 1].remaining + |p| <= chain[|chain| - 1].capacity
    }

    method Append(p: Bytes)
      requires Valid() && |p| > 0
      modifies this, list, list.repr, chain, set i | 0 <= i < |chain| :: chain[i].mem
      ensures Valid() && size == old(size) + |p| && fresh(list.repr - old(list.repr))
      ensures parts == if old(Fits(p)) then Grown(old(parts), old(chain[|chain| - 1].ptr), p) else old(parts) + [p]
      ensures old(chain == [] || chain[|chain| - 1].ptr == 0) ==> Contents() == old(Contents()) + p
      ensures if old(Fits(p)) then chain == old(chain)
              else |chain| == |old(chain)| + 1 && chain[..|old(chain)|] == old(chain)
                   && fresh(chain[|old(chain)|]) && fresh(chain[|old(chain)|].mem) && chain[|old(chain)|].ptr == 0
                   && chain[|old(chain)|].capacity == if |p| > 8192 then |p| + 100 else 8192
    {
      hide Flat, Terminated, Grown, Valid;
      if size > 0 {
        HasMember();
        var last := LastMember();
        var space := last.SpaceLen();
        if space >= |p| {
          AppendToLast(last, p);
          return;
        }
      }
      AppendNew(p);
    }

    /** The bytes become a member of their own. */
    method AppendNew(p: Bytes)
      requires Valid() && |p| > 0
      modifies this, list, list.repr
      ensures Valid() && size == old(size) + |p| && fresh(list.repr - old(list.repr))
      ensures parts == old(parts) + [p] && Contents() == old(Contents()) + p
      ensures |chain| == |old(chain)| + 1 && chain[..|old(chain)|] == old(chain)
      ensures fresh(chain[|old(chain)|]) && fresh(chain[|old(chain)|].mem) && chain[|old(chain)|].ptr == 0
      ensures chain[|old(chain)|].capacity == if |p| > 8192 then |p| + 100 else 8192
    {
      hide Flat, List.Valid, List.Items;
      var iob := NewMember(p);
      AddBack(iob);
    }

    lemma {:induction false} Member(i: nat)
      requires Valid() && i < |chain|
      ensures |parts| == |chain| && Holds(chain[i], parts[i])
    {
    }

    lemma {:induction false} SameCount()
      requires Valid()
      ensures |parts| == |chain| == |list.nodes| && list.Valid() && list.Items() == chain
    {
    }

    lemma {:induction false} HasMember()
      requires Valid() && size > 0
      ensures chain != []
    {
    }

    method LastMember() returns (last: IOBuffer)
      requires Valid() && chain != []
      ensures last == chain[|chain| - 1] && last.Valid()
    {
      hide Flat, List.Items;
      var r := list.Last();
      assert Holds(chain[|chain| - 1], parts[|chain| - 1]);
      last := r.value;
    }

    static method NewMember(p: Bytes) returns (iob: IOBuffer)
      requires |p| > 0
      ensures fresh(iob) && fresh(iob.mem) && iob.Valid() && iob.ptr == 0 && iob.Data() == p
      ensures iob.capacity == if |p| > 8192 then |p| + 100 else 8192
    {
      var required := if |p| > 256 * 4 * 8 then |p| + 100 else 256 * 4 * 8;
      iob := new IOBuffer(required);
      iob.DataAdd(p);
      assert [] + p == p;
    }

    method AppendToLast(last: IOBuffer, p: Bytes)
      requires Valid() && chain != [] && last == chain[|chain| - 1]
      requires 0 < |p| && last.ptr + last.remaining + |p| <= last.capacity
      modifies this`size, this`parts, last`remaining, last.mem
      ensures old(last.ptr) == 0 ==> Contents() == old(Contents()) + p
      ensures Valid() && parts == Grown(old(parts), old(last.ptr), p) && size == old(size) + |p|
    {
      hide Flat, Terminated, List.Valid, List.Items;
      ghost var n := |chain| - 1;
      assert Holds(chain[n], parts[n]);
      GrownIff(parts, last.ptr, p);
      last.DataAdd(p);
      size := size + |p|;
      parts := Grown(parts, last.ptr, p);
      assert Holds(chain[n], parts[n]);
      assert forall i :: 0 <= i < n ==> Holds(chain[i], old(parts)[i]);
    }

    lemma {:induction false} HoldsData(b: IOBuffer)
      requires b.Valid()
      ensures Holds(b, b.Data())
    {
    }

    /** The buffer becomes the last member. */
    method AddBack(iob: IOBuffer)
      requires Valid() && iob.Valid() && Apart(iob)
      modifies this, list, list.repr
      ensures Valid() && chain == old(chain) + [iob] && Contents() == old(Contents()) + iob.Data()
      ensures parts == old(parts) + [iob.Data()] && size == old(size) + iob.remaining
      ensures fresh(list.repr - old(list.repr))
    {
      hide List.Valid, List.Items, Holds, Flat;
      FlatSnoc(parts, iob.Data());
      HoldsData(iob);
      list.AddBack(iob);
      assert Holds(iob, iob.Data()) && forall i :: 0 <= i < |chain| ==> Holds(chain[i], parts[i]);
      chain := chain + [iob];
      parts := parts + [iob.Data()];
      size := size + iob.remaining;
    }

    method PopFront() returns (iob: IOBuffer?)
      requires Valid()
      modifies this, list, list.repr
      ensures Valid() && list.repr <= old(list.repr)
      ensures old(chain) == [] ==> iob == null && chain == []
      ensures old(chain) != [] ==>
                && iob == old(chain)[0] && chain == old(chain)[1..] && parts == old(parts)[1..]
                && Holds(iob, old(parts)[0]) && old(parts)[0] + Contents() == old(Contents())
    {
      hide Flat, List.Valid, List.Items;
      var front := list.RemoveFirst();
      if front == None {
        return null;
      }
      FlatCons(parts);
      iob := front.value;
      chain := chain[1..];
      parts := parts[1..];
      size := size - iob.remaining;
    }

    /** A copy of the buffer becomes the last member. */
    method AddCopy(iob: IOBuffer)
      requires Valid() && iob.Valid()
      modifies this, list, list.repr
      ensures Valid() && parts == old(parts) + [iob.Data()] && fresh(list.repr - old(list.repr))
      ensures |chain| == |old(chain)| + 1 && chain[..|old(chain)|] == old(chain)
      ensures fresh(chain[|old(chain)|]) && fresh(chain[|old(chain)|].mem) && chain[|old(chain)|].ptr == iob.ptr
    {
      hide Flat;
      var copy := iob.Dup();
      AddBack(copy);
    }

    /** The two chains have lists of their own. */
    ghost predicate OwnList(other: BufferChain)
      reads list, other.list
    {
      other != this && other.list != list && other.list.repr !! list.repr
    }

    /** A copy of the other chain's member `i` becomes the last member. */
    method CopyMember(other: BufferChain, node: ListNode<IOBuffer>, ghost i: nat) returns (ghost copy: IOBuffer)
      requires Valid() && other.Valid() && OwnList(other) && i < |other.chain| && node.item == other.chain[i]
      modifies this, list, list.repr
      ensures Valid() && other.Valid() && OwnList(other) && fresh(list.repr - old(list.repr))
      ensures chain == old(chain) + [copy] && parts == old(parts) + [old(other.parts)[i]]
      ensures fresh(copy) && fresh(copy.mem) && copy.ptr == old(other.chain[i].ptr)
    {
      hide Flat, Valid;
      other.Member(i);
      AddCopy(node.item);
      copy := chain[|chain| - 1];
    }

    /** Copy the other chain's buffers to the end of this one. */
    method AppendBufferChain(other: BufferChain)
      requires Valid() && other.Valid() && OwnList(other)
      modifies this, list, list.repr
      ensures Valid() && Contents() == old(Contents()) + other.Contents()
      ensures |chain| == |old(chain)| + |other.chain| && chain[..|old(chain)|] == old(chain)
      ensures parts == old(parts) + other.parts && fresh(list.repr - old(list.repr))
      ensures forall i :: |old(chain)| <= i < |chain| ==> fresh(chain[i]) && fresh(chain[i].mem)
      ensures other.chain != [] ==> chain[|chain| - 1].ptr == other.chain[|other.chain| - 1].ptr
    {
      hide Flat, Valid;
      other.SameCount();
      ghost var before, theirs, copies: seq<IOBuffer> := parts, other.parts, [];
      var iter := other.list.head;
      while iter != null
        invariant |copies| <= |other.chain| && iter == if |copies| < |other.chain| then other.list.nodes[|copies|] else null
        invariant Valid() && other.Valid() && OwnList(other) && fresh(list.repr - old(list.repr))
        invariant chain == old(chain) + copies && parts == before + theirs[..|copies|]
        invariant forall c :: c in copies ==> fresh(c) && fresh(c.mem)
        invariant copies != [] ==> copies[|copies| - 1].ptr == other.chain[|copies| - 1].ptr
        decreases |other.chain| - |copies|
      {
        ghost var i := |copies|;
        ghost var copy := CopyMember(other, iter, i);
        copies := copies + [copy];
        assert before + theirs[..i + 1] == (before + theirs[..i]) + [theirs[i]];
        iter := iter.forward;
      }
      assert theirs[..|copies|] == theirs;
      ghost var n := |old(chain)|;
      assert forall i :: n <= i < |chain| ==> chain[i] == copies[i - n] && copies[i - n] in copies;
      FlatConcat(before, theirs);
    }

    /** No member of the other chain is, or shares memory with, a member of this one. */
    ghost predicate Disjoint(other: BufferChain)
      reads this, other
    {
      forall i :: 0 <= i < |other.chain| ==> Apart(other.chain[i])
    }

    method StealOne(other: BufferChain) returns (more: bool)
      requires Valid() && other.Valid() && OwnList(other) && Disjoint(other)
      modifies this, list, list.repr, other, other.list, other.list.repr
      ensures Valid() && other.Valid() && OwnList(other) && Disjoint(other)
      ensures fresh(list.repr - old(list.repr)) && other.list.repr <= old(other.list.repr)
      ensures more <==> old(other.chain) != []
      ensures more ==> chain == old(chain) + [old(other.chain)[0]] && parts == old(parts) + [old(other.parts)[0]]
      ensures more ==> other.chain == old(other.chain)[1..] && other.parts == old(other.parts)[1..]
      ensures !more ==> chain == old(chain) && parts == old(parts) && other.chain == [] && other.parts == old(other.parts) == []
    {
      hide Flat, Valid, List.Valid, List.Items;
      other.SameCount();
      other.FirstAlone();
      var iob := other.PopFront();
      other.SameCount();
      more := iob != null;
      if more {
        AddBack(iob);
      }
    }

    lemma {:induction false} FirstAlone()
      requires Valid()
      ensures forall i :: 0 < i < |chain| ==> chain[i] != chain[0] && chain[i].mem != chain[0].mem
    {
    }

    /** Move the other chain's buffers to the end of this one. */
    method StealBufferChain(other: BufferChain)
      requires Valid() && other.Valid() && OwnList(other) && Disjoint(other)
      modifies this, list, list.repr, other, other.list, other.list.repr
      ensures Valid() && other.Valid() && chain == old(chain) + old(other.chain) && other.chain == []
      ensures Contents() == old(Contents()) + old(other.Contents()) && other.Contents() == []
    {
      hide Flat, Valid, Disjoint, OwnList;
      ghost var mine, theirs, all := parts, other.parts, chain + other.chain;
      var more := true;
      while more
        invariant Valid() && other.Valid() && OwnList(other) && Disjoint(other)
        invariant fresh(list.repr - old(list.repr)) && other.list.repr <= old(other.list.repr)
        invariant chain + other.chain == all && parts + other.parts == mine + theirs
        invariant !more ==> other.chain == []
        decreases |other.chain|, more
      {
        ghost var c, d, p, q := chain, other.chain, parts, other.parts;
        other.SameCount();
        more := StealOne(other);
        if more {
          Shift(c, d);
          Shift(p, q);
        }
      }
      assert other.parts == [] by { other.SameCount(); }
      assert chain + [] == chain && parts + [] == parts;
      FlatConcat(mine, theirs);
      FlatNothing();
    }

    /** Add the bytes of member `b` to another buffer. */
    method CopyTo(b: IOBuffer, iob: IOBuffer, ghost p: Bytes)
      requires Holds(b, p) && p != [] && iob.Valid() && iob.ptr == 0 && |p| <= iob.capacity - iob.remaining
      modifies iob`remaining, iob.mem
      ensures iob.Valid() && iob.Data() == old(iob.Data()) + p
    {
      var data := b.mem[b.ptr..b.ptr + b.remaining];
      iob.DataAdd(data);
    }

    /** All bytes in one new buffer that is exactly large enough. */
    method Compact() returns (iob: IOBuffer)
      requires Valid() && NoneEmpty()
      ensures iob.Valid() && fresh(iob) && fresh(iob.mem) && iob.ptr == 0 && iob.capacity == size && iob.Data() == Contents()
    {
      hide Flat, Terminated;
      FlatNothing();
      iob := new IOBuffer(size);
      var iter := list.head;
      ghost var i := 0;
      while iter != null
        invariant 0 <= i <= |chain| && iter == if i < |chain| then list.nodes[i] else null
        invariant iob.Valid() && iob.ptr == 0 && iob.capacity == size && fresh(iob) && fresh(iob.mem)
        invariant Valid() && iob.Data() == Flat(parts[..i])
        modifies iob`remaining, iob.mem
        decreases |chain| - i
      {
        assert iter.item == chain[i] && Holds(chain[i], parts[i]);
        assert parts[..i + 1] == parts[..i] + [parts[i]];
        FlatSnoc(parts[..i], parts[i]);
        PrefixFits(parts, i + 1);
        CopyTo(iter.item, iob, parts[i]);
        iter := iter.forward;
        i := i + 1;
      }
      assert parts[..|chain|] == parts;
    }
  }

  /** The pieces of a frame: head, body and foot, the foot either in a buffer of its own or behind the body's last. */
  lemma {:induction false} FrameParts(isRequest: bool, head: Bytes, body: seq<Bytes>, foot: Bytes, inPlace: bool, off: nat)
    requires head == [D.SOH, if isRequest then 'Q' as int else 'R' as int, D.STX] && foot == [D.ETX, 'L' as int, D.EOT]
    ensures var parts := [head] + body;
      var frame := Flat(if inPlace then Grown(parts, off, foot) else parts + [foot]);
      |frame| == |Flat(body)| + 6 && (off == 0 ==> frame == D.Serialize(D.DemoMessage(isRequest, Flat(body), 0)))
  {
    hide Flat, Terminated;
    var parts := [head] + body;
    FlatConcat([head], body);
    FlatNothing();
    assert [] + [head] == [head];
    FlatSnoc([], head);
    assert Flat([head]) == head;
    if inPlace { GrownIff(parts, off, foot); } else { FlatSnoc(parts, foot); }
    assert (head + Flat(body)) + foot == head + (Flat(body) + foot);
  }

  /** demo_message_serialize: head, a copy of the body chain, foot, all in one buffer. */
  method SerializeMessage(isRequest: bool, body: BufferChain) returns (iob: IOBuffer)
    requires body.Valid() && body.NoneEmpty()
    ensures iob.Valid() && |iob.Data()| == |body.Contents()| + 6
    ensures LastUnread(body) ==> iob.Data() == D.Serialize(D.DemoMessage(isRequest, body.Contents(), 0))
  {
    hide Flat, Terminated, D.Serialize, BufferChain.Valid;
    var head: Bytes, foot: Bytes := [D.SOH, if isRequest then 'Q' as int else 'R' as int, D.STX], [D.ETX, 'L' as int, D.EOT];
    var bc := FrameStart(head, body);
    ghost var inPlace, off := bc.Fits(foot), bc.chain[|bc.chain| - 1].ptr;
    bc.Append(foot);
    FrameParts(isRequest, head, body.parts, foot, inPlace, off);
    GrownNoneEmpty([head] + body.parts, off, foot);
    iob := bc.Compact();
  }

  /** Nothing of the last member has been consumed. */
  ghost predicate LastUnread(body: BufferChain)
    reads body, body.chain
  {
    body.chain != [] ==> body.chain[|body.chain| - 1].ptr == 0
  }

  lemma {:induction false} GrownNoneEmpty(parts: seq<Bytes>, off: nat, p: Bytes)
    requires parts != [] && p != [] && forall i :: 0 <= i < |parts| ==> parts[i] != []
    ensures forall i :: 0 <= i < |parts| ==> Grown(parts, off, p)[i] != []
  {
    hide Terminated;
  }

  /** A new chain with the frame's head and a copy of the body. */
  method FrameStart(head: Bytes, body: BufferChain) returns (bc: BufferChain)
    requires body.Valid() && |head| > 0
    ensures bc.Valid() && bc.parts == [head] + body.parts && bc.chain != []
    ensures LastUnread(body) ==> bc.chain[|bc.chain| - 1].ptr == 0
    ensures fresh(bc) && fresh(bc.list) && fresh(bc.list.repr) && forall i :: 0 <= i < |bc.chain| ==> fresh(bc.chain[i]) && fresh(bc.chain[i].mem)
  {
    hide Flat, Terminated, Grown, BufferChain.Valid;
    bc := new BufferChain();
    bc.Append(head);
    assert [] + [head] == [head];
    bc.AppendBufferChain(body);
  }
}
