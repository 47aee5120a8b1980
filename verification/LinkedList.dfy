/**
 * The doubly linked list of list.c.  An iterator is a pointer to a node.  The ghost sequence of nodes
 * is the list's meaning; every operation keeps head, tail, count and both directions of links in
 * agreement with it and acts on it as the matching sequence operation.
 */
module LinkedListObject {
  import opened Common

  class ListNode<T> {
    var forward: ListNode?<T>
    var backward: ListNode?<T>
    const item: T

    constructor (item: T, prev: ListNode?<T>, next: ListNode?<T>)
      ensures this.item == item && backward == prev && forward == next
    {
      this.item, backward, forward := item, prev, next;
    }
  }

  /** A sequence without position `k`. */
  function Without<X>(s: seq<X>, k: nat): seq<X>
    requires k < |s|
  {
    s[..k] + s[k + 1..]
  }

  /** The neighbour of position `i` once position `k` is skipped. */
  function NextBut<T>(s: seq<ListNode<T>>, i: int, k: nat): ListNode?<T> {
    var j := if i + 1 == k then k + 1 else i + 1;
    if 0 <= j < |s| then s[j] else null
  }

  function PrevBut<T>(s: seq<ListNode<T>>, i: int, k: nat): ListNode?<T> {
    var j := if i - 1 == k then k - 1 else i - 1;
    if 0 <= j < |s| then s[j] else null
  }

  /** Neighbours that skip `k` are neighbours in the sequence without `k`. */
  lemma {:induction false} WithoutLinks<T>(s: seq<ListNode<T>>, k: nat, i: nat)
    requires k < |s| && i < |s| - 1
    ensures var w, j := Without(s, k), if i < k then i else i + 1;
      && |w| == |s| - 1 && w[i] == s[j] && j != k
      && NextBut(s, j, k) == (if i + 1 < |w| then w[i + 1] else null)
      && PrevBut(s, j, k) == (if i > 0 then w[i - 1] else null)
  {
  }

  lemma {:induction false} WithoutItems<T>(s: seq<ListNode<T>>, items: seq<T>, k: nat)
    requires k < |s| == |items| && forall i :: 0 <= i < |s| ==> items[i] == s[i].item
    ensures var w := Without(s, k);
      |w| == |Without(items, k)| == |s| - 1 && (forall i :: 0 <= i < |w| ==> Without(items, k)[i] == w[i].item)
  {
  }

  lemma {:induction false} WithoutDistinct<T>(s: seq<ListNode<T>>, k: nat)
    requires k < |s| && Distinct(s)
    ensures |Without(s, k)| == |s| - 1 && Distinct(Without(s, k))
  {
  }

  lemma {:induction false} WithoutAmong<X>(s: seq<X>, k: nat)
    requires k < |s|
    ensures forall x :: x in Without(s, k) ==> x in s
  {
  }

  lemma {:induction false} WithoutEnds<T>(s: seq<ListNode<T>>, k: nat)
    requires k < |s|
    ensures Ends(Without(s, k), NextBut(s, -1, k), PrevBut(s, |s|, k))
  {
  }

  ghost predicate Distinct<T>(s: seq<ListNode<T>>) {
    forall i, j :: 0 <= i < j < |s| ==> s[i] != s[j]
  }

  ghost predicate Ends<T>(s: seq<ListNode<T>>, head: ListNode?<T>, tail: ListNode?<T>) {
    if s == [] then head == null && tail == null else head == s[0] && tail == s[|s| - 1]
  }

  /** Forward and backward links are mutually inverse along the sequence and end in null. */
  ghost predicate Chained<T>(s: seq<ListNode<T>>)
    reads s
  {
    && (forall i {:trigger s[i].forward} :: 0 <= i < |s| ==> s[i].forward == if i + 1 < |s| then s[i + 1] else null)
    && (forall i {:trigger s[i].backward} :: 0 <= i < |s| ==> s[i].backward == if i > 0 then s[i - 1] else null)
  }

  /** Links that bypass position `k` chain the sequence without it. */
  lemma {:induction false} BypassChains<T>(s: seq<ListNode<T>>, k: nat)
    requires k < |s|
    requires forall i {:trigger s[i].forward} :: 0 <= i < |s| && i != k ==> s[i].forward == NextBut(s, i, k)
    requires forall i {:trigger s[i].backward} :: 0 <= i < |s| && i != k ==> s[i].backward == PrevBut(s, i, k)
    ensures Chained(Without(s, k))
  {
    hide Without, NextBut, PrevBut;
    var w := Without(s, k);
    forall i {:trigger w[i].forward} | 0 <= i < |w| ensures w[i].forward == if i + 1 < |w| then w[i + 1] else null {
      WithoutSize(s, k);
      WithoutLinks(s, k, i);
    }
    forall i {:trigger w[i].backward} | 0 <= i < |w| ensures w[i].backward == if i > 0 then w[i - 1] else null {
      WithoutSize(s, k);
      WithoutLinks(s, k, i);
    }
  }

  /** A node linked in front of a chain makes a chain. */
  lemma {:induction false} FrontChains<T>(n: ListNode<T>, s: seq<ListNode<T>>)
    requires n !in s && Distinct(s) && n.backward == null && n.forward == if s == [] then null else s[0]
    requires forall i {:trigger s[i].forward} :: 0 <= i < |s| ==> s[i].forward == if i + 1 < |s| then s[i + 1] else null
    requires forall i {:trigger s[i].backward} :: 0 <= i < |s| ==> s[i].backward == if i > 0 then s[i - 1] else n
    ensures Chained([n] + s) && Distinct([n] + s)
  {
    var w := [n] + s;
    forall i {:trigger w[i].forward} | 0 <= i < |w| ensures w[i].forward == if i + 1 < |w| then w[i + 1] else null {
      if i > 0 { assert w[i] == s[i - 1]; }
    }
    forall i {:trigger w[i].backward} | 0 <= i < |w| ensures w[i].backward == if i > 0 then w[i - 1] else null {
      if i > 0 { assert w[i] == s[i - 1]; }
    }
  }

  lemma {:induction false} WithoutSize<X>(s: seq<X>, k: nat)
    requires k < |s|
    ensures |Without(s, k)| == |s| - 1
  {
  }

  class List<T(==)> {
    var count: nat
    var head: ListNode?<T>
    var tail: ListNode?<T>
    ghost var nodes: seq<ListNode<T>>
    ghost var repr: set<ListNode<T>>   // the same nodes as a set, for frames
    ghost var disposed: seq<T>       // items handed to the deallocator, oldest first

    ghost predicate Valid()
      reads this, repr
    {
      repr == (set n | n in nodes) && count == |nodes| && Distinct(nodes) && Ends(nodes, head, tail) && Chained(nodes)
    }

    /** The items from head to tail. */
    ghost function Items(): (s: seq<T>)
      reads this
      ensures |s| == |nodes|
    {
      seq(|nodes|, i requires 0 <= i < |nodes| reads this => nodes[i].item)
    }

    constructor ()
      ensures Valid() && nodes == [] && repr == {} && disposed == []
    {
      count, head, tail, nodes, repr, disposed := 0, null, null, [], {}, [];
    }

    method AddFront(content: T)
      requires Valid()
      modifies this, repr
      ensures Valid() && Items() == [content] + old(Items())
      ensures head != null && fresh(head) && repr == old(repr) + {head} && nodes == [head] + old(nodes) && disposed == old(disposed)
    {
      var n := new ListNode<T>(content, null, null);
      if count == 0 {
        head := n;
        tail := n;
      } else {
        n.forward := head;
        n.backward := null;
        head.backward := n;
        head := n;
      }
      count := count + 1;
      nodes, repr := [n] + nodes, repr + {n};
      FrontChains(n, old(nodes));
    }

    method AddBack(content: T)
      requires Valid()
      modifies this, repr
      ensures Valid() && Items() == old(Items()) + [content]
      ensures tail != null && fresh(tail) && repr == old(repr) + {tail} && nodes == old(nodes) + [tail] && disposed == old(disposed)
    {
      var n := new ListNode<T>(content, null, head);
      if count == 0 {
        tail := n;
        head := n;
      } else {
        n.backward := tail;
        n.forward := null;
        tail.forward := n;
        tail := n;
      }
      count := count + 1;
      nodes, repr := nodes + [n], repr + {n};
    }

    method First() returns (r: Option<T>)
      requires Valid()
      ensures r == if nodes == [] then None else Some(Items()[0])
    {
      r := if head == null then None else Some(head.item);
    }

    method Last() returns (r: Option<T>)
      requires Valid()
      ensures r == if nodes == [] then None else Some(Items()[|nodes| - 1])
    {
      r := if tail == null then None else Some(tail.item);
    }

    method RemoveFirst() returns (r: Option<T>)
      requires Valid()
      modifies this, repr
      ensures Valid() && disposed == old(disposed) && repr <= old(repr)
      ensures old(nodes) == [] ==> r == None && nodes == []
      ensures old(nodes) != [] ==> r == Some(old(Items())[0]) && nodes == old(nodes)[1..] && Items() == old(Items())[1..]
    {
      if count == 0 {
        return None;
      }
      r := Some(head.item);
      if count == 1 {
        head := null;
        tail := null;
      } else {
        var first := head;
        head := first.forward;
        head.backward := null;
        first.forward := null;
        first.backward := null;
      }
      count := count - 1;
      nodes := nodes[1..];
      repr := set n | n in nodes;
    }

    method RemoveLast() returns (r: Option<T>)
      requires Valid()
      modifies this, repr
      ensures Valid() && disposed == old(disposed) && repr <= old(repr)
      ensures old(nodes) == [] ==> r == None && nodes == []
      ensures old(nodes) != [] ==>
                && r == Some(old(Items())[|old(nodes)| - 1]) && nodes == old(nodes)[..|old(nodes)| - 1]
                && Items() == old(Items())[..|old(nodes)| - 1]
    {
      if count == 0 {
        return None;
      }
      r := Some(tail.item);
      if count == 1 {
        head := null;
        tail := null;
      } else {
        var last := tail;
        tail := last.backward;
        tail.forward := null;
        last.forward := null;
        last.backward := null;
      }
      count := count - 1;
      nodes := nodes[..|nodes| - 1];
      repr := set n | n in nodes;
    }

    /** The first node that holds `needle`. */
    method Find(needle: T) returns (itr: ListNode?<T>)
      requires Valid()
      ensures itr == null <==> needle !in Items()
      ensures itr != null ==> exists k :: 0 <= k < |nodes| && nodes[k] == itr && Items()[k] == needle && needle !in Items()[..k]
    {
      itr := head;
      ghost var k := 0;
      while itr != null
        invariant 0 <= k <= |nodes| && itr == (if k < |nodes| then nodes[k] else null)
        invariant needle !in Items()[..k]
        decreases |nodes| - k
      {
        if itr.item == needle {
          assert Items()[k] == needle;
          return;
        }
        assert Items()[..k + 1] == Items()[..k] + [Items()[k]];
        itr := itr.forward;
        k := k + 1;
      }
      assert Items()[..k] == Items();
    }

    /** Let the neighbours of a node, or the list's ends, bypass it. */
    method Unlink(itr: ListNode<T>, ghost k: nat)
      requires Valid() && k < |nodes| && nodes[k] == itr
      modifies this`head, this`tail, repr
      ensures head == NextBut(nodes, -1, k) && tail == PrevBut(nodes, |nodes|, k)
      ensures forall i {:trigger nodes[i].forward} :: 0 <= i < |nodes| && i != k ==> nodes[i].forward == NextBut(nodes, i, k)
      ensures forall i {:trigger nodes[i].backward} :: 0 <= i < |nodes| && i != k ==> nodes[i].backward == PrevBut(nodes, i, k)
    {
      if count == 1 {
        assert itr == head;
        head := null;
        tail := null;
      } else if head == itr {
        assert k == 0 && nodes[0].forward == nodes[1];
        itr.forward.backward := itr.backward;
        head := itr.forward;
      } else if tail == itr {
        assert k == |nodes| - 1 && nodes[k].backward == nodes[k - 1];
        itr.backward.forward := itr.forward;
        tail := itr.backward;
      } else {
        assert 0 < k < |nodes| - 1 && nodes[k].forward == nodes[k + 1] && nodes[k].backward == nodes[k - 1];
        itr.forward.backward := itr.backward;
        itr.backward.forward := itr.forward;
      }
    }

    /** Unlink the node an iterator points at and hand its item to the deallocator. */
    method ItrRemove(itr: ListNode<T>, ghost k: nat)
      requires Valid() && k < |nodes| && nodes[k] == itr
      modifies this, repr
      ensures Valid() && nodes == Without(old(nodes), k) && Items() == Without(old(Items()), k)
      ensures disposed == old(disposed) + [itr.item] && repr <= old(repr)
    {
      hide Without, NextBut, PrevBut, Chained, Distinct, Ends;
      WithoutItems(nodes, Items(), k);
      WithoutDistinct(nodes, k);
      WithoutEnds(nodes, k);
      Unlink(itr, k);
      BypassChains(nodes, k);
      count := count - 1;
      WithoutAmong(nodes, k);
      nodes := Without(nodes, k);
      repr := set n | n in nodes;
      disposed := disposed + [itr.item];
    }
  }
}
