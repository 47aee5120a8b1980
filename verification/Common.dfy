/** Types and byte-sequence facts that the components share. */
module Common {

  datatype Option<+T> = None | Some(value: T)

  type Byte = x: int | 0 <= x < 256
  type Bytes = seq<Byte>

  /** The pieces of a byte sequence put together. */
  function Flat(parts: seq<Bytes>): Bytes {
    if parts == [] then [] else Flat(parts[..|parts| - 1]) + parts[|parts| - 1]
  }

  lemma {:induction false} FlatSnoc(parts: seq<Bytes>, p: Bytes)
    ensures Flat(parts + [p]) == Flat(parts) + p
  {
    assert (parts + [p])[..|parts|] == parts;
  }

  lemma {:induction false} FlatCons(parts: seq<Bytes>)
    requires parts != []
    ensures Flat(parts) == parts[0] + Flat(parts[1..])
    decreases |parts|
  {
    hide Flat;
    var front, last := parts[..|parts| - 1], parts[|parts| - 1];
    assert parts == front + [last];
    FlatSnoc(front, last);
    if front == [] {
      FlatNothing();
      assert parts[1..] == [] && [] + last == last + [];
    } else {
      FlatCons(front);
      assert parts[1..] == front[1..] + [last];
      FlatSnoc(front[1..], last);
      assert (front[0] + Flat(front[1..])) + last == front[0] + (Flat(front[1..]) + last);
    }
  }

  lemma {:induction false} FlatConcat(a: seq<Bytes>, b: seq<Bytes>)
    ensures Flat(a + b) == Flat(a) + Flat(b)
    decreases |b|
  {
    if b == [] {
      assert a + b == a;
    } else {
      var front, last := b[..|b| - 1], b[|b| - 1];
      assert a + b == (a + front) + [last];
      FlatSnoc(a + front, last);
      FlatConcat(a, front);
    }
  }

  lemma {:induction false} FlatNothing()
    ensures Flat([]) == []
  {
  }

  /** What is copied so far never exceeds the size of the whole. */
  lemma {:induction false} PrefixFits(parts: seq<Bytes>, n: nat)
    requires n <= |parts|
    ensures |Flat(parts[..n])| <= |Flat(parts)|
  {
    assert parts == parts[..n] + parts[n..];
    FlatConcat(parts[..n], parts[n..]);
  }
}
