/**
 * The listener during shutdown.  The sentinels bring every worker home but not the listener: sockets it
 * accepts behind them can fill the queue when nobody is left to empty it.  That can happen exactly when
 * more sockets arrive than the queue holds.
 */
module QueueListener {
  import opened QueueMachine
  import opened QueueTheorems

  /** The listener is asleep in Queue_add and no thread will ever wake it. */
  predicate Stranded(z: State) {
    Quiet(z) && |z.threads| > 0 && z.threads[0].Producer? && z.threads[0].todo != []
  }

  // ---- few sockets: the listener always finishes ----------------------------------------------------

  lemma {:induction false} LengthStep(s: State, l: Label)
    requires Enabled(s, l)
    ensures |Apply(s, l).added| + Sum(TodoLen, Apply(s, l).threads) == |s.added| + Sum(TodoLen, s.threads)
  {
    hide Sum, Count, WakeProducers, WakeWorkers;
    SumOfTurn(TodoLen, s, l);
  }

  lemma {:induction false} LengthRun(s: State, ls: seq<Label>, z: State)
    requires IsRun(s, ls, z)
    ensures |z.added| + Sum(TodoLen, z.threads) == |s.added| + Sum(TodoLen, s.threads)
    decreases |ls|
  {
    hide Sum, Apply, Enabled;
    if ls != [] {
      LengthStep(s, ls[0]);
      LengthRun(Apply(s, ls[0]), ls[1..], z);
    }
  }

  lemma {:induction false} WorkersHoldNothing(ts: seq<Thread>)
    requires forall i :: 0 <= i < |ts| ==> ts[i] == Worker(Removing)
    ensures Sum(TodoLen, ts) == 0
    decreases |ts|
  {
    if ts != [] {
      WorkersHoldNothing(ts[1..]);
    }
  }

  lemma {:induction false} ServerHolds(capacity: nat, sockets: seq<int>, workers: nat)
    ensures Sum(TodoLen, Server(capacity, sockets, workers).threads) == |sockets| + workers
  {
    var ts := Server(capacity, sockets, workers).threads;
    assert ts[1..][1..] == ts[2..];
    WorkersHoldNothing(ts[2..]);
  }

  lemma {:induction false} CountAtMost(s: seq<int>, x: int)
    ensures Count(s, x) <= |s|
    decreases |s|
  {
    if s != [] {
      CountAtMost(s[1..], x);
    }
  }

  lemma {:induction false} FewSocketsFit(capacity: nat, sockets: seq<int>, workers: nat, ls: seq<Label>, z: State)
    requires capacity > 0 && forall i :: 0 <= i < |sockets| ==> sockets[i] > 0
    requires IsRun(Server(capacity, sockets, workers), ls, z) && Stranded(z)
    ensures |sockets| > capacity
  {
    hide Sum, Count, IsRun, Server, Apply, Enabled, Justified;
    var s := Server(capacity, sockets, workers);
    assert s.capacity == capacity && s.added == [] by { ServerFields(capacity, sockets, workers); }
    ServerBoots(capacity, sockets, workers);
    ServerHolds(capacity, sockets, workers);
    LengthRun(s, ls, z);
    NothingLost(s, ls, z, Terminate);
    ShutdownCompletes(s, ls, z);
    SumPositive(TodoLen, z.threads, 0);
    BootsInv(s);
    InvRun(s, ls, z);
    SumAtMost(Workers, Gone, z.threads);
    CountAtMost(z.removed, Terminate);
  }

  lemma {:induction false} ServerFields(capacity: nat, sockets: seq<int>, workers: nat)
    ensures Server(capacity, sockets, workers).capacity == capacity && Server(capacity, sockets, workers).added == []
  {
  }

  // ---- more sockets than the queue holds: a schedule that strands the listener ----------------------

  /** The first `k` sentinels have been queued and taken. */
  function Stopping(capacity: nat, sockets: seq<int>, workers: nat, k: nat): State
    requires k <= workers
  {
    State(capacity, [],
          [Producer(sockets, false), Producer(Sentinels(workers - k), false)]
          + seq(workers, i => Worker(if i < k then Exited else Removing)),
          Sentinels(k), Sentinels(k))
  }

  /** The next sentinel is queued and not yet taken. */
  function Offered(capacity: nat, sockets: seq<int>, workers: nat, k: nat): State
    requires k < workers
  {
    var s := Stopping(capacity, sockets, workers, k);
    s.(queue := [Terminate], threads := s.threads[1 := Producer(Sentinels(workers - k - 1), false)],
       added := Sentinels(k + 1))
  }

  lemma {:induction false} OfferOne(capacity: nat, sockets: seq<int>, workers: nat, k: nat)
    requires k < workers && capacity > 0
    ensures var s := Stopping(capacity, sockets, workers, k);
      Enabled(s, Turn(1)) && Apply(s, Turn(1)) == Offered(capacity, sockets, workers, k)
  {
    hide Sum, Count;
    var s, z := Stopping(capacity, sockets, workers, k), Offered(capacity, sockets, workers, k);
    assert Sentinels(workers - k)[1..] == Sentinels(workers - k - 1);
    assert Sentinels(k) + [Terminate] == Sentinels(k + 1);
    assert WakeWorkers(z.threads) == z.threads;
    assert s.queue + [Terminate] == [Terminate];
  }

  lemma {:induction false} TakeOne(capacity: nat, sockets: seq<int>, workers: nat, k: nat)
    requires k < workers && capacity > 0
    ensures var s := Offered(capacity, sockets, workers, k);
      Enabled(s, Turn(k + 2)) && Apply(s, Turn(k + 2)) == Stopping(capacity, sockets, workers, k + 1)
  {
    hide Sum, Count;
    var s, z := Offered(capacity, sockets, workers, k), Stopping(capacity, sockets, workers, k + 1);
    assert s.threads[k + 2 := Worker(Exited)] == z.threads;
    assert WakeProducers(z.threads) == z.threads;
    assert Sentinels(k) + [Terminate] == Sentinels(k + 1);
    assert s.queue[1..] == [];
  }

  lemma {:induction false} StopAll(capacity: nat, sockets: seq<int>, workers: nat, k: nat) returns (ls: seq<Label>)
    requires k <= workers && capacity > 0
    ensures IsRun(Stopping(capacity, sockets, workers, k), ls, Stopping(capacity, sockets, workers, workers))
    decreases workers - k
  {
    hide Stopping, Offered, Apply, Enabled;
    if k == workers {
      ls := [];
    } else {
      OfferOne(capacity, sockets, workers, k);
      TakeOne(capacity, sockets, workers, k);
      ls := StopAll(capacity, sockets, workers, k + 1);
      var s := Stopping(capacity, sockets, workers, k);
      var all := [Turn(1), Turn(k + 2)] + ls;
      assert all[1..][1..] == ls && all[1..][0] == Turn(k + 2);
      ls := all;
    }
  }

  /** All workers are gone and the listener has added `j` sockets. */
  function Filling(capacity: nat, sockets: seq<int>, workers: nat, j: nat): State
    requires j <= |sockets|
  {
    State(capacity, sockets[..j],
          [Producer(sockets[j..], false), Producer([], false)] + seq(workers, _ => Worker(Exited)),
          Sentinels(workers) + sockets[..j], Sentinels(workers))
  }

  lemma {:induction false} FillOne(capacity: nat, sockets: seq<int>, workers: nat, j: nat)
    requires j < |sockets| && j < capacity
    ensures var s := Filling(capacity, sockets, workers, j);
      Enabled(s, Turn(0)) && Apply(s, Turn(0)) == Filling(capacity, sockets, workers, j + 1)
  {
    hide Sum, Count;
    var s, z := Filling(capacity, sockets, workers, j), Filling(capacity, sockets, workers, j + 1);
    assert sockets[..j] + [sockets[j]] == sockets[..j + 1];
    assert sockets[j..][1..] == sockets[j + 1..];
    assert Apply(s, Turn(0)).threads == z.threads;
    assert Apply(s, Turn(0)).added == z.added;
  }

  lemma {:induction false} FillUp(capacity: nat, sockets: seq<int>, workers: nat, j: nat) returns (ls: seq<Label>)
    requires j <= capacity < |sockets|
    ensures IsRun(Filling(capacity, sockets, workers, j), ls, Filling(capacity, sockets, workers, capacity))
    decreases capacity - j
  {
    hide Filling, Apply, Enabled;
    if j == capacity {
      ls := [];
    } else {
      FillOne(capacity, sockets, workers, j);
      var rest := FillUp(capacity, sockets, workers, j + 1);
      ls := [Turn(0)] + rest;
      assert ls[1..] == rest;
    }
  }

  lemma {:induction false} Block(capacity: nat, sockets: seq<int>, workers: nat) returns (z: State)
    requires capacity < |sockets|
    ensures IsRun(Filling(capacity, sockets, workers, capacity), [Turn(0)], z) && Stranded(z)
  {
    hide Sum, Count;
    var s := Filling(capacity, sockets, workers, capacity);
    z := Apply(s, Turn(0));
    assert IsRun(z, [], z);
  }

  lemma {:induction false} Seams(capacity: nat, sockets: seq<int>, workers: nat)
    ensures Server(capacity, sockets, workers) == Stopping(capacity, sockets, workers, 0)
    ensures Stopping(capacity, sockets, workers, workers) == Filling(capacity, sockets, workers, 0)
  {
    assert Server(capacity, sockets, workers).threads == Stopping(capacity, sockets, workers, 0).threads;
    assert Sentinels(0) == [] && sockets[0..] == sockets;
    assert seq(workers, i => Worker(if i < workers then Exited else Removing)) == seq(workers, _ => Worker(Exited));
    assert Stopping(capacity, sockets, workers, workers).threads == Filling(capacity, sockets, workers, 0).threads;
  }

  lemma {:induction false} ManySocketsStrand(capacity: nat, sockets: seq<int>, workers: nat) returns (ls: seq<Label>, z: State)
    requires 0 < capacity < |sockets|
    ensures IsRun(Server(capacity, sockets, workers), ls, z) && Stranded(z)
  {
    hide Stopping, Filling, Server, IsRun, Stranded;
    Seams(capacity, sockets, workers);
    var a := StopAll(capacity, sockets, workers, 0);
    var b := FillUp(capacity, sockets, workers, 0);
    z := Block(capacity, sockets, workers);
    var s, f := Server(capacity, sockets, workers), Filling(capacity, sockets, workers, capacity);
    RunsCompose(s, a, Filling(capacity, sockets, workers, 0), b, f);
    RunsCompose(s, a + b, f, [Turn(0)], z);
    ls := a + b + [Turn(0)];
  }

  /** Some schedule strands the listener exactly when it accepts more sockets than the queue holds. */
  lemma {:induction false} ListenerStrandedIff(capacity: nat, sockets: seq<int>, workers: nat)
    requires capacity > 0 && forall i :: 0 <= i < |sockets| ==> sockets[i] > 0
    ensures (exists ls, z :: IsRun(Server(capacity, sockets, workers), ls, z) && Stranded(z)) <==> |sockets| > capacity
  {
    hide Stranded, IsRun, Server;
    if ls, z :| IsRun(Server(capacity, sockets, workers), ls, z) && Stranded(z) {
      FewSocketsFit(capacity, sockets, workers, ls, z);
    }
    if |sockets| > capacity {
      var ls, z := ManySocketsStrand(capacity, sockets, workers);
    }
  }
}
