/**
 * What holds of the blocking queue under every schedule, and of the server's shutdown built on it.
 */
module QueueTheorems {
  import opened Common
  import opened QueueMachine

  // ---- invariants --------------------------------------------------------------------------------

  /** The queue is a bounded FIFO: what was added is what was removed followed by what is queued. */
  predicate Fifo(s: State) {
    s.added == s.removed + s.queue && |s.queue| <= s.capacity
  }

  /** Nobody sleeps through a condition that already holds. */
  predicate Justified(s: State) {
    forall t :: 0 <= t < |s.threads| && Sleeps(s.threads[t]) ==> SleepJustified(s, s.threads[t])
  }

  predicate SleepJustified(s: State, th: Thread) {
    if th.Producer? then th.todo != [] && |s.queue| == s.capacity else s.queue == []
  }

  /** Every worker that stopped took one sentinel, and no other thread took any. */
  predicate ExitsMatch(s: State) {
    Sum(Gone, s.threads) == Count(s.removed, Terminate)
  }

  predicate Inv(s: State) {
    Fifo(s) && Justified(s) && ExitsMatch(s)
  }

  /**
   * A pass of Queue_add waits iff the queue is full and broadcasts iff it was empty; a pass of
   * Queue_remove waits iff it is empty and always broadcasts, as long as no more is queued than fits.
   */
  lemma {:induction false} PassesExact(queue: seq<int>, capacity: nat, sock: int)
    requires |queue| <= capacity
    ensures AddPass(queue, capacity, sock) == if |queue| < capacity then Done(queue + [sock], queue == []) else Wait
    ensures RemovePass(queue, capacity).Wait? <==> queue == []
    ensures queue != [] ==>
      var p := RemovePass(queue, capacity); [queue[0]] + p.queue == queue && p.broadcast
  {
  }

  lemma {:induction false} FifoStep(s: State, l: Label)
    requires Fifo(s) && Enabled(s, l)
    ensures Fifo(Apply(s, l)) && Apply(s, l).capacity == s.capacity && |Apply(s, l).threads| == |s.threads|
  {
    hide Sum, Count;
    if s.queue != [] {
      assert s.removed + s.queue == (s.removed + [s.queue[0]]) + s.queue[1..];
    }
  }

  lemma {:induction false} JustifiedStep(s: State, l: Label)
    requires Fifo(s) && Justified(s) && Enabled(s, l)
    ensures Justified(Apply(s, l))
  {
    hide Sum, Count;
    if Apply(s, l).queue != s.queue {
      ChangeFindsAllAwake(s, l);
    }
  }

  /** Whenever the queue changes, nobody sleeps afterwards: a broadcast woke whoever had reason to. */
  lemma {:induction false} ChangeFindsAllAwake(s: State, l: Label)
    requires Fifo(s) && Justified(s) && Enabled(s, l) && Apply(s, l).queue != s.queue
    ensures forall t :: 0 <= t < |s.threads| ==> !Sleeps(Apply(s, l).threads[t])
  {
    hide Sum, Count;
    forall t | 0 <= t < |s.threads| ensures !Sleeps(Apply(s, l).threads[t]) {
      assert Sleeps(s.threads[t]) ==> SleepJustified(s, s.threads[t]);
    }
  }

  lemma {:induction false} ExitsMatchStep(s: State, l: Label)
    requires ExitsMatch(s) && Enabled(s, l)
    ensures ExitsMatch(Apply(s, l))
  {
    hide Sum, WakeProducers, WakeWorkers;
    var z := Apply(s, l);
    SumOfTurn(Gone, s, l);
    if z.removed != s.removed {
      CountAppend(s.removed, [s.queue[0]], Terminate);
    }
  }

  /** The thread that moves, after its move and before any broadcast. */
  function Mover(s: State, l: Label): Thread
    requires Enabled(s, l)
  {
    var th := s.threads[l.t];
    match l
    case SpuriousWake(_) => if th.Producer? then Producer(th.todo, false) else Worker(Removing)
    case Turn(_) =>
      if th.Producer? then
        if |s.queue| == s.capacity then Producer(th.todo, true) else Producer(th.todo[1..], false)
      else if th.stage.Serving? then Worker(Removing)
      else if s.queue == [] then Worker(AsleepOnEmpty)
      else if s.queue[0] == Terminate then Worker(Exited)
      else Worker(Serving(s.queue[0]))
  }

  /** Except for who is awake, a step changes a sum only by what it does to the thread that moves. */
  lemma {:induction false} SumOfTurn(m: Metric, s: State, l: Label)
    requires Enabled(s, l)
    ensures m != Awake || Apply(s, l).queue == s.queue ==>
      Sum(m, Apply(s, l).threads) == Sum(m, s.threads) - Weight(m, s.threads[l.t]) + Weight(m, Mover(s, l))
  {
    hide Sum, WakeProducers, WakeWorkers, Weight, Count;
    SumUpdate(m, s.threads, l.t, Mover(s, l));
    if m != Awake {
      WakingKeepsSums(m, s.threads[l.t := Mover(s, l)]);
    }
  }

  lemma {:induction false} InvStep(s: State, l: Label)
    requires Inv(s) && Enabled(s, l)
    ensures Inv(Apply(s, l))
  {
    hide Fifo, Justified, ExitsMatch, Apply, Enabled;
    FifoStep(s, l);
    JustifiedStep(s, l);
    ExitsMatchStep(s, l);
  }

  lemma {:induction false} InvRun(s: State, ls: seq<Label>, z: State)
    requires Inv(s) && IsRun(s, ls, z)
    ensures Inv(z)
    decreases |ls|
  {
    hide Inv, Apply, Enabled;
    if ls != [] {
      InvStep(s, ls[0]);
      InvRun(Apply(s, ls[0]), ls[1..], z);
    }
  }

  lemma {:induction false} NobodyGone(ts: seq<Thread>)
    requires forall i :: 0 <= i < |ts| ==> ts[i] != Worker(Exited)
    ensures Sum(Gone, ts) == 0
    decreases |ts|
  {
    if ts != [] {
      NobodyGone(ts[1..]);
    }
  }

  lemma {:induction false} BootsInv(s: State)
    requires Boots(s)
    ensures Inv(s)
  {
    NobodyGone(s.threads);
  }

  /**
   * Under every schedule of any number of producers and workers, with any spurious wake-ups, the queue
   * is a bounded FIFO; a worker asleep on not-empty implies it is empty and a producer asleep on
   * not-full implies it is full, although not-empty is broadcast only when the size becomes one.
   */
  lemma {:induction false} BlockingQueue(s: State, ls: seq<Label>, z: State)
    requires Boots(s) && IsRun(s, ls, z)
    ensures z.added == z.removed + z.queue && |z.queue| <= z.capacity
    ensures Worker(AsleepOnEmpty) in z.threads ==> z.queue == []
    ensures forall todo :: Producer(todo, true) in z.threads ==> todo != [] && |z.queue| == z.capacity
  {
    hide IsRun, ExitsMatch, Sum, Count, Boots;
    BootsInv(s);
    InvRun(s, ls, z);
  }

  // ---- conservation ----------------------------------------------------------------------------

  lemma {:induction false} ConserveStep(s: State, l: Label, x: int)
    requires Enabled(s, l)
    ensures Count(Apply(s, l).added, x) + Sum(Todo(x), Apply(s, l).threads) == Count(s.added, x) + Sum(Todo(x), s.threads)
    ensures Sum(Workers, Apply(s, l).threads) == Sum(Workers, s.threads)
    ensures Apply(s, l).capacity == s.capacity && |Apply(s, l).threads| == |s.threads|
  {
    hide Sum;
    SumOfTurn(Todo(x), s, l);
    SumOfTurn(Workers, s, l);
    var th := s.threads[l.t];
    if th.Producer? && th.todo != [] {
      CountAppend(s.added, [th.todo[0]], x);
    }
  }

  /**
   * Whatever the schedule, nothing is lost or duplicated: every value is added, removed or still in a
   * producer's hands exactly as often as the producers were given it.
   */
  lemma {:induction false} NothingLost(s: State, ls: seq<Label>, z: State, x: int)
    requires IsRun(s, ls, z)
    ensures Count(z.added, x) + Sum(Todo(x), z.threads) == Count(s.added, x) + Sum(Todo(x), s.threads)
    ensures Sum(Workers, z.threads) == Sum(Workers, s.threads)
    ensures z.capacity == s.capacity && |z.threads| == |s.threads|
    decreases |ls|
  {
    hide Sum, Count, Apply, Enabled;
    if ls != [] {
      ConserveStep(s, ls[0], x);
      NothingLost(Apply(s, ls[0]), ls[1..], z, x);
    }
  }

  // ---- every schedule runs out of turns ----------------------------------------------------------

  function Work(s: State): nat {
    3 * Sum(TodoLen, s.threads) + 2 * |s.queue| + Sum(Busy, s.threads)
  }

  /** Work left, then threads awake: each thread awake can at most go to sleep before work is done. */
  function Measure(s: State): nat {
    Work(s) * (|s.threads| + 1) + Sum(Awake, s.threads)
  }

  lemma {:induction false} AwakeBound(ts: seq<Thread>)
    ensures Sum(Awake, ts) <= |ts|
    decreases |ts|
  {
    if ts != [] {
      AwakeBound(ts[1..]);
    }
  }

  lemma {:induction false} WorkStep(s: State, l: Label)
    requires Enabled(s, l)
    ensures var z := Apply(s, l);
      if l.SpuriousWake? then Work(z) == Work(s) && Sum(Awake, z.threads) == Sum(Awake, s.threads) + 1
      else Work(z) < Work(s) || (Work(z) == Work(s) && Sum(Awake, z.threads) < Sum(Awake, s.threads))
  {
    hide Sum, Count, WakeProducers, WakeWorkers;
    SumOfTurn(TodoLen, s, l);
    SumOfTurn(Busy, s, l);
    SumOfTurn(Awake, s, l);
  }

  lemma {:induction false} MeasureStep(s: State, l: Label)
    requires Enabled(s, l)
    ensures if l.SpuriousWake? then Measure(Apply(s, l)) == Measure(s) + 1 else Measure(Apply(s, l)) < Measure(s)
  {
    hide Sum, Work, Apply, Count;
    var z := Apply(s, l);
    WorkStep(s, l);
    ConserveStep(s, l, 0);
    AwakeBound(z.threads);
    var n := |s.threads| + 1;
    if Work(z) < Work(s) {
      assert Work(z) * n + n <= Work(s) * n by { assert (Work(z) + 1) * n <= Work(s) * n; }
    }
  }

  function Spurious(ls: seq<Label>): nat {
    if ls == [] then 0 else (if ls[0].SpuriousWake? then 1 else 0) + Spurious(ls[1..])
  }

  /**
   * The turns of any run, under any scheduler, are bounded by what there was to do at its start and
   * by the spurious wake-ups that occur in it: threads cannot keep each other busy without progress.
   */
  lemma {:induction false} TurnsBounded(s: State, ls: seq<Label>, z: State)
    requires IsRun(s, ls, z)
    ensures |ls| - Spurious(ls) + Measure(z) <= Measure(s) + Spurious(ls)
    decreases |ls|
  {
    hide Measure, Apply, Enabled;
    if ls != [] {
      MeasureStep(s, ls[0]);
      TurnsBounded(Apply(s, ls[0]), ls[1..], z);
    }
  }

  // ---- shutdown ------------------------------------------------------------------------------------

  /** The server holds one sentinel per worker. */
  predicate OneSentinelEach(s: State) {
    Boots(s) && Sum(Todo(Terminate), s.threads) == Sum(Workers, s.threads)
  }

  /**
   * sync_server_listen and sync_server_terminate: a listener with the sockets it accepts, a terminator
   * with `workers` sentinels, and the workers.
   */
  function Server(capacity: nat, sockets: seq<int>, workers: nat): State {
    State(capacity, [], [Producer(sockets, false), Producer(Sentinels(workers), false)] + seq(workers, _ => Worker(Removing)), [], [])
  }

  function Sentinels(n: nat): seq<int> {
    seq(n, _ => -1)
  }

  lemma {:induction false} CountSentinels(n: nat)
    ensures Count(Sentinels(n), Terminate) == n
  {
    if n > 0 {
      CountSentinels(n - 1);
      assert Sentinels(n)[1..] == Sentinels(n - 1);
    }
  }

  lemma {:induction false} IdleWorkers(ts: seq<Thread>)
    requires forall i :: 0 <= i < |ts| ==> ts[i] == Worker(Removing)
    ensures Sum(Workers, ts) == |ts| && Sum(Todo(Terminate), ts) == 0
    decreases |ts|
  {
    if ts != [] {
      IdleWorkers(ts[1..]);
    }
  }

  lemma {:induction false} ServerBoots(capacity: nat, sockets: seq<int>, workers: nat)
    requires forall i :: 0 <= i < |sockets| ==> sockets[i] > 0
    ensures OneSentinelEach(Server(capacity, sockets, workers))
    ensures Sum(Workers, Server(capacity, sockets, workers).threads) == workers
  {
    var ts := Server(capacity, sockets, workers).threads;
    assert ts[1..][1..] == ts[2..];
    IdleWorkers(ts[2..]);
    CountSentinels(workers);
    CountAbsent(sockets, Terminate);
  }

  /**
   * At every moment the workers still running are exactly as many as the sentinels queued or still to be
   * queued; so once terminate has queued them all, queued sentinels equal live workers.
   */
  lemma {:induction false} SentinelsMatchWorkers(s: State, ls: seq<Label>, z: State)
    requires OneSentinelEach(s) && IsRun(s, ls, z)
    ensures Sum(Workers, z.threads) - Sum(Gone, z.threads) == Count(z.queue, Terminate) + Sum(Todo(Terminate), z.threads)
    ensures Sum(Workers, z.threads) == Sum(Workers, s.threads)
  {
    hide Sum, Count, IsRun, Justified;
    BootsInv(s);
    InvRun(s, ls, z);
    NothingLost(s, ls, z, Terminate);
    CountAppend(z.removed, z.queue, Terminate);
    assert Count([], Terminate) == 0 by { CountAbsent([], Terminate); }
  }

  /** A socket added before the first sentinel has been removed before any worker exits. */
  lemma {:induction false} SocketsFirst(s: State, ls: seq<Label>, z: State, k: nat)
    requires Boots(s) && IsRun(s, ls, z)
    requires Worker(Exited) in z.threads
    requires k < |z.added| && Terminate !in z.added[..k + 1]
    ensures k < |z.removed| && z.removed[k] == z.added[k]
  {
    hide Sum, Count, IsRun, Justified;
    BootsInv(s);
    InvRun(s, ls, z);
    var t :| 0 <= t < |z.threads| && z.threads[t] == Worker(Exited);
    SumPositive(Gone, z.threads, t);
    CountAbsent(z.removed, Terminate);
    var i :| 0 <= i < |z.removed| && z.removed[i] == Terminate;
    assert z.added[i] == Terminate;
    assert forall j :: 0 <= j <= k ==> z.added[j] in z.added[..k + 1];
  }

  /** No thread can move: what is left is asleep, finished or gone. */
  predicate Quiet(s: State) {
    forall t :: 0 <= t < |s.threads| ==> !CanMove(s, t)
  }

  /** When nothing can move, every worker is gone. */
  lemma {:induction false} QuietMeansGone(z: State)
    requires Inv(z) && Quiet(z) && z.capacity > 0
    requires Sum(Workers, z.threads) - Sum(Gone, z.threads) == Count(z.queue, Terminate) + Sum(Todo(Terminate), z.threads)
    ensures forall t :: 0 <= t < |z.threads| && z.threads[t].Worker? ==> z.threads[t].stage == Exited
  {
    hide Sum, Count;
    if t :| 0 <= t < |z.threads| && z.threads[t].Worker? && z.threads[t].stage != Exited {
      assert !CanMove(z, t);
      assert Sleeps(z.threads[t]) && z.queue == [];
      forall i | 0 <= i < |z.threads| ensures Weight(Todo(Terminate), z.threads[i]) == 0 {
        assert !CanMove(z, i);
        if z.threads[i].Producer? {
          assert !Sleeps(z.threads[i]);
          CountAbsent([], Terminate);
        }
      }
      SumsToZero(Todo(Terminate), z.threads);
      CountAbsent([], Terminate);
      SumAtMost(Gone, Workers, z.threads);
      assert Weight(Gone, z.threads[t]) == Weight(Workers, z.threads[t]);
    }
  }

  lemma {:induction false} SumsToZero(m: Metric, ts: seq<Thread>)
    requires forall i :: 0 <= i < |ts| ==> Weight(m, ts[i]) == 0
    ensures Sum(m, ts) == 0
    decreases |ts|
  {
    hide Weight;
    if ts != [] {
      SumsToZero(m, ts[1..]);
    }
  }

  /** Whoever removed a socket last is still running. */
  predicate LastTaken(s: State) {
    |s.removed| > 0 && s.removed[|s.removed| - 1] != Terminate ==> Alive(s.threads)
  }

  predicate Alive(ts: seq<Thread>) {
    exists t :: 0 <= t < |ts| && ts[t].Worker? && ts[t] != Worker(Exited)
  }

  lemma {:induction false} LastTakenStep(s: State, l: Label)
    requires Enabled(s, l) && LastTaken(s)
    ensures LastTaken(Apply(s, l))
  {
    hide Sum, Count;
    var z := Apply(s, l);
    if z.removed == s.removed && Alive(s.threads) {
      var t :| 0 <= t < |s.threads| && s.threads[t].Worker? && s.threads[t] != Worker(Exited);
      assert z.threads[t].Worker? && z.threads[t] != Worker(Exited);
    } else if z.removed != s.removed && s.queue[0] != Terminate {
      assert z.threads[l.t].Worker? && z.threads[l.t] != Worker(Exited);
    }
  }

  lemma {:induction false} LastTakenRun(s: State, ls: seq<Label>, z: State)
    requires LastTaken(s) && IsRun(s, ls, z)
    ensures LastTaken(z)
    decreases |ls|
  {
    hide LastTaken, Apply, Enabled;
    if ls != [] {
      LastTakenStep(s, ls[0]);
      LastTakenRun(Apply(s, ls[0]), ls[1..], z);
    }
  }

  /**
   * Whenever a run reaches a state in which no thread can move, shutdown is complete: every worker has
   * exited, every sentinel was taken, and the sockets nobody will serve are exactly those added after
   * the last sentinel.  The only thread that can be left behind is a producer of sockets facing a queue
   * full of them.
   */
  lemma {:induction false} ShutdownCompletes(s: State, ls: seq<Label>, z: State)
    requires OneSentinelEach(s) && s.capacity > 0 && IsRun(s, ls, z) && Quiet(z)
    ensures forall t :: 0 <= t < |z.threads| && z.threads[t].Worker? ==> z.threads[t].stage == Exited
    ensures z.added == z.removed + z.queue && Terminate !in z.queue
    ensures z.removed != [] ==> z.removed[|z.removed| - 1] == Terminate
    ensures forall t :: 0 <= t < |z.threads| && z.threads[t].Producer? && z.threads[t].todo != [] ==>
      z.threads[t].asleep && |z.queue| == z.capacity && Terminate !in z.threads[t].todo
  {
    hide Sum, Count, IsRun;
    BootsInv(s);
    InvRun(s, ls, z);
    NothingLost(s, ls, z, Terminate);
    SentinelsMatchWorkers(s, ls, z);
    QuietMeansGone(z);
    LastTakenRun(s, ls, z);
    SumAtMost(Workers, Gone, z.threads);
    CountAbsent(z.queue, Terminate);
    SumZero(Todo(Terminate), z.threads);
    forall t | 0 <= t < |z.threads| && z.threads[t].Producer? && z.threads[t].todo != []
      ensures z.threads[t].asleep && |z.queue| == z.capacity && Terminate !in z.threads[t].todo
    {
      assert !CanMove(z, t);
      assert Sleeps(z.threads[t]) && Weight(Todo(Terminate), z.threads[t]) == 0;
      CountAbsent(z.threads[t].todo, Terminate);
    }
  }

  /** From any state some schedule of at most Measure turns leads to a state where nothing can move. */
  lemma {:induction false} ReachesQuiet(s: State) returns (ls: seq<Label>, z: State)
    ensures IsRun(s, ls, z) && Quiet(z) && Spurious(ls) == 0
    decreases Measure(s)
  {
    hide Measure;
    if Quiet(s) {
      ls, z := [], s;
    } else {
      var t :| 0 <= t < |s.threads| && CanMove(s, t);
      MeasureStep(s, Turn(t));
      ls, z := ReachesQuiet(Apply(s, Turn(t)));
      assert ([Turn(t)] + ls)[1..] == ls;
      ls := [Turn(t)] + ls;
    }
  }

  lemma {:induction false} RunsCompose(s: State, ls: seq<Label>, y: State, ms: seq<Label>, z: State)
    requires IsRun(s, ls, y) && IsRun(y, ms, z)
    ensures IsRun(s, ls + ms, z)
    decreases |ls|
  {
    hide Apply, Enabled;
    if ls == [] {
      assert ls + ms == ms;
    } else {
      RunsCompose(Apply(s, ls[0]), ls[1..], y, ms, z);
      assert (ls + ms)[1..] == ls[1..] + ms;
    }
  }

  /**
   * No worker can be blocked for ever: a worker that has not exited can still be brought to exit, by
   * ordinary turns alone, from every state the server can reach.
   */
  lemma {:induction false} EveryWorkerCanExit(s: State, ls: seq<Label>, y: State) returns (ms: seq<Label>, z: State)
    requires OneSentinelEach(s) && s.capacity > 0 && IsRun(s, ls, y)
    ensures IsRun(y, ms, z) && Spurious(ms) == 0 && |ms| <= Measure(y)
    ensures forall t :: 0 <= t < |z.threads| && z.threads[t].Worker? ==> z.threads[t].stage == Exited
  {
    hide IsRun, Measure, OneSentinelEach;
    ms, z := ReachesQuiet(y);
    TurnsBounded(y, ms, z);
    RunsCompose(s, ls, y, ms, z);
    ShutdownCompletes(s, ls + ms, z);
  }

  // ---- every schedule gets there -------------------------------------------------------------------

  /** One moment of a schedule: somebody moves or wakes, or nobody can and nothing happens. */
  predicate Follows(s: State, o: Option<Label>, z: State) {
    match o
    case Some(l) => Enabled(s, l) && z == Apply(s, l)
    case None => Quiet(s) && z == s
  }

  /** A schedule without spurious wake-ups from `n` on comes to rest. */
  lemma {:induction false} ComesToRest(run: nat -> State, sched: nat -> Option<Label>, n: nat) returns (k: nat)
    requires forall j: nat :: n <= j ==> Follows(run(j), sched(j), run(j + 1)) && (sched(j).Some? ==> sched(j).value.Turn?)
    ensures n <= k && Quiet(run(k))
    decreases Measure(run(n))
  {
    hide Measure, Apply;
    if Quiet(run(n)) {
      k := n;
    } else {
      assert Follows(run(n), sched(n), run(n + 1));
      MeasureStep(run(n), sched(n).value);
      k := ComesToRest(run, sched, n + 1);
    }
  }

  /** The moments before `k` are a run of the machine. */
  lemma {:induction false} ScheduleIsRun(run: nat -> State, sched: nat -> Option<Label>, k: nat) returns (ls: seq<Label>)
    requires forall j: nat :: Follows(run(j), sched(j), run(j + 1))
    ensures IsRun(run(0), ls, run(k))
  {
    hide Apply, Enabled;
    if k == 0 {
      ls := [];
    } else {
      ls := ScheduleIsRun(run, sched, k - 1);
      assert Follows(run(k - 1), sched(k - 1), run(k - 1 + 1));
      if sched(k - 1).Some? {
        var l := sched(k - 1).value;
        assert IsRun(run(k), [], run(k)) && [l][1..] == [];
        RunsCompose(run(0), ls, run(k - 1), [l], run(k));
        ls := ls + [l];
      }
    }
  }

  lemma {:induction false} RestsForEver(run: nat -> State, sched: nat -> Option<Label>, k: nat, j: nat)
    requires Quiet(run(k)) && k <= j
    requires forall i: nat :: k <= i ==> Follows(run(i), sched(i), run(i + 1)) && (sched(i).Some? ==> sched(i).value.Turn?)
    ensures run(j) == run(k)
    decreases j
  {
    hide Apply;
    if j > k {
      RestsForEver(run, sched, k, j - 1);
      assert Follows(run(j - 1), sched(j - 1), run(j - 1 + 1));
    }
  }

  /**
   * Shutdown is inevitable.  Whatever the scheduler does, if it lets somebody move whenever somebody can
   * and spurious wake-ups stop at some point, a moment comes from which on every worker has exited.
   */
  lemma {:induction false} ShutdownInevitable(run: nat -> State, sched: nat -> Option<Label>, n: nat) returns (k: nat)
    requires OneSentinelEach(run(0)) && run(0).capacity > 0
    requires forall j: nat :: Follows(run(j), sched(j), run(j + 1))
    requires forall j: nat :: n <= j && sched(j).Some? ==> sched(j).value.Turn?
    ensures forall j: nat :: k <= j ==> run(j) == run(k)
    ensures forall t :: 0 <= t < |run(k).threads| && run(k).threads[t].Worker? ==> run(k).threads[t].stage == Exited
  {
    hide Follows, OneSentinelEach, IsRun, Quiet;
    k := ComesToRest(run, sched, n);
    var ls := ScheduleIsRun(run, sched, k);
    ShutdownCompletes(run(0), ls, run(k));
    forall j: nat | k <= j ensures run(j) == run(k) {
      RestsForEver(run, sched, k, j);
    }
  }
}
