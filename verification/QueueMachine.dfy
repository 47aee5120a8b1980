/**
 * Producers and workers around the bounded blocking queue of queue.c, as a machine whose steps are the
 * passes a thread makes while it holds the mutex: from taking the lock (or waking from a wait) to
 * releasing it (or going to sleep on a condition variable).  The scheduler, and spurious wake-ups, are
 * arbitrary.
 */
module QueueMachine {

  const Terminate: int := -1       // the socket value that tells a worker to stop

  /** One pass of Queue_add or Queue_remove: sleep, or finish and perhaps broadcast. */
  datatype Pass = Wait | Done(queue: seq<int>, broadcast: bool)

  function AddPass(queue: seq<int>, capacity: nat, sock: int): Pass {
    if |queue| == capacity then Wait else Done(queue + [sock], |queue| + 1 == 1)
  }

  function RemovePass(queue: seq<int>, capacity: nat): Pass {
    if queue == [] then Wait else Done(queue[1..], |queue| - 1 < capacity)
  }

  datatype Thread =
    | Producer(todo: seq<int>, asleep: bool)    // sockets still to be added; asleep on not-full
    | Worker(stage: Stage)

  datatype Stage = Removing | AsleepOnEmpty | Serving(sock: int) | Exited

  /** `added` and `removed` record every completed Queue_add and Queue_remove, oldest first. */
  datatype State = State(
    capacity: nat, queue: seq<int>, threads: seq<Thread>, added: seq<int>, removed: seq<int>)

  function WakeProducers(ts: seq<Thread>): seq<Thread> {
    seq(|ts|, i requires 0 <= i < |ts| => if ts[i].Producer? then Producer(ts[i].todo, false) else ts[i])
  }

  function WakeWorkers(ts: seq<Thread>): seq<Thread> {
    seq(|ts|, i requires 0 <= i < |ts| => if ts[i] == Worker(AsleepOnEmpty) then Worker(Removing) else ts[i])
  }

  /** Thread `t` has something to do and is not asleep. */
  predicate CanMove(s: State, t: nat) {
    t < |s.threads| && match s.threads[t] {
      case Producer(todo, asleep) => todo != [] && !asleep
      case Worker(stage) => stage == Removing || stage.Serving?
    }
  }

  predicate Sleeps(th: Thread) {
    match th
    case Producer(_, asleep) => asleep
    case Worker(stage) => stage == AsleepOnEmpty
  }

  function AddTurn(s: State, t: nat): State
    requires CanMove(s, t) && s.threads[t].Producer?
  {
    var todo := s.threads[t].todo;
    match AddPass(s.queue, s.capacity, todo[0])
    case Wait => s.(threads := s.threads[t := Producer(todo, true)])
    case Done(queue, broadcast) =>
      var ts := s.threads[t := Producer(todo[1..], false)];
      s.(queue := queue, threads := if broadcast then WakeWorkers(ts) else ts, added := s.added + [todo[0]])
  }

  function RemoveTurn(s: State, t: nat): State
    requires t < |s.threads| && s.threads[t] == Worker(Removing)
  {
    match RemovePass(s.queue, s.capacity)
    case Wait => s.(threads := s.threads[t := Worker(AsleepOnEmpty)])
    case Done(queue, broadcast) =>
      var sock := s.queue[0];
      var ts := s.threads[t := Worker(if sock == Terminate then Exited else Serving(sock))];
      s.(queue := queue, threads := if broadcast then WakeProducers(ts) else ts, removed := s.removed + [sock])
  }

  datatype Label = Turn(t: nat) | SpuriousWake(t: nat)

  predicate Enabled(s: State, l: Label) {
    match l
    case Turn(t) => CanMove(s, t)
    case SpuriousWake(t) => t < |s.threads| && Sleeps(s.threads[t])
  }

  function Apply(s: State, l: Label): State
    requires Enabled(s, l)
  {
    match l
    case Turn(t) =>
      (match s.threads[t]
       case Producer(_, _) => AddTurn(s, t)
       case Worker(stage) => if stage == Removing then RemoveTurn(s, t) else s.(threads := s.threads[t := Worker(Removing)]))
    case SpuriousWake(t) =>
      s.(threads := s.threads[t := if s.threads[t].Producer? then Producer(s.threads[t].todo, false) else Worker(Removing)])
  }

  ghost predicate IsRun(s: State, ls: seq<Label>, z: State)
    decreases |ls|
  {
    if ls == [] then z == s else Enabled(s, ls[0]) && IsRun(Apply(s, ls[0]), ls[1..], z)
  }

  /** A fresh queue and threads that have not begun. */
  predicate Boots(s: State) {
    && s.queue == [] && s.added == [] && s.removed == []
    && forall i :: 0 <= i < |s.threads| ==>
         (s.threads[i].Producer? && !s.threads[i].asleep) || s.threads[i] == Worker(Removing)
  }

  // ---- quantities summed over the threads ------------------------------------------------------

  datatype Metric = Todo(sock: int) | TodoLen | Busy | Awake | Workers | Gone

  function Count(s: seq<int>, x: int): nat {
    if s == [] then 0 else (if s[0] == x then 1 else 0) + Count(s[1..], x)
  }

  function Weight(m: Metric, th: Thread): nat {
    match m
    case Todo(x) => if th.Producer? then Count(th.todo, x) else 0
    case TodoLen => if th.Producer? then |th.todo| else 0
    case Busy => if th.Worker? && th.stage.Serving? then 1 else 0
    case Awake => if Sleeps(th) then 0 else 1
    case Workers => if th.Worker? then 1 else 0
    case Gone => if th == Worker(Exited) then 1 else 0
  }

  function Sum(m: Metric, ts: seq<Thread>): nat {
    if ts == [] then 0 else Weight(m, ts[0]) + Sum(m, ts[1..])
  }

  lemma {:induction false} SumUpdate(m: Metric, ts: seq<Thread>, t: nat, th: Thread)
    requires t < |ts|
    ensures Sum(m, ts[t := th]) == Sum(m, ts) - Weight(m, ts[t]) + Weight(m, th)
    decreases |ts|
  {
    hide Weight;
    if t > 0 {
      SumUpdate(m, ts[1..], t - 1, th);
      assert ts[t := th][1..] == ts[1..][t - 1 := th];
    } else {
      assert ts[t := th][1..] == ts[1..];
    }
  }

  lemma {:induction false} SumSame(m: Metric, ts: seq<Thread>, us: seq<Thread>)
    requires |ts| == |us| && forall i :: 0 <= i < |ts| ==> Weight(m, ts[i]) == Weight(m, us[i])
    ensures Sum(m, ts) == Sum(m, us)
    decreases |ts|
  {
    hide Weight;
    if ts != [] {
      SumSame(m, ts[1..], us[1..]);
    }
  }

  lemma {:induction false} SumPositive(m: Metric, ts: seq<Thread>, t: nat)
    requires t < |ts| && Weight(m, ts[t]) > 0
    ensures Sum(m, ts) > 0
    decreases |ts|
  {
    if t > 0 {
      SumPositive(m, ts[1..], t - 1);
    }
  }

  lemma {:induction false} SumZero(m: Metric, ts: seq<Thread>)
    requires Sum(m, ts) == 0
    ensures forall i :: 0 <= i < |ts| ==> Weight(m, ts[i]) == 0
    decreases |ts|
  {
    forall i | 0 <= i < |ts| ensures Weight(m, ts[i]) == 0 {
      if Weight(m, ts[i]) > 0 {
        SumPositive(m, ts, i);
      }
    }
  }

  /** Two metrics that agree in total and are ordered thread by thread agree thread by thread. */
  lemma {:induction false} SumAtMost(m: Metric, n: Metric, ts: seq<Thread>)
    requires forall i :: 0 <= i < |ts| ==> Weight(m, ts[i]) <= Weight(n, ts[i])
    ensures Sum(m, ts) <= Sum(n, ts)
    ensures Sum(m, ts) == Sum(n, ts) ==> forall i :: 0 <= i < |ts| ==> Weight(m, ts[i]) == Weight(n, ts[i])
    decreases |ts|
  {
    hide Weight;
    if ts != [] {
      SumAtMost(m, n, ts[1..]);
      assert forall i :: 1 <= i < |ts| ==> ts[i] == ts[1..][i - 1];
    }
  }

  lemma {:induction false} CountAppend(s: seq<int>, r: seq<int>, x: int)
    ensures Count(s + r, x) == Count(s, x) + Count(r, x)
    decreases |s|
  {
    if s == [] {
      assert s + r == r;
    } else {
      CountAppend(s[1..], r, x);
      assert (s + r)[1..] == s[1..] + r;
    }
  }

  lemma {:induction false} CountAbsent(s: seq<int>, x: int)
    ensures Count(s, x) == 0 <==> x !in s
    decreases |s|
  {
    if s != [] {
      CountAbsent(s[1..], x);
      assert s == [s[0]] + s[1..];
    }
  }

  /** Broadcasts change who is awake and nothing else that is summed. */
  lemma {:induction false} WakingKeepsSums(m: Metric, ts: seq<Thread>)
    requires m != Awake
    ensures Sum(m, WakeProducers(ts)) == Sum(m, ts) && Sum(m, WakeWorkers(ts)) == Sum(m, ts)
  {
    SumSame(m, WakeProducers(ts), ts);
    SumSame(m, WakeWorkers(ts), ts);
  }
}
