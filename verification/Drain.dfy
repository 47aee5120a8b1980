/**
 * The drain loop of the reactor ends although functors keep posting functors, provided new input
 * stops arriving at some point.  The measure is lexicographic: bytes not yet received, phase ranks, bytes not
 * yet sent, each summed over all connections.
 */
module Drain {
  import opened Common
  import opened AsyncTypes
  import opened ConnectionSteps
  import opened ReactorMachine
  import opened Protocol

  /** Distance of a phase from the next recv, which is paid for by the bytes it takes. */
  function Rank(l: Live): nat {
    match PhaseOf(l)
    case Some(RequestPosted) => 5
    case Some(Processing) => 4
    case Some(WriterPosted) => 3
    case Some(WriteCompletePosted) => 2
    case Some(ReaderPosted) => 2
    case Some(Closing) => 1
    case _ => 0
  }

  function Unread(l: Live): nat { |l.sock.unread| }
  function Output(l: Live): nat { OutputLength(l.conn) }

  function Total(live: map<Id, Live>, n: nat, weight: Live -> nat): nat {
    if n == 0 then 0 else Total(live, n - 1, weight) + (if n - 1 in live then weight(live[n - 1]) else 0)
  }

  lemma {:induction false} TotalUpdate(live: map<Id, Live>, n: nat, weight: Live -> nat, id: Id, l: Live)
    requires id in live
    ensures Total(live[id := l], n, weight) == Total(live, n, weight) + (if id < n then weight(l) - weight(live[id]) else 0)
  {
    if n > 0 { TotalUpdate(live, n - 1, weight, id, l); }
  }

  lemma {:induction false} TotalRemove(live: map<Id, Live>, n: nat, weight: Live -> nat, id: Id)
    requires id in live
    ensures Total(live - {id}, n, weight) == Total(live, n, weight) - (if id < n then weight(live[id]) else 0)
  {
    if n > 0 { TotalRemove(live, n - 1, weight, id); }
  }

  lemma {:induction false} TotalSame(live: map<Id, Live>, live': map<Id, Live>, n: nat, weight: Live -> nat)
    requires live.Keys == live'.Keys && forall id :: id in live ==> weight(live[id]) == weight(live'[id])
    ensures Total(live, n, weight) == Total(live', n, weight)
  {
    if n > 0 { TotalSame(live, live', n - 1, weight); }
  }

  /** Lexicographic order on triples. */
  predicate Less(a: (nat, nat, nat), b: (nat, nat, nat)) {
    a.0 < b.0 || (a.0 == b.0 && (a.1 < b.1 || (a.1 == b.1 && a.2 < b.2)))
  }

  predicate NotAbove(a: (nat, nat, nat), b: (nat, nat, nat)) { a == b || Less(a, b) }

  lemma {:induction false} StillNotAbove(a: (nat, nat, nat), b: (nat, nat, nat), c: (nat, nat, nat))
    requires NotAbove(a, b) && NotAbove(b, c)
    ensures NotAbove(a, c)
  {
  }

  function Measure(w: State): (nat, nat, nat) {
    (Total(w.live, w.nextId, Unread), Total(w.live, w.nextId, Rank), Total(w.live, w.nextId, Output))
  }

  lemma {:induction false} FunctorDecreases(f: Functor, l: Live, recv: RecvOutcome, send: SendOutcome, answer: Option<Bytes>)
    requires LiveOk(l) && FunctorLegal(l, recv, send, answer) && KindOf(l) == Some(f.kind) && f.kind != CloseFn
    ensures var e := FunctorEffect(f, l, recv, send, answer);
      e.Ok? && Less((Unread(e.live), Rank(e.live), Output(e.live)), (Unread(l), Rank(l), Output(l)))
  {
    hide Flat;
    FunctorOk(f, l, recv, send, answer);
  }

  lemma {:induction false} FunctorStepDecreases(w: State, lb: Label)
    requires Inv(w) && Enabled(w, lb) && lb.RunFunctor?
    ensures Good(Apply(w, lb)) && Less(Measure(Apply(w, lb).state), Measure(w))
  {
    hide LiveOk, KindOf, FunctorEffect, Unread, Rank, Output, Total;
    StepOk(w, lb);
    PopQueue(w.ready, Kinds(w.live));
    var f := w.ready[0];
    var l := w.live[f.target];
    if f.kind == CloseFn {
      TotalRemove(w.live, w.nextId, Unread, f.target);
      TotalRemove(w.live, w.nextId, Rank, f.target);
      assert Rank(l) == 1 by { ClosingRank(l); }
    } else {
      FunctorDecreases(f, l, lb.recv, lb.send, lb.answer);
      var e := FunctorEffect(f, l, lb.recv, lb.send, lb.answer);
      TotalUpdate(w.live, w.nextId, Unread, f.target, e.live);
      TotalUpdate(w.live, w.nextId, Rank, f.target, e.live);
      TotalUpdate(w.live, w.nextId, Output, f.target, e.live);
    }
  }

  lemma {:induction false} ClosingRank(l: Live)
    requires KindOf(l) == Some(CloseFn)
    ensures Rank(l) == 1
  {
  }

  /** The kernel may do anything to the sockets. */
  ghost predicate KernelMoves(w: State, u: State) {
    && u == w.(live := u.live) && u.live.Keys == w.live.Keys
    && forall id :: id in w.live ==> KernelOnly(w.live[id], u.live[id])
  }

  /** The kernel may do anything to the sockets but deliver input. */
  ghost predicate NoNewInput(w: State, u: State) {
    KernelMoves(w, u) && forall id :: id in w.live ==> u.live[id].sock.unread == w.live[id].sock.unread
  }

  /** What happens while the reactor drains: a functor runs, or the application gives an answer it owes. */
  predicate DrainLabel(lb: Label) { lb.RunFunctor? || lb.LateAnswer? }

  ghost predicate Takes(u: State, lb: Label, v: State) {
    DrainLabel(lb) && Enabled(u, lb) && Apply(u, lb) == Running(v)
  }

  /** One turn of the drain loop, with the kernel active before it. */
  ghost predicate DrainTurn(w: State, v: State) {
    w.pc == InDrain && exists u: State, lb: Label :: KernelMoves(w, u) && Takes(u, lb, v)
  }

  /** The same while no input arrives. */
  ghost predicate QuietTurn(w: State, v: State) {
    w.pc == InDrain && exists u: State, lb: Label :: NoNewInput(w, u) && Takes(u, lb, v)
  }

  /** A late answer leaves input alone and takes the connection one phase on. */
  lemma {:induction false} AnswerDecreases(id: Id, l: Live, response: Bytes)
    requires LiveOk(l) && Owed(l) && response != []
    ensures var e := ConnectionWrite(id, l, response);
      e.Ok? && Unread(e.live) == Unread(l) && Rank(e.live) < Rank(l)
  {
    hide Flat;
    OwedProcessing(l);
    WriteEffect(id, l, response);
  }

  lemma {:induction false} AnswerStepDecreases(w: State, lb: Label)
    requires Inv(w) && Enabled(w, lb) && lb.LateAnswer?
    ensures Good(Apply(w, lb)) && Less(Measure(Apply(w, lb).state), Measure(w))
  {
    hide LiveOk, KindOf, ConnectionWrite, Unread, Rank, Output, Total, Owed;
    StepOk(w, lb);
    AnswerDecreases(lb.id, w.live[lb.id], lb.response);
    var e := ConnectionWrite(lb.id, w.live[lb.id], lb.response);
    TotalUpdate(w.live, w.nextId, Unread, lb.id, e.live);
    TotalUpdate(w.live, w.nextId, Rank, lb.id, e.live);
  }

  lemma {:induction false} NothingNew(w: State)
    ensures NoNewInput(w, w)
  {
  }

  lemma {:induction false} NothingNewAt(w: State, id: Id, sock: Socket)
    requires id in w.live && sock.unread == w.live[id].sock.unread && sock.sent == w.live[id].sock.sent
    ensures NoNewInput(w, WithSocket(w, id, sock))
  {
  }

  lemma {:induction false} QuietSame(w: State, u: State)
    requires Inv(w) && NoNewInput(w, u)
    ensures Inv(u) && Measure(u) == Measure(w)
  {
    KernelStepOk(w, u);
    forall id | id in w.live ensures Rank(w.live[id]) == Rank(u.live[id]) {
      KernelOnlyLive(w.live[id], u.live[id]);
    }
    hide Inv, PhaseOf;
    TotalSame(w.live, u.live, w.nextId, Unread);
    TotalSame(w.live, u.live, w.nextId, Rank);
    TotalSame(w.live, u.live, w.nextId, Output);
  }

  lemma {:induction false} QuietTurnDecreases(w: State, v: State)
    requires Inv(w) && QuietTurn(w, v)
    ensures Inv(v) && Less(Measure(v), Measure(w))
  {
    hide Inv, Apply, Enabled, Measure;
    var u: State, lb: Label :| NoNewInput(w, u) && Takes(u, lb, v);
    QuietSame(w, u);
    if lb.RunFunctor? {
      FunctorStepDecreases(u, lb);
    } else {
      AnswerStepDecreases(u, lb);
    }
  }

  /** A turn takes the reactor from draining to draining. */
  lemma {:induction false} TurnStays(w: State, v: State)
    requires Inv(w) && DrainTurn(w, v)
    ensures Inv(v) && v.pc == InDrain
  {
    hide Apply, Inv;
    var u: State, lb: Label :| KernelMoves(w, u) && Takes(u, lb, v);
    Moved(w, u);
    StepOk(u, lb);
    PcStays(u, lb, v);
  }

  lemma {:induction false} Moved(w: State, u: State)
    requires Inv(w) && KernelMoves(w, u)
    ensures Inv(u)
  {
    KernelStepOk(w, u);
  }

  lemma {:induction false} PcStays(u: State, lb: Label, v: State)
    requires Takes(u, lb, v)
    ensures v.pc == u.pc
  {
    hide ConnectionWrite, FunctorEffect;
  }

  lemma {:induction false} QuietIsTurn(w: State, v: State)
    requires QuietTurn(w, v)
    ensures DrainTurn(w, v)
  {
    hide Takes;
  }

  /** No sequence of states goes on for ever by quiet turns. */
  lemma {:induction false} QuietTurnsEnd(run: nat -> State, n: nat) returns (k: nat)
    requires Inv(run(n)) && run(n).pc == InDrain
    ensures n <= k && !QuietTurn(run(k), run(k + 1)) && run(k).pc == InDrain
    ensures forall j :: n <= j < k ==> DrainTurn(run(j), run(j + 1))
    decreases Measure(run(n)).0, Measure(run(n)).1, Measure(run(n)).2
  {
    hide Inv, DrainTurn, QuietTurn, Measure;
    if QuietTurn(run(n), run(n + 1)) {
      QuietTurnDecreases(run(n), run(n + 1));
      QuietIsTurn(run(n), run(n + 1));
      TurnStays(run(n), run(n + 1));
      k := QuietTurnsEnd(run, n + 1);
    } else {
      k := n;
    }
  }

  /** While a functor is queued, another turn is possible, and without new input: such sequences exist. */
  lemma {:induction false} DrainGoesOn(w: State)
    requires Inv(w) && w.pc == InDrain && w.ready != []
    ensures exists v :: QuietTurn(w, v)
  {
    hide Inv, Apply;
    var lb := RunFunctor(RecvError, SendError, None);
    assert Enabled(w, lb);
    StepOk(w, lb);
    TakesTurn(w, lb, Apply(w, lb).state);
  }

  lemma {:induction false} TakesTurn(w: State, lb: Label, v: State)
    requires w.pc == InDrain && Takes(w, lb, v)
    ensures QuietTurn(w, v)
  {
    hide Takes;
    assert NoNewInput(w, w);
  }

  /** Input arrives before turn `n` at the latest. */
  lemma {:induction false} EndsFrom(run: nat -> State, i: nat, n: nat) returns (k: nat)
    requires i <= n && Inv(run(i)) && run(i).pc == InDrain
    requires forall j: nat :: run(j).ready != [] ==> DrainTurn(run(j), run(j + 1))
    requires forall j: nat :: n <= j && run(j).ready != [] ==> QuietTurn(run(j), run(j + 1))
    ensures i <= k && run(k).pc == InDrain && run(k).ready == []
    ensures forall j :: i <= j < k ==> DrainTurn(run(j), run(j + 1))
    decreases n - i
  {
    hide Inv, DrainTurn, QuietTurn;
    if run(i).ready == [] {
      k := i;
    } else if i < n {
      TurnStays(run(i), run(i + 1));
      k := EndsFrom(run, i + 1, n);
    } else {
      k := QuietTurnsEnd(run, i);
    }
  }

  /**
   * From every reachable state in which the reactor drains, the loop ends after finitely many turns,
   * whatever the functors and the application choose, whatever answers it gives late, and whatever the
   * kernel does, provided it delivers input before finitely many turns only; and it ends with an empty
   * list.  `run` is any sequence of states that takes a turn for as long as a functor is queued.
   */
  lemma {:induction false} DrainEnds(ws: seq<State>, ls: seq<Label>, run: nat -> State, n: nat) returns (k: nat)
    requires IsRun(ws, ls) && run(0) == ws[|ls|] && run(0).pc == InDrain
    requires forall j: nat :: run(j).ready != [] ==> DrainTurn(run(j), run(j + 1))
    requires forall j: nat :: n <= j && run(j).ready != [] ==> QuietTurn(run(j), run(j + 1))
    ensures forall j :: 0 <= j < k ==> DrainTurn(run(j), run(j + 1))
    ensures run(k).pc == InDrain && run(k).ready == []
  {
    hide Inv, DrainTurn, QuietTurn, IsRun;
    RunOk(ws, ls, |ls|) by { LastState(ws, ls); }
    k := EndsFrom(run, 0, n);
  }

  lemma {:induction false} LastState(ws: seq<State>, ls: seq<Label>)
    requires IsRun(ws, ls)
    ensures |ls| < |ws|
  {
  }
}
