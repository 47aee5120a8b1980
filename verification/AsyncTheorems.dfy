/**
 * What holds in every state of every run of the asynchronous server, for any number of connections
 * and any behaviour of the kernel, the HTTP parser and the application.
 */
module AsyncTheorems {
  import opened Common
  import opened AsyncTypes
  import opened ConnectionSteps
  import opened ReactorMachine
  import opened History
  import opened Protocol
  import opened Reference

  /** No assertion of the source fails and no freed object is used, whatever happens next. */
  lemma {:induction false} NeverCrashes(ws: seq<State>, ls: seq<Label>, next: Label)
    requires IsRun(ws, ls) && Enabled(ws[|ls|], next)
    ensures Apply(ws[|ls|], next).Running?
  {
    hide Apply, Inv;
    RunOk(ws, ls, |ls|);
    StepOk(ws[|ls|], next);
  }

  /** How many functors of the ready list belong to one connection. */
  function Count(fs: seq<Functor>, id: Id): nat {
    if fs == [] then 0 else Count(fs[1..], id) + (if fs[0].target == id then 1 else 0)
  }

  lemma {:induction false} CountDistinct(fs: seq<Functor>, id: Id)
    requires DistinctTargets(fs)
    ensures Count(fs, id) == if exists f :: f in fs && f.target == id then 1 else 0
  {
    if fs != [] {
      CountDistinct(fs[1..], id);
      if fs[0].target == id {
        assert fs[0] in fs;
      } else if f :| f in fs && f.target == id {
        assert f in fs[1..];
      } else {
        assert forall f :: f in fs[1..] ==> f in fs;
      }
    }
  }

  /**
   * Each connection is in exactly one phase; the phase fixes whether it owns a queued functor and
   * which one, and it never owns two.
   */
  lemma {:induction false} OnePhaseOneFunctor(ws: seq<State>, ls: seq<Label>, i: nat, id: Id)
    requires IsRun(ws, ls) && i < |ws| && id in ws[i].live
    ensures PhaseOf(ws[i].live[id]).Some?
    ensures Count(ws[i].ready, id) == if KindOf(ws[i].live[id]).Some? then 1 else 0
    ensures forall f :: f in ws[i].ready && f.target == id ==> KindOf(ws[i].live[id]) == Some(f.kind)
  {
    hide Apply, PhaseOf, KindOf;
    RunOk(ws, ls, i);
    CountDistinct(ws[i].ready, id);
    var w := ws[i];
    var k := Kinds(w.live)[id];
    if k.Some? {
      assert Functor(k.value, id) in w.ready;
    }
  }

  /** The ready list holds at most one item per descriptor, half of what the ring can take. */
  lemma {:induction false} ReadyListNeverOverflows(ws: seq<State>, ls: seq<Label>, i: nat)
    requires IsRun(ws, ls) && i < |ws|
    ensures |ws[i].ready| <= FDTABLE_MAX < READY_LIST_MAX - 1
  {
    hide Apply, PhaseOf;
    RunOk(ws, ls, i);
    ReadyBound(ws[i]);
  }

  /** Whatever is queued or about to be dispatched refers to a live connection or the listener. */
  lemma {:induction false} NothingDangles(ws: seq<State>, ls: seq<Label>, i: nat)
    requires IsRun(ws, ls) && i < |ws|
    ensures forall f :: f in ws[i].ready ==> f.target in ws[i].live
    ensures ws[i].pc.InBatch? ==> forall e :: e in ws[i].pc.events ==>
              && e.fd in ws[i].table
              && (ws[i].table[e.fd].Stream? ==> ws[i].table[e.fd].id in ws[i].live)
  {
    hide Apply, PhaseOf;
    RunOk(ws, ls, i);
  }

  /** Identities only grow, and a step brings at most the next one to life. */
  lemma {:induction false} NoResurrection(w: State, lb: Label)
    requires Inv(w) && Enabled(w, lb)
    ensures Apply(w, lb).Running?
    ensures w.nextId <= Apply(w, lb).state.nextId
    ensures forall id :: id < w.nextId && id in Apply(w, lb).state.live ==> id in w.live
  {
    hide LiveOk, Kinds, Install, EventHandler, FunctorEffect, ConnectionRead, ConnectionWrite;
    StepOk(w, lb);
    match lb {
      case Dispatch(accepted) =>
        var w1, e := w.(pc := InBatch(w.pc.events[1..])), w.pc.events[0];
        match w.table[e.fd] {
          case Listener =>
            if accepted.Some? {
              var n := accepted.value;
              InstallKeys(Allocated(w1, n), w.nextId, ConnectionRead(w.nextId, NewConnection(n.fd, n.sock, n.garbage), n.recv));
            }
          case Stream(id) => InstallKeys(w1, id, EventHandler(id, w.live[id], e.pollIn, e.pollOut));
        }
      case RunFunctor(recv, send, answer) =>
        var f, w1 := w.ready[0], w.(ready := w.ready[1..]);
        if f.kind != CloseFn {
          InstallKeys(w1, f.target, FunctorEffect(f, w.live[f.target], recv, send, answer));
        }
      case LateAnswer(id, response) => InstallKeys(w, id, ConnectionWrite(id, w.live[id], response));
      case _ =>
    }
  }

  lemma {:induction false} InstallKeys(w: State, id: Id, e: Effect)
    requires Install(w, id, e).Running?
    ensures Install(w, id, e).state.live.Keys == w.live.Keys + {id}
    ensures Install(w, id, e).state.nextId == w.nextId
  {
  }

  lemma {:induction false} DeadStaysDead(ws: seq<State>, ls: seq<Label>, i: nat, j: nat, id: Id)
    requires IsRun(ws, ls) && i <= j < |ws| && id < ws[i].nextId && id !in ws[i].live
    ensures id < ws[j].nextId && id !in ws[j].live && forall f :: f in ws[j].ready ==> f.target != id
    decreases j
  {
    hide Apply, Inv;
    NothingDangles(ws, ls, j);
    if i < j {
      DeadStaysDead(ws, ls, i, j - 1, id);
      RunOk(ws, ls, j - 1);
      NoResurrection(ws[j - 1], ls[j - 1]);
    }
  }

  predicate RunsClose(w: State, lb: Label, id: Id) {
    lb.RunFunctor? && w.ready != [] && w.ready[0] == Functor(CloseFn, id)
  }

  /** Once the close functor of a connection has run, nothing refers to it again and it does not run twice. */
  lemma {:induction false} ClosedOnceForAll(ws: seq<State>, ls: seq<Label>, i: nat, j: nat, id: Id)
    requires IsRun(ws, ls) && i < j < |ws| && RunsClose(ws[i], ls[i], id)
    ensures id !in ws[j].live && id !in ws[j].handlers
    ensures forall f :: f in ws[j].ready ==> f.target != id
    ensures forall fd :: fd in ws[j].table ==> ws[j].table[fd] != Stream(id)
    ensures ws[j].pc.InBatch? ==> forall e :: e in ws[j].pc.events ==> e.fd in ws[j].table && ws[j].table[e.fd] != Stream(id)
    ensures j < |ls| ==> !RunsClose(ws[j], ls[j], id)
  {
    RunOk(ws, ls, i);
    NothingDangles(ws, ls, i);
    assert ws[i].ready[0] in ws[i].ready;
    assert ws[i + 1] == Close(ws[i].(ready := ws[i].ready[1..]), id).state;
    DeadStaysDead(ws, ls, i + 1, j, id);
    RunOk(ws, ls, j);
  }

  /**
   * Within a batch the descriptor table only grows, and what is left to dispatch was reported.
   */
  lemma {:induction false} BatchKeepsTable(w: State, lb: Label)
    requires Inv(w) && Enabled(w, lb) && w.pc.InBatch?
    ensures Apply(w, lb).Running?
    ensures var v := Apply(w, lb).state;
      && (forall fd :: fd in w.table ==> fd in v.table && v.table[fd] == w.table[fd])
      && (v.pc.InBatch? ==> forall e :: e in v.pc.events ==> e in w.pc.events)
  {
    hide LiveOk, Kinds, Install, EventHandler, ConnectionRead, ConnectionWrite;
    StepOk(w, lb);
    match lb {
      case Dispatch(accepted) =>
        var w1, e := w.(pc := InBatch(w.pc.events[1..])), w.pc.events[0];
        assert e in w.pc.events;
        match w.table[e.fd] {
          case Listener =>
            if accepted.Some? {
              var n := accepted.value;
              InstallShape(Allocated(w1, n), w.nextId, ConnectionRead(w.nextId, NewConnection(n.fd, n.sock, n.garbage), n.recv));
            }
          case Stream(id) => InstallShape(w1, id, EventHandler(id, w.live[id], e.pollIn, e.pollOut));
        }
      case LateAnswer(id, response) => InstallShape(w, id, ConnectionWrite(id, w.live[id], response));
      case _ =>
    }
  }

  /**
   * An event is delivered to the watcher it was reported for: from the epoll_wait that reported it until
   * it is dispatched its descriptor is not given to another connection, although connections are accepted
   * within the batch.
   */
  lemma {:induction false} EventsReachTheirWatcher(ws: seq<State>, ls: seq<Label>, i: nat, j: nat)
    requires IsRun(ws, ls) && i < j < |ws| && ls[i].EpollWait?
    requires forall k :: i < k <= j ==> ws[k].pc.InBatch?
    ensures forall e :: e in ws[j].pc.events ==>
      e in ls[i].events && e.fd in ws[i].table && e.fd in ws[j].table && ws[j].table[e.fd] == ws[i].table[e.fd]
    decreases j
  {
    RunOk(ws, ls, i);
    BatchTable(ws, ls, i, j);
  }

  lemma {:induction false} BatchTable(ws: seq<State>, ls: seq<Label>, i: nat, j: nat)
    requires IsRun(ws, ls) && i < j < |ws| && ls[i].EpollWait? && ws[i].epoll == ws[i].table.Keys
    requires forall k :: i < k <= j ==> ws[k].pc.InBatch?
    ensures forall fd :: fd in ws[i].table ==> fd in ws[j].table && ws[j].table[fd] == ws[i].table[fd]
    ensures forall e :: e in ws[j].pc.events ==> e in ls[i].events && e.fd in ws[i].table
    decreases j
  {
    if j == i + 1 {
      ReportedWatched(ws[i], ls[i]);
    } else {
      hide Apply, Enabled, Inv;
      BatchTable(ws, ls, i, j - 1);
      RunOk(ws, ls, j - 1);
      BatchKeepsTable(ws[j - 1], ls[j - 1]);
    }
  }

  lemma {:induction false} ReportedWatched(w: State, lb: Label)
    requires lb.EpollWait? && Enabled(w, lb) && Apply(w, lb).Running? && w.epoll == w.table.Keys
    ensures var v := Apply(w, lb).state;
      v.table == w.table && v.pc == InBatch(lb.events) && forall e :: e in lb.events ==> e.fd in w.table
  {
  }

  /**
   * The bytes the kernel has taken are the completed ones of the responses that the application gave,
   * followed by a prefix of the current one, and the output buffer holds the rest of it.
   */
  lemma {:induction false} OutputIsExact(ws: seq<State>, ls: seq<Label>, i: nat, id: Id)
    requires IsRun(ws, ls) && i < |ws| && id in ws[i].live
    ensures var l := ws[i].live[id];
      var rs := AnsweredIn(Deeds(ws, ls, i, id));
      if l.conn.output.None? then l.sock.sent == Flat(rs)
      else
        && rs != []
        && var last, rest := rs[|rs| - 1], l.conn.output.value;
           && |rest| <= |last|
           && l.sock.sent == Flat(rs[..|rs| - 1]) + last[..|last| - |rest|]
           && rest == last[|last| - |rest|..]
  {
    hide Apply, PhaseOf, Deeds, AnsweredIn;
    RunOk(ws, ls, i);
    HistoryIsTrue(ws, ls, i, id);
    var l := ws[i].live[id];
    if l.conn.output.Some? {
      SplitOutput(l);
    } else {
      assert l.sock.sent + Unsent(l.conn) == l.sock.sent;
    }
  }

  lemma {:induction false} SplitOutput(l: Live)
    requires BytesOk(l) && l.conn.output.Some?
    ensures var rs := Responses(l.log);
      && rs != []
      && var last, rest := rs[|rs| - 1], l.conn.output.value;
         && |rest| <= |last|
         && l.sock.sent == Flat(rs[..|rs| - 1]) + last[..|last| - |rest|]
         && rest == last[|last| - |rest|..]
  {
    var rs := Responses(l.log);
    var last, rest := rs[|rs| - 1], l.conn.output.value;
    var before := Flat(rs[..|rs| - 1]);
    assert l.sock.sent + rest == before + last;
    var k := |last| - |rest|;
    assert last == last[..k] + last[k..];
    assert (l.sock.sent + rest)[..|before| + k] == l.sock.sent;
    assert (before + last)[..|before| + k] == before + last[..k];
    assert (l.sock.sent + rest)[|before| + k..] == rest;
    assert (before + last)[|before| + k..] == last[k..];
  }

  /**
   * Requests and responses alternate: the history follows the reference automaton, every request
   * that survived the input slot is handled once and in order, and a connection that is reading has
   * answered, and sent in full, everything it was asked.  What the parser completed and what the
   * application answered is read off the deeds.
   */
  lemma {:induction false} StrictAlternation(ws: seq<State>, ls: seq<Label>, i: nat, id: Id)
    requires IsRun(ws, ls) && i < |ws| && id in ws[i].live
    ensures var l := ws[i].live[id];
      && StageOf(l.log).Some? && Parsed(l.log) == CompletedIn(Deeds(ws, ls, i, id))
      && Handled(l.log) + Waiting(StageOf(l.log).value) == Survivors(l.log)
      && |Responses(l.log)| <= |Handled(l.log)| <= |Responses(l.log)| + 1
      && (Survivors(l.log) == Parsed(l.log) <==> OneAtATime(l.log))
      && (l.conn.readState == ReadActive || l.conn.readState == ReadEagained ==>
            && Handled(l.log) == Survivors(l.log)
            && |Responses(l.log)| == |Handled(l.log)|
            && l.sock.sent == Flat(AnsweredIn(Deeds(ws, ls, i, id))))
  {
    hide Apply, Flat, Deeds, AnsweredIn, CompletedIn;
    RunOk(ws, ls, i);
    HistoryIsTrue(ws, ls, i, id);
    var l := ws[i].live[id];
    Alternation(l.log);
    NothingOverwritten(l.log);
    assert l.conn.output.None? ==> l.sock.sent + Unsent(l.conn) == l.sock.sent;
  }
}
