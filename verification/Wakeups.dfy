/**
 * Edge-triggered wake-ups.  Sockets are armed with EPOLLET, and an edge delivered while a connection
 * is not waiting is discarded.  No wake-up is lost, with one exception that is stated exactly:
 * reader() consults errno after a successful recv(), where it may be left over from an earlier call.
 */
module Wakeups {
  import opened Common
  import opened AsyncTypes
  import opened ConnectionSteps
  import opened ReactorMachine
  import opened History
  import opened Protocol

  predicate InReported(w: State, fd: Fd) {
    w.pc.InBatch? && exists e :: e in w.pc.events && e.fd == fd && e.pollIn
  }

  predicate OutReported(w: State, fd: Fd) {
    w.pc.InBatch? && exists e :: e in w.pc.events && e.fd == fd && e.pollOut
  }

  /** A waiting connection that could make progress will be told so. */
  predicate Awake(l: Live, inReported: bool, outReported: bool) {
    && (l.conn.readState == ReadEagained && l.sock.Readable() ==> l.sock.inEdge || inReported)
    && (l.conn.writeState == WriteEagained && l.sock.Writable() ==> l.sock.outEdge || outReported)
  }

  ghost predicate NoneAsleep(w: State) {
    forall id :: id in w.live ==>
      var fd := w.live[id].conn.fd;
      Awake(w.live[id], InReported(w, fd), OutReported(w, fd))
  }

  /** A successful recv that completed no message, left data behind with no edge pending, and then saw EAGAIN in errno. */
  predicate StaleErrno(l: Live, o: RecvOutcome) {
    && o.Received? && o.count <= |l.sock.unread| && o.completed == [] && o.errnoEagain && !l.sock.inEdge
    && (l.sock.unread[o.count..] != [] || l.sock.eof)
  }

  predicate LosesWakeup(w: State, lb: Label) {
    && lb.RunFunctor? && w.ready != []
    && (w.ready[0].kind == ReaderFn || w.ready[0].kind == WriteCompleteFn)
    && w.ready[0].target in w.live && StaleErrno(w.live[w.ready[0].target], lb.recv)
  }

  lemma {:induction false} FunctorAwake(f: Functor, l: Live, recv: RecvOutcome, send: SendOutcome, answer: Option<Bytes>)
    requires LiveOk(l) && FunctorLegal(l, recv, send, answer)
    requires KindOf(l) == Some(f.kind) && f.kind != CloseFn
    ensures FunctorEffect(f, l, recv, send, answer).Ok?
    ensures Awake(FunctorEffect(f, l, recv, send, answer).live, false, false)
       <==> !((f.kind == ReaderFn || f.kind == WriteCompleteFn) && StaleErrno(l, recv))
  {
    hide Flat, StageOf;
    FunctorOk(f, l, recv, send, answer);
  }

  lemma {:induction false} RunFunctorAwake(w: State, lb: Label)
    requires Inv(w) && Enabled(w, lb) && NoneAsleep(w) && lb.RunFunctor?
    ensures Apply(w, lb).Running?
    ensures NoneAsleep(Apply(w, lb).state) <==> !LosesWakeup(w, lb)
  {
    hide LiveOk, KindOf, FunctorEffect, Install;
    StepOk(w, lb);
    PopQueue(w.ready, Kinds(w.live));
    var f, w1, v := w.ready[0], w.(ready := w.ready[1..]), Apply(w, lb).state;
    if f.kind != CloseFn {
      FunctorAwake(f, w.live[f.target], lb.recv, lb.send, lb.answer);
      var e := FunctorEffect(f, w.live[f.target], lb.recv, lb.send, lb.answer);
      InstallShape(w1, f.target, e);
      assert v.live == w.live[f.target := e.live] && v.pc == w.pc;
      assert v.live[f.target] == e.live;
      forall id | id in v.live && id != f.target
        ensures Awake(v.live[id], false, false)
      {
        assert v.live[id] == w.live[id];
      }
    }
  }

  /** An event for another descriptor, or without the bit, is not the one a connection waits for. */
  lemma {:induction false} BatchTail(w: State, v: State, fd: Fd)
    requires w.pc.InBatch? && w.pc.events != [] && v.pc == InBatch(w.pc.events[1..])
    ensures w.pc.events[0].fd != fd || !w.pc.events[0].pollIn ==> InReported(v, fd) == InReported(w, fd)
    ensures w.pc.events[0].fd != fd || !w.pc.events[0].pollOut ==> OutReported(v, fd) == OutReported(w, fd)
  {
    assert forall e :: e in w.pc.events <==> e == w.pc.events[0] || e in v.pc.events;
  }

  lemma {:induction false} EventAwake(id: Id, l: Live, e: Event, i: bool, o: bool, i': bool, o': bool)
    requires LiveOk(l) && Awake(l, i, o)
    requires !e.pollIn ==> i == i'
    requires !e.pollOut ==> o == o'
    requires EventHandler(id, l, e.pollIn, e.pollOut).Ok?
    ensures Awake(EventHandler(id, l, e.pollIn, e.pollOut).live, i', o')
  {
  }

  lemma {:induction false} FirstReadAwake(id: Id, l: Live, o: RecvOutcome)
    requires l == NewConnection(l.conn.fd, l.sock, l.conn.scratchRequest) && Armed(l.sock) && RecvLegal(l.sock, o)
    requires ConnectionRead(id, l, o).Ok?
    ensures Awake(ConnectionRead(id, l, o).live, false, false)
  {
  }

  /** The parts of a dispatched state that wake-ups depend on. */
  lemma {:induction false} DispatchShape(w: State, accepted: Option<NewConn>)
    requires Inv(w) && Enabled(w, Dispatch(accepted)) && Apply(w, Dispatch(accepted)).Running?
    ensures var v, e := Apply(w, Dispatch(accepted)).state, w.pc.events[0];
      && v.pc == InBatch(w.pc.events[1..]) && e.fd in w.table
      && match w.table[e.fd]
         case Listener =>
           if accepted.None? then v.live == w.live
           else
             var n := accepted.value;
             var r := ConnectionRead(w.nextId, NewConnection(n.fd, n.sock, n.garbage), n.recv);
             r.Ok? && v.live == w.live[w.nextId := r.live]
         case Stream(id) =>
           id in w.live &&
           var r := EventHandler(id, w.live[id], e.pollIn, e.pollOut);
           r.Ok? && v.live == w.live[id := r.live]
  {
    hide LiveOk, Kinds, EventHandler, ConnectionRead;
    var w1, e := w.(pc := InBatch(w.pc.events[1..])), w.pc.events[0];
    assert e in w.pc.events;
    if w.table[e.fd].Listener? && accepted.Some? {
      var n := accepted.value;
      var l := NewConnection(n.fd, n.sock, n.garbage);
      var r := ConnectionRead(w.nextId, l, n.recv);
      InstallShape(Allocated(w1, n), w.nextId, r);
      assert w.live[w.nextId := l][w.nextId := r.live] == w.live[w.nextId := r.live];
    }
  }

  lemma {:induction false} DispatchAwake(w: State, accepted: Option<NewConn>)
    requires Inv(w) && Enabled(w, Dispatch(accepted)) && NoneAsleep(w)
    ensures Apply(w, Dispatch(accepted)).Running?
    ensures NoneAsleep(Apply(w, Dispatch(accepted)).state)
  {
    StepOk(w, Dispatch(accepted));
    DispatchShape(w, accepted);
    hide Apply, LiveOk, Kinds, EventHandler, ConnectionRead, Scheduled;
    var v, e := Apply(w, Dispatch(accepted)).state, w.pc.events[0];
    forall id | id in v.live
      ensures var fd := v.live[id].conn.fd; Awake(v.live[id], InReported(v, fd), OutReported(v, fd))
    {
      if w.table[e.fd].Listener? && accepted.Some? && id == w.nextId {
        var n := accepted.value;
        FirstReadAwake(id, NewConnection(n.fd, n.sock, n.garbage), n.recv);
      } else {
        var fd := w.live[id].conn.fd;
        BatchTail(w, v, fd);
        if w.table[e.fd] == Stream(id) {
          DispatchOneAwake(w, v, id, e);
        } else {
          assert v.live[id] == w.live[id];
        }
      }
    }
  }

  lemma {:induction false} DispatchOneAwake(w: State, v: State, id: Id, e: Event)
    requires Inv(w) && NoneAsleep(w) && w.pc.InBatch? && w.pc.events != [] && e == w.pc.events[0]
    requires v.pc == InBatch(w.pc.events[1..]) && e.fd in w.table && w.table[e.fd] == Stream(id)
    requires EventHandler(id, w.live[id], e.pollIn, e.pollOut).Ok?
    ensures var l := EventHandler(id, w.live[id], e.pollIn, e.pollOut).live;
      l.conn.fd == e.fd && Awake(l, InReported(v, e.fd), OutReported(v, e.fd))
  {
    BatchTail(w, v, e.fd);
    assert LiveOk(w.live[id]) && w.live[id].conn.fd == e.fd;
    EventAwake(id, w.live[id], e, InReported(w, e.fd), OutReported(w, e.fd), InReported(v, e.fd), OutReported(v, e.fd));
  }

  lemma {:induction false} EpollWaitAwake(w: State, events: seq<Event>)
    requires Inv(w) && Enabled(w, EpollWait(events)) && NoneAsleep(w)
    ensures Apply(w, EpollWait(events)).Running? && NoneAsleep(Apply(w, EpollWait(events)).state)
  {
    hide LiveOk, Kinds;
    var v := Apply(w, EpollWait(events)).state;
    forall id | id in v.live
      ensures var fd := v.live[id].conn.fd; Awake(v.live[id], InReported(v, fd), OutReported(v, fd))
    {
      var l := w.live[id];
      if k :| 0 <= k < |events| && events[k].fd == l.conn.fd {
        assert events[k] in events && EventLegal(w, events[k]);
      }
    }
  }

  /** A step loses a wake-up exactly when it trusts a stale errno. */
  lemma {:induction false} WakeupStep(w: State, lb: Label)
    requires Inv(w) && Enabled(w, lb) && NoneAsleep(w)
    ensures Apply(w, lb).Running?
    ensures NoneAsleep(Apply(w, lb).state) <==> !LosesWakeup(w, lb)
  {
    hide LiveOk, Kinds, Install, EventHandler, FunctorEffect, DispatchEvent;
    match lb {
      case EpollWait(events) => EpollWaitAwake(w, events);
      case Dispatch(accepted) => DispatchAwake(w, accepted);
      case RunFunctor(_, _, _) => RunFunctorAwake(w, lb);
      case LateAnswer(id, response) =>
        StepOk(w, lb);
        InstallShape(w, id, ConnectionWrite(id, w.live[id], response));
        LateAnswerAwake(w, id, response);
      case _ =>
    }
  }

  lemma {:induction false} LateAnswerAwake(w: State, id: Id, response: Bytes)
    requires NoneAsleep(w) && id in w.live && ConnectionWrite(id, w.live[id], response).Ok?
    ensures NoneAsleep(w.(live := w.live[id := ConnectionWrite(id, w.live[id], response).live],
                          ready := w.ready + ConnectionWrite(id, w.live[id], response).posts))
  {
  }

  /** Nobody sleeps through readiness in the first states of a run iff no step between them trusted a stale errno. */
  lemma {:induction false} AwakeUntil(ws: seq<State>, ls: seq<Label>, n: nat)
    requires IsRun(ws, ls) && n < |ws|
    ensures (forall i :: 0 <= i <= n ==> NoneAsleep(ws[i])) <==> (forall j :: 0 <= j < n ==> !LosesWakeup(ws[j], ls[j]))
  {
    hide Apply, Inv, LosesWakeup, NoneAsleep;
    if n == 0 {
      NobodyYet(ws[0]);
    } else {
      AwakeUntil(ws, ls, n - 1);
      RunOk(ws, ls, n - 1);
      if NoneAsleep(ws[n - 1]) {
        WakeupStep(ws[n - 1], ls[n - 1]);
      }
      assert NoneAsleep(ws[n - 1]) ==> (NoneAsleep(ws[n]) <==> !LosesWakeup(ws[n - 1], ls[n - 1]));
    }
  }

  lemma {:induction false} NobodyYet(w: State)
    requires Initial(w)
    ensures NoneAsleep(w)
  {
  }

  /** In all states of a run no wake-up is lost exactly when no step of the run trusted a stale errno. */
  lemma {:induction false} NoLostWakeups(ws: seq<State>, ls: seq<Label>)
    requires IsRun(ws, ls)
    ensures (forall i :: 0 <= i < |ws| ==> NoneAsleep(ws[i])) <==> (forall j :: 0 <= j < |ls| ==> !LosesWakeup(ws[j], ls[j]))
  {
    hide NoneAsleep, LosesWakeup;
    AwakeUntil(ws, ls, |ls|);
  }

  /**
   * While the reactor sleeps in epoll_wait every connection waits for its peer or for the
   * application, and if no stale errno was trusted so far one that could go on has an edge pending.
   */
  lemma {:induction false} SleepIsJustified(ws: seq<State>, ls: seq<Label>, i: nat, id: Id)
    requires IsRun(ws, ls) && i < |ws| && ws[i].pc == AtWait && id in ws[i].live
    requires forall j :: 0 <= j < i ==> !LosesWakeup(ws[j], ls[j])
    ensures var l := ws[i].live[id];
      && PhaseOf(l) in [Some(WaitRead), Some(WaitWrite), Some(Processing)]
      && (PhaseOf(l) == Some(WaitRead) && l.sock.Readable() ==> l.sock.inEdge)
      && (PhaseOf(l) == Some(WaitWrite) && l.sock.Writable() ==> l.sock.outEdge)
  {
    hide Apply, LosesWakeup, PhaseOf, KindOf, BytesOk, Registered;
    RunOk(ws, ls, i);
    AwakeUntil(ws, ls, i);
    var l := ws[i].live[id];
    assert Kinds(ws[i].live)[id] == None;
    IdlePhase(l);
  }

  /** A connection without a queued functor waits for its peer or the application. */
  lemma {:induction false} IdlePhase(l: Live)
    requires PhaseOf(l).Some? && KindOf(l) == None
    ensures PhaseOf(l) in [Some(WaitRead), Some(WaitWrite), Some(Processing)]
    ensures PhaseOf(l) == Some(WaitRead) ==> l.conn.readState == ReadEagained
    ensures PhaseOf(l) == Some(WaitWrite) ==> l.conn.writeState == WriteEagained
  {
    hide StageOf;
  }
}
