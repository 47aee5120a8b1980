/**
 * The server as a program: the reactor's run loop over connection objects, the ready list, the
 * descriptor table and the linked list of handlers, with the kernel at work between any two steps.  It
 * is proved to be a run of ReactorMachine, never to fail an assertion, and its drain loop to end.
 */
module ReactorProgram {
  import opened Common
  import opened AsyncTypes
  import opened ReactorMachine
  import opened Passes
  import opened ReactorTables
  import opened AsyncConnectionObject
  import opened LinkedListObject
  import opened IoBufferObject
  import C = ConnectionSteps
  import P = Protocol
  import D = Drain

  /** What kernel and application would answer if the next functor asked them; an answer they cannot give is an error. */
  datatype Offer = Offer(recv: RecvOutcome, send: SendOutcome, answer: Option<Bytes>)

  function GrantRecv(s: Socket, o: RecvOutcome): RecvOutcome { if RecvLegal(s, o) then o else RecvError }
  function GrantSend(s: Socket, length: nat, o: SendOutcome): SendOutcome { if SendLegal(s, length, o) then o else SendError }
  function GrantAnswer(a: Option<Bytes>): Option<Bytes> { if a == Some([]) then None else a }

  function GrantAccept(epoll: set<Fd>, a: Option<NewConn>): Option<NewConn> {
    if a.Some? && AcceptLegal(epoll, a.value) then a else None
  }

  /** The functor of a connection under an offer. */
  function Granted(l: Live, o: Offer): Label {
    RunFunctor(GrantRecv(l.sock, o.recv), GrantSend(l.sock, C.OutputLength(l.conn), o.send), GrantAnswer(o.answer))
  }

  lemma {:induction false} GrantedLegal(l: Live, o: Offer)
    ensures var lb := Granted(l, o); lb.RunFunctor? && FunctorLegal(l, lb.recv, lb.send, lb.answer)
  {
  }

  /** Any response the application may give. */
  method AnyResponse() returns (response: Bytes)
    ensures response != []
  {
    response := *;
    if response == [] {
      response := [0];
    }
  }

  /** What the head of the ready list refers to is there. */
  lemma {:induction false} NextFunctor(w: State)
    requires P.Inv(w) && w.ready != []
    ensures var id := w.ready[0].target;
      id in w.live && id in w.handlers && w.live[id].conn.fd in w.table
  {
    P.PopQueue(w.ready, P.Kinds(w.live));
  }

  lemma {:induction false} ApplyRun(w: State, lb: Label)
    requires lb.RunFunctor? && Enabled(w, lb) && w.ready[0].target in w.live
    ensures var f, w1 := w.ready[0], w.(ready := w.ready[1..]);
      Apply(w, lb) ==
        if f.kind == CloseFn then Close(w1, f.target)
        else Install(w1, f.target, FunctorEffect(f, w.live[f.target], lb.recv, lb.send, lb.answer))
  {
  }

  /** Any functor but close takes its connection through its effect. */
  lemma {:induction false} LiveShape(w: State, lb: Label)
    requires P.Inv(w) && lb.RunFunctor? && Enabled(w, lb) && w.ready[0].kind != CloseFn && w.ready[0].target in w.live
    ensures var f, w1 := w.ready[0], w.(ready := w.ready[1..]);
      var e := FunctorEffect(f, w.live[f.target], lb.recv, lb.send, lb.answer);
      Fits(w1, e) && Apply(w, lb) == Running(Stepped(w1, f.target, e))
  {
    hide P.Inv, Apply, Install, FunctorEffect;
    var f := w.ready[0];
    P.StepOk(w, lb);
    ApplyRun(w, lb);
    InstallShape(w.(ready := w.ready[1..]), f.target, FunctorEffect(f, w.live[f.target], lb.recv, lb.send, lb.answer));
  }

  lemma {:induction false} AnswerShape(w: State, id: Id, response: Bytes)
    requires P.Inv(w) && Enabled(w, LateAnswer(id, response))
    ensures var e := C.ConnectionWrite(id, w.live[id], response);
      Fits(w, e) && Apply(w, LateAnswer(id, response)) == Running(Stepped(w, id, e))
  {
    hide P.Inv, Install, C.ConnectionWrite;
    P.StepOk(w, LateAnswer(id, response));
    InstallShape(w, id, C.ConnectionWrite(id, w.live[id], response));
  }

  lemma {:induction false} CloseApplies(w: State, lb: Label)
    requires P.Inv(w) && lb.RunFunctor? && Enabled(w, lb) && w.ready[0].kind == CloseFn
    ensures var id, w1 := w.ready[0].target, w.(ready := w.ready[1..]);
      && id in w1.live && id in w1.handlers && w1.live[id].conn.fd in w1.table
      && Apply(w, lb) == Close(w1, id)
  {
    hide P.Inv, Apply, Close;
    NextFunctor(w);
    ApplyRun(w, lb);
  }

  /** What the next event refers to is there, and what its dispatch comes to. */
  lemma {:induction false} ApplyDispatch(w: State, accepted: Option<NewConn>, w1: State)
    requires P.Inv(w) && Enabled(w, Dispatch(accepted)) && w1 == w.(pc := InBatch(w.pc.events[1..]))
    ensures var e, r := w.pc.events[0], Apply(w, Dispatch(accepted));
      && e.fd in w.table && r.Running?
      && match w.table[e.fd]
         case Listener => r == if accepted.None? then Running(w1) else Accept(w1, accepted.value)
         case Stream(id) =>
           && id in w.live
           && var eff := C.EventHandler(id, w.live[id], e.pollIn, e.pollOut);
              Fits(w1, eff) && r == Running(Stepped(w1, id, eff))
    ensures w.epoll == w.table.Keys
  {
    hide P.LiveOk, P.Kinds, Accept, C.EventHandler;
    assert w.pc.events[0] in w.pc.events;
    P.StepOk(w, Dispatch(accepted));
  }

  lemma {:induction false} CloseShape(w: State, id: Id, fd: Fd)
    requires id in w.live && id in w.handlers && w.live[id].conn.fd == fd && fd in w.table
    ensures Close(w, id) == Running(State(w.live - {id}, w.table - {fd}, w.epoll - {fd}, RemoveFirst(w.handlers, id),
                                          w.ready, w.pc, w.nextId))
  {
    hide RemoveFirst;
  }

  lemma {:induction false} NextWatched(w: State)
    requires P.Inv(w) && w.pc.InBatch? && w.pc.events != []
    ensures w.pc.events[0].fd in w.table
  {
    assert w.pc.events[0] in w.pc.events;
  }

  function Taken(live: map<Id, Live>, events: seq<Event>): map<Id, Live> {
    map i | i in live :: ClearEdges(live[i], events)
  }

  lemma {:induction false} BeginBatch(w: State, events: seq<Event>, v: State)
    requires P.Inv(w) && w.pc == AtWait && forall e :: e in events ==> EventLegal(w, e)
    requires v == w.(live := Taken(w.live, events), pc := InBatch(events))
    ensures P.Inv(v) && w.ready == [] && Enabled(w, EpollWait(events)) && Apply(w, EpollWait(events)) == Running(v)
  {
    hide P.LiveOk, P.Kinds;
    P.StepOk(w, EpollWait(events));
  }

  lemma {:induction false} AcceptShape(w: State, n: NewConn, e: C.Effect)
    requires RecvLegal(n.sock, n.recv) && Accept(w, n).Running?
    requires e == C.ConnectionRead(w.nextId, C.NewConnection(n.fd, n.sock, n.garbage), n.recv)
    ensures e.Ok? && |w.ready| + |e.posts| < READY_LIST_MAX
    ensures Accept(w, n) == Running(State(w.live[w.nextId := e.live], w.table[n.fd := Stream(w.nextId)], w.epoll + {n.fd},
                                          w.handlers + [w.nextId], w.ready + e.posts, w.pc, w.nextId + 1))
  {
    hide C.ConnectionRead;
    var l := C.NewConnection(n.fd, n.sock, n.garbage);
    assert w.live[w.nextId := l][w.nextId := e.live] == w.live[w.nextId := e.live];
  }

  lemma {:induction false} EndOfBatch(w: State, v: State)
    requires P.Inv(w) && w.pc == InBatch([]) && v == w.(pc := InDrain)
    ensures P.Inv(v) && Enabled(w, BatchDone) && Apply(w, BatchDone) == Running(v)
  {
    hide P.LiveOk, P.Kinds;
  }

  lemma {:induction false} EndOfDrain(w: State, v: State)
    requires P.Inv(w) && w.pc == InDrain && w.ready == [] && v == w.(pc := AtWait)
    ensures P.Inv(v) && Enabled(w, DrainDone) && Apply(w, DrainDone) == Running(v)
  {
    hide P.LiveOk, P.Kinds;
  }

  /** The state once connection `id` has gone through effect `e`. */
  function Stepped(w: State, id: Id, e: C.Effect): State
    requires e.Ok?
  {
    w.(live := w.live[id := e.live], ready := w.ready + e.posts)
  }

  ghost predicate Fits(w: State, e: C.Effect) {
    e.Ok? && |w.ready| + |e.posts| < READY_LIST_MAX
  }

  // ---------------------------------------------------------------- the kernel between steps

  /** Label `lb` is a step of the kernel on connection `id`, whose socket is `s`. */
  predicate KernelEnabled(id: Id, s: Socket, lb: Label) {
    match lb
    case BytesArrive(i, bytes, edge) => i == id && bytes != [] && !s.eof && (!s.Readable() ==> edge)
    case PeerCloses(i) => i == id
    case SpaceFreed(i, amount, edge) => i == id && (!s.Writable() && amount > 0 ==> edge)
    case _ => false
  }

  function AfterKernel(s: Socket, lb: Label): Socket {
    match lb
    case BytesArrive(_, bytes, edge) => s.(unread := s.unread + bytes, inEdge := s.inEdge || edge)
    case PeerCloses(_) => s.(eof := true, inEdge := true)
    case SpaceFreed(_, amount, edge) => s.(space := s.space + amount, outEdge := s.outEdge || edge)
    case _ => s
  }

  /** Any step of the kernel on a connection; without `input` none that delivers bytes. */
  method AnyKernel(id: Id, s: Socket, input: bool) returns (lb: Label)
    ensures KernelEnabled(id, s, lb) && (lb.BytesArrive? ==> input)
  {
    lb := *;
    if !KernelEnabled(id, s, lb) || (lb.BytesArrive? && !input) {
      lb := SpaceFreed(id, 0, false);
    }
  }

  lemma {:induction false} MayAnswer(w: State, id: Id, response: Bytes)
    requires w.pc != AtWait && id in w.live && Unanswered(w.live[id].log) && response != []
    ensures Enabled(w, LateAnswer(id, response))
  {
  }

  lemma {:induction false} KernelApplies(w: State, id: Id, lb: Label)
    requires id in w.live && KernelEnabled(id, w.live[id].sock, lb)
    ensures Enabled(w, lb) && Apply(w, lb) == Running(WithSocket(w, id, AfterKernel(w.live[id].sock, lb)))
  {
  }

  lemma {:induction false} KernelKeeps(s: Socket, lb: Label)
    requires !lb.BytesArrive?
    ensures AfterKernel(s, lb).unread == s.unread && AfterKernel(s, lb).sent == s.sent
  {
  }

  // ---------------------------------------------------------------- the list of handlers

  /** Taking out the first occurrence is taking out its position. */
  lemma {:induction false} RemoveFirstAt(s: seq<Id>, x: Id, k: nat)
    requires k < |s| && s[k] == x && x !in s[..k]
    ensures RemoveFirst(s, x) == Without(s, k)
    decreases |s|
  {
    if k > 0 {
      assert s[0] in s[..k] && s[1..][..k - 1] == s[..k][1..];
      RemoveFirstAt(s[1..], x, k - 1);
      assert Without(s, k) == [s[0]] + Without(s[1..], k - 1);
    }
  }

  /** on_handler_completion_cb: find the handler's node and unlink it, which disposes of the handler. */
  method CompleteHandler(list: List<Id>, id: Id)
    requires list.Valid() && id in list.Items()
    modifies list, list.repr
    ensures list.Valid() && list.Items() == RemoveFirst(old(list.Items()), id)
    ensures list.disposed == old(list.disposed) + [id]
    ensures list.repr <= old(list.repr)
  {
    hide Without;
    var itr := list.Find(id);
    ghost var k: nat :| k < |list.nodes| && list.nodes[k] == itr && list.Items()[k] == id && id !in list.Items()[..k];
    RemoveFirstAt(list.Items(), id, k);
    list.ItrRemove(itr, k);
  }

  // ---------------------------------------------------------------- the connection objects

  /** A socket after epoll_wait has reported `events`. */
  function Quiet(fd: Fd, s: Socket, events: seq<Event>): Socket {
    if exists i :: 0 <= i < |events| && events[i].fd == fd then s.(inEdge := false, outEdge := false) else s
  }

  lemma {:induction false} QuietClears(l: Live, events: seq<Event>)
    ensures ClearEdges(l, events) == l.(sock := Quiet(l.conn.fd, l.sock, events))
  {
  }

  /** The live connection objects by identity. */
  class Connections {
    var all: map<Id, AsyncConnection>
    ghost var buffers: set<IOBuffer>   // every output buffer that one of them has had

    /** Every object is in order under its own identity, and no two share an output buffer. */
    ghost predicate Valid()
      reads this, all.Values`output, buffers
    {
      && (forall id :: id in all ==> all[id].id == id && (all[id].output != null ==> all[id].output in buffers) && all[id].Valid())
      && forall i, j :: i in all && j in all && i != j && all[i].output != null ==> all[i].output != all[j].output
    }

    ghost function Views(): map<Id, Live>
      requires Valid()
      reads this, all.Values, buffers, set b | b in buffers :: b.mem
    {
      map id | id in all :: all[id].View()
    }

    lemma {:induction false} Shown()
      requires Valid()
      ensures Views().Keys == all.Keys && forall id :: id in all ==> Views()[id] == all[id].View()
    {
    }

    /** What the objects show when one of them has changed. */
    lemma {:induction false} Changed(live: map<Id, Live>, id: Id, l: Live)
      requires Valid() && live.Keys == all.Keys && id in all && all[id].View() == l
      requires forall k :: k in all && k != id ==> all[k].View() == live[k]
      ensures Views() == live[id := l]
    {
      hide AsyncConnection.View;
    }

    lemma {:induction false} AllChanged(live: map<Id, Live>, events: seq<Event>)
      requires Valid() && live.Keys == all.Keys
      requires forall k :: k in all ==> all[k].View() == live[k].(sock := Quiet(live[k].conn.fd, live[k].sock, events))
      ensures Views() == Taken(live, events)
    {
      hide AsyncConnection.View, ClearEdges, Quiet;
      forall k | k in all ensures all[k].View() == ClearEdges(live[k], events) {
        QuietClears(live[k], events);
      }
    }

    constructor ()
      ensures Valid() && Views() == map[] && all == map[] && buffers == {}
    {
      all, buffers := map[], {};
    }

    method SetSocket(id: Id, sock: Socket)
      requires Valid() && id in Views()
      modifies all.Values
      ensures Valid() && Views() == old(Views())[id := old(Views())[id].(sock := sock)]
    {
      hide Views;
      Shown();
      ghost var live := Views();
      all[id].sock := sock;
      Changed(live, id, live[id].(sock := sock));
    }

    method Run(f: Functor, recv: RecvOutcome, send: SendOutcome, answer: Option<Bytes>, ready: FunctorList, ghost eff: C.Effect)
      requires Valid() && f.target in Views() && f.kind != CloseFn && ready.Valid()
      requires FunctorLegal(Views()[f.target], recv, send, answer)
      requires eff == FunctorEffect(f, Views()[f.target], recv, send, answer)
      requires eff.Ok? && |ready.Contents()| + |eff.posts| < ready.capacity
      modifies this`buffers, all.Values, buffers, ready`head, ready.list
      ensures Valid() && fresh(buffers - old(buffers)) && Views() == old(Views())[f.target := eff.live]
      ensures ready.Valid() && ready.Contents() == old(ready.Contents()) + eff.posts
    {
      hide FunctorEffect, FunctorLegal, FunctorList.Contents, FunctorList.Valid, AsyncConnection.View;
      hide AsyncConnection.Valid, Views;
      Shown();
      ghost var live := Views();
      var conn := all[f.target];
      RunObject(f, recv, send, answer, ready, eff);
      buffers := if conn.output == null then buffers else buffers + {conn.output};
      Changed(live, f.target, eff.live);
    }

    /** The other objects keep their fields and their buffers. */
    method RunObject(f: Functor, recv: RecvOutcome, send: SendOutcome, answer: Option<Bytes>, ready: FunctorList, ghost eff: C.Effect)
      requires Valid() && f.target in all && f.kind != CloseFn && ready.Valid()
      requires FunctorLegal(all[f.target].View(), recv, send, answer)
      requires eff == FunctorEffect(f, all[f.target].View(), recv, send, answer)
      requires eff.Ok? && |ready.Contents()| + |eff.posts| < ready.capacity
      modifies all.Values, buffers, ready`head, ready.list
      ensures forall k :: k in all && k != f.target ==>
        && all[k].output == old(all[k].output) && all[k].Valid() && all[k].View() == old(all[k].View())
        && (all[k].output == null || all[k].output != all[f.target].output)
      ensures var conn := all[f.target];
        && conn.Valid() && conn.View() == eff.live
        && (conn.output == null || conn.output == old(all[f.target].output) || fresh(conn.output))
      ensures ready.Valid() && ready.Contents() == old(ready.Contents()) + eff.posts
    {
      hide FunctorEffect, FunctorLegal, FunctorList.Contents, FunctorList.Valid, AsyncConnection.View;
      all[f.target].Run(f.kind, recv, send, answer, ready);
    }

    method Answer(id: Id, response: Bytes, ready: FunctorList, ghost eff: C.Effect)
      requires Valid() && id in Views() && ready.Valid() && eff == C.ConnectionWrite(id, Views()[id], response)
      requires eff.Ok? && |ready.Contents()| + |eff.posts| < ready.capacity
      modifies this`buffers, all.Values, buffers, ready`head, ready.list
      ensures Valid() && fresh(buffers - old(buffers)) && Views() == old(Views())[id := eff.live]
      ensures ready.Valid() && ready.Contents() == old(ready.Contents()) + eff.posts
    {
      hide C.ConnectionWrite, FunctorList.Contents, FunctorList.Valid, AsyncConnection.View, AsyncConnection.Valid;
      hide Views;
      Shown();
      ghost var live := Views();
      var conn := all[id];
      AnswerObject(id, response, ready, eff);
      buffers := buffers + {conn.output};
      Changed(live, id, eff.live);
    }

    method AnswerObject(id: Id, response: Bytes, ready: FunctorList, ghost eff: C.Effect)
      requires Valid() && id in all && ready.Valid() && eff == C.ConnectionWrite(id, all[id].View(), response)
      requires eff.Ok? && |ready.Contents()| + |eff.posts| < ready.capacity
      modifies all.Values, buffers, ready`head, ready.list
      ensures forall k :: k in all && k != id ==>
        && all[k].output == old(all[k].output) && all[k].Valid() && all[k].View() == old(all[k].View())
        && (all[k].output == null || all[k].output != all[id].output)
      ensures all[id].Valid() && all[id].View() == eff.live && fresh(all[id].output)
      ensures ready.Valid() && ready.Contents() == old(ready.Contents()) + eff.posts
    {
      hide C.ConnectionWrite, FunctorList.Contents, FunctorList.Valid, AsyncConnection.View;
      all[id].ConnectionWrite(response, ready);
    }

    method Notify(id: Id, e: Event, ready: FunctorList, ghost eff: C.Effect)
      requires Valid() && id in Views() && ready.Valid()
      requires eff == C.EventHandler(id, Views()[id], e.pollIn, e.pollOut)
      requires eff.Ok? && |ready.Contents()| + |eff.posts| < ready.capacity
      modifies all.Values, ready`head, ready.list
      ensures Valid() && Views() == old(Views())[id := eff.live]
      ensures ready.Valid() && ready.Contents() == old(ready.Contents()) + eff.posts
    {
      hide C.EventHandler, FunctorList.Contents, FunctorList.Valid, AsyncConnection.View, Views;
      Shown();
      ghost var live := Views();
      var conn := all[id];
      conn.EventHandler(e.pollIn, e.pollOut, ready);
      Changed(live, id, eff.live);
    }

    /** epoll_wait consumes the edges it reports. */
    method ClearReported(events: seq<Event>)
      requires Valid()
      modifies all.Values
      ensures Valid() && Views() == Taken(old(Views()), events)
    {
      hide Views, ClearEdges, Quiet;
      Shown();
      ghost var live := Views();
      forall c | c in all.Values {
        c.sock := Quiet(c.fd, c.sock, events);
      }
      AllChanged(live, events);
    }

    method Add(conn: AsyncConnection)
      requires Valid() && conn.Valid() && conn.output == null
      modifies this`all
      ensures Valid() && all == old(all)[conn.id := conn] && Views() == old(Views())[conn.id := conn.View()]
    {
      all := all[conn.id := conn];
    }

    method Remove(id: Id)
      requires Valid()
      modifies this`all
      ensures Valid() && all == old(all) - {id} && Views() == old(Views()) - {id}
    {
      all := all - {id};
    }
  }

  // ---------------------------------------------------------------- the server

  class AsyncServer {
    const table: FdTable
    const ready: FunctorList
    const handlers: List<Id>
    const conns: Connections
    var epoll: set<Fd>                    // the kernel's interest set
    var nextId: Id

    ghost predicate Valid()
      reads this, table, table.entries, ready, ready.list, handlers, handlers.repr, conns, conns.all.Values, conns.buffers
    {
      table.Valid() && ready.Valid() && ready.capacity == READY_LIST_MAX && handlers.Valid() && conns.Valid()
    }

    ghost function View(pc: Pc): State
      requires Valid()
      reads this, table, table.entries, ready, ready.list, handlers, handlers.repr
      reads conns, conns.all.Values, conns.buffers, set b | b in conns.buffers :: b.mem
    {
      State(conns.Views(), table.Entries(), epoll, handlers.Items(), ready.Contents(), pc, nextId)
    }

    /** A new reactor with the listening socket registered. */
    constructor (listenFd: Fd)
      requires listenFd < FDTABLE_MAX
      ensures Valid() && Initial(View(AtWait)) && conns.all == map[] && conns.buffers == {}
      ensures fresh(table) && fresh(table.entries) && fresh(ready) && fresh(ready.list) && fresh(handlers)
      ensures fresh(conns)
    {
      table := new FdTable();
      ready := new FunctorList(READY_LIST_MAX, Functor(ReaderFn, 0));
      handlers := new List<Id>();
      conns := new Connections();
      nextId := 0;
      epoll := {listenFd};
      new;
      table.Insert(Listener, listenFd);
    }

    // -------------------------------------------------------------- parts of the state

    /** A connection object shows what the state says of it. */
    lemma {:induction false} Known(id: Id, pc: Pc)
      requires Valid()
      ensures View(pc).live.Keys == conns.all.Keys
      ensures id in conns.all ==> conns.all[id].id == id && conns.all[id].Valid() && View(pc).live[id] == conns.all[id].View()
    {
      hide FdTable.Entries, FdTable.Valid, FunctorList.Contents, FunctorList.Valid, List.Items, List.Valid;
    }

    lemma {:induction false} Here(pc: Pc)
      requires Valid()
      ensures View(pc).pc == pc && View(pc).epoll == epoll
    {
    }

    /** The run loop's place is no part of the program's state. */
    lemma {:induction false} Elsewhere(pc: Pc, pc': Pc)
      requires Valid()
      ensures View(pc') == View(pc).(pc := pc')
    {
    }

    method SetSocket(id: Id, sock: Socket, ghost pc: Pc)
      requires Valid() && id in View(pc).live
      modifies conns.all.Values
      ensures Valid() && View(pc) == WithSocket(old(View(pc)), id, sock) && View(pc).ready == old(View(pc)).ready
    {
      hide FdTable.Entries, FdTable.Valid, FunctorList.Contents, FunctorList.Valid, List.Items, List.Valid;
      hide Connections.Views, Connections.Valid;
      ghost var w := View(pc);
      conns.SetSocket(id, sock);
      assert table.Valid() && table.Entries() == w.table;
      assert handlers.Valid() && handlers.Items() == w.handlers;
      assert ready.Valid() && ready.Contents() == w.ready;
    }

    method RunOn(f: Functor, recv: RecvOutcome, send: SendOutcome, answer: Option<Bytes>, ghost eff: C.Effect)
      requires Valid() && f.target in View(InDrain).live && f.kind != CloseFn
      requires FunctorLegal(View(InDrain).live[f.target], recv, send, answer)
      requires eff == FunctorEffect(f, View(InDrain).live[f.target], recv, send, answer) && Fits(View(InDrain), eff)
      modifies conns`buffers, ready, ready.list, conns.all.Values, conns.buffers
      ensures Valid() && fresh(conns.buffers - old(conns.buffers))
      ensures View(InDrain) == Stepped(old(View(InDrain)), f.target, eff)
    {
      hide FunctorEffect, FunctorLegal, FdTable.Entries, FdTable.Valid, FunctorList.Contents, FunctorList.Valid;
      hide List.Items, List.Valid, Connections.Views, Connections.Valid;
      ghost var w := View(InDrain);
      conns.Run(f, recv, send, answer, ready, eff);
      assert table.Valid() && table.Entries() == w.table;
      assert handlers.Valid() && handlers.Items() == w.handlers;
    }

    method AnswerOn(id: Id, response: Bytes, ghost pc: Pc, ghost eff: C.Effect)
      requires Valid() && id in View(pc).live && eff == C.ConnectionWrite(id, View(pc).live[id], response)
      requires Fits(View(pc), eff)
      modifies conns`buffers, ready, ready.list, conns.all.Values, conns.buffers
      ensures Valid() && fresh(conns.buffers - old(conns.buffers)) && View(pc) == Stepped(old(View(pc)), id, eff)
    {
      hide C.ConnectionWrite, FdTable.Entries, FdTable.Valid, FunctorList.Contents, FunctorList.Valid, List.Items;
      hide List.Valid, Connections.Views, Connections.Valid;
      ghost var w := View(pc);
      conns.Answer(id, response, ready, eff);
      assert table.Valid() && table.Entries() == w.table;
      assert handlers.Valid() && handlers.Items() == w.handlers;
    }

    method NotifyOn(id: Id, e: Event, ghost pc: Pc, ghost eff: C.Effect)
      requires Valid() && id in View(pc).live
      requires eff == C.EventHandler(id, View(pc).live[id], e.pollIn, e.pollOut) && Fits(View(pc), eff)
      modifies ready, ready.list, conns.all.Values
      ensures Valid() && View(pc) == Stepped(old(View(pc)), id, eff)
    {
      hide C.EventHandler, FdTable.Entries, FdTable.Valid, FunctorList.Contents, FunctorList.Valid, List.Items;
      hide List.Valid, Connections.Views, Connections.Valid;
      ghost var w := View(pc);
      conns.Notify(id, e, ready, eff);
      assert table.Valid() && table.Entries() == w.table;
      assert handlers.Valid() && handlers.Items() == w.handlers;
    }

    method ClearEdgesOf(events: seq<Event>, ghost pc: Pc)
      requires Valid()
      modifies conns.all.Values
      ensures Valid() && View(pc) == old(View(pc)).(live := Taken(old(View(pc)).live, events))
    {
      hide FdTable.Entries, FdTable.Valid, FunctorList.Contents, FunctorList.Valid, List.Items, List.Valid;
      hide Connections.Views, Connections.Valid;
      ghost var w := View(pc);
      conns.ClearReported(events);
      assert table.Valid() && table.Entries() == w.table;
      assert handlers.Valid() && handlers.Items() == w.handlers;
      assert ready.Valid() && ready.Contents() == w.ready;
    }

    /** The answers of an offer to one connection. */
    method Ask(id: Id, offer: Offer, ghost pc: Pc) returns (recv: RecvOutcome, send: SendOutcome, answer: Option<Bytes>)
      requires Valid() && id in View(pc).live
      ensures RunFunctor(recv, send, answer) == Granted(View(pc).live[id], offer)
    {
      hide Valid, View, GrantRecv, GrantSend, GrantAnswer;
      Known(id, pc);
      var conn := conns.all[id];
      recv := GrantRecv(conn.sock, offer.recv);
      send := GrantSend(conn.sock, if conn.output != null then conn.output.remaining else 0, offer.send);
      answer := GrantAnswer(offer.answer);
    }

    method QueueSize(ghost pc: Pc) returns (n: nat)
      requires Valid()
      ensures n == |View(pc).ready|
    {
      n := ready.Size();
    }

    method TakeFunctor(ghost pc: Pc) returns (f: Functor)
      requires Valid() && View(pc).ready != []
      modifies ready
      ensures Valid() && f == old(View(pc)).ready[0] && View(pc) == old(View(pc)).(ready := old(View(pc)).ready[1..])
    {
      hide FdTable.Entries, FdTable.Valid, FunctorList.Contents, FunctorList.Valid, List.Items, List.Valid;
      hide Connections.Views, Connections.Valid;
      f := ready.Remove();
    }

    method Watcher(fd: Fd, ghost pc: Pc) returns (w: Watcher)
      requires Valid() && fd in View(pc).table
      ensures w == View(pc).table[fd]
    {
      hide FdTable.Entries, FdTable.Valid, FunctorList.Contents, FunctorList.Valid, List.Items, List.Valid;
      hide Connections.Views, Connections.Valid;
      w := table.Lookup(fd);
    }

    // -------------------------------------------------------------- the environment

    /** One step of the kernel on one connection, if there is any. */
    method KernelStep(ghost pc: Pc, input: bool)
      requires Valid() && P.Inv(View(pc))
      modifies conns.all.Values
      ensures Valid() && P.Inv(View(pc)) && Runs(old(View(pc)), [], View(pc)) && View(pc).ready == old(View(pc)).ready
      ensures !input ==> D.NoNewInput(old(View(pc)), View(pc))
    {
      hide P.Inv, Apply, Enabled, Runs, D.NoNewInput, Valid, View, AfterKernel, KernelEnabled, WithSocket;
      ghost var w := View(pc);
      RunsItself(w);
      D.NothingNew(w);
      if conns.all != map[] {
        var id :| id in conns.all;
        Known(id, pc);
        var lb := AnyKernel(id, conns.all[id].sock, input);
        var sock := AfterKernel(conns.all[id].sock, lb);
        KernelApplies(w, id, lb);
        P.StepOk(w, lb);
        SetSocket(id, sock, pc);
        RunsStep(w, [], w, lb, View(pc));
        if !input {
          KernelKeeps(w.live[id].sock, lb);
          D.NothingNewAt(w, id, sock);
        }
      }
    }

    /** async_handler_handle_response: the application gives an answer it owes, at any time but the wait. */
    method HandleResponse(id: Id, response: Bytes, ghost pc: Pc)
      requires Valid() && P.Inv(View(pc)) && Enabled(View(pc), LateAnswer(id, response))
      modifies conns`buffers, ready, ready.list, conns.all.Values, conns.buffers
      ensures Valid() && Apply(old(View(pc)), LateAnswer(id, response)) == Running(View(pc))
      ensures fresh(conns.buffers - old(conns.buffers)) && old(View(pc)).ready <= View(pc).ready
    {
      hide P.Inv, Apply, C.ConnectionWrite, Valid, View;
      ghost var w := View(pc);
      AnswerShape(w, id, response);
      AnswerOn(id, response, pc, C.ConnectionWrite(id, w.live[id], response));
    }

    /** The application gives an answer that it owes, if there is one. */
    method GiveAnswer(ghost pc: Pc)
      requires Valid() && P.Inv(View(pc)) && pc != AtWait
      modifies conns`buffers, ready, ready.list, conns.all.Values, conns.buffers
      ensures Valid() && P.Inv(View(pc)) && Runs(old(View(pc)), [], View(pc))
      ensures fresh(conns.buffers - old(conns.buffers))
      ensures old(View(pc)).ready <= View(pc).ready && D.NotAbove(D.Measure(View(pc)), D.Measure(old(View(pc))))
    {
      hide P.Inv, Apply, Enabled, Runs, D.Measure, D.Less, Valid, View;
      ghost var w := View(pc);
      RunsItself(w);
      if conns.all != map[] {
        var id :| id in conns.all;
        Here(pc);
        Known(id, pc);
        if Unanswered(conns.all[id].log) {
          var response := AnyResponse();
          ghost var lb := LateAnswer(id, response);
          MayAnswer(w, id, response);
          HandleResponse(id, response, pc);
          D.AnswerStepDecreases(w, lb);
          P.StepOk(w, lb);
          RunsStep(w, [], w, lb, View(pc));
        }
      }
    }

    /** One thing that the environment does: a step of the kernel or, if `answers`, one of the application. */
    method EnvironmentStep(ghost pc: Pc, input: bool, answers: bool)
      requires Valid() && P.Inv(View(pc)) && (answers ==> pc != AtWait)
      modifies conns`buffers, ready, ready.list, conns.all.Values, conns.buffers
      ensures Valid() && P.Inv(View(pc)) && Runs(old(View(pc)), [], View(pc))
      ensures fresh(conns.buffers - old(conns.buffers))
      ensures old(View(pc)).ready <= View(pc).ready
      ensures !input ==> D.NotAbove(D.Measure(View(pc)), D.Measure(old(View(pc))))
    {
      hide P.Inv, Apply, Enabled, Runs, D.Measure, D.NoNewInput, D.Less, Valid, View;
      ghost var w := View(pc);
      var application: bool := *;
      if answers && application {
        GiveAnswer(pc);
      } else {
        KernelStep(pc, input);
        if !input {
          D.QuietSame(w, View(pc));
        }
      }
    }

    /** The kernel, which without `input` delivers no bytes, and the application act any number of times. */
    method EnvironmentActs(ghost pc: Pc, input: bool, answers: bool)
      requires Valid() && P.Inv(View(pc)) && (answers ==> pc != AtWait)
      modifies conns`buffers, ready, ready.list, conns.all.Values, conns.buffers
      ensures Valid() && P.Inv(View(pc)) && Runs(old(View(pc)), [], View(pc))
      ensures fresh(conns.buffers - old(conns.buffers))
      ensures old(View(pc)).ready <= View(pc).ready
      ensures !input ==> D.NotAbove(D.Measure(View(pc)), D.Measure(old(View(pc))))
    {
      hide P.Inv, Runs, D.Measure, D.Less, Valid, View;
      ghost var w := View(pc);
      RunsItself(w);
      var n: nat :| n >= 0;
      for i := 0 to n
        invariant Valid() && P.Inv(View(pc)) && Runs(w, [], View(pc)) && fresh(conns.buffers - old(conns.buffers))
        invariant w.ready <= View(pc).ready
        invariant !input ==> D.NotAbove(D.Measure(View(pc)), D.Measure(w))
      {
        ghost var v := View(pc);
        EnvironmentStep(pc, input, answers);
        RunsQuietly(w, v, View(pc));
        if !input {
          D.StillNotAbove(D.Measure(View(pc)), D.Measure(v), D.Measure(w));
        }
      }
    }

    // -------------------------------------------------------------- closing

    /** epoll_ctl: the kernel's interest set changes. */
    method Watch(interest: set<Fd>, ghost pc: Pc)
      requires Valid()
      modifies this`epoll
      ensures Valid() && View(pc) == old(View(pc)).(epoll := interest)
    {
      hide FdTable.Entries, FdTable.Valid, FunctorList.Contents, FunctorList.Valid, List.Items, List.Valid;
      hide Connections.Views, Connections.Valid;
      epoll := interest;
    }

    /** rtor_reactor_deregister: both the kernel and the table forget the descriptor. */
    method Deregister(fd: Fd, ghost pc: Pc)
      requires Valid() && fd in View(pc).table
      modifies this`epoll, table`count, table.entries
      ensures Valid()
      ensures View(pc) == old(View(pc)).(table := old(View(pc)).table - {fd}, epoll := old(View(pc)).epoll - {fd})
    {
      hide Valid, View;
      Here(pc);
      Watch(epoll - {fd}, pc);
      Unmap(fd, pc);
    }

    method Unmap(fd: Fd, ghost pc: Pc)
      requires Valid() && fd in View(pc).table
      modifies table`count, table.entries
      ensures Valid() && View(pc) == old(View(pc)).(table := old(View(pc)).table - {fd})
    {
      hide FdTable.Entries, FdTable.Valid, FunctorList.Contents, FunctorList.Valid, List.Items, List.Valid;
      hide Connections.Views, Connections.Valid;
      ghost var w := View(pc);
      table.Remove(fd);
      assert handlers.Valid() && handlers.Items() == w.handlers;
      assert ready.Valid() && ready.Contents() == w.ready;
      assert conns.Valid() && conns.Views() == w.live;
    }

    /** The server's list forgets the handler. */
    method Unlist(id: Id, ghost pc: Pc)
      requires Valid() && id in View(pc).handlers
      modifies handlers, handlers.repr
      ensures Valid() && handlers.repr <= old(handlers.repr)
      ensures View(pc) == old(View(pc)).(handlers := RemoveFirst(old(View(pc)).handlers, id))
    {
      hide FdTable.Entries, FdTable.Valid, FunctorList.Contents, FunctorList.Valid, List.Items, List.Valid;
      hide Connections.Views, Connections.Valid;
      ghost var w := View(pc);
      CompleteHandler(handlers, id);
      assert table.Valid() && table.Entries() == w.table;
      assert ready.Valid() && ready.Contents() == w.ready;
      assert conns.Valid() && conns.Views() == w.live;
    }

    /** The object is freed. */
    method Drop(id: Id, ghost pc: Pc)
      requires Valid()
      modifies conns`all
      ensures Valid() && conns.all == old(conns.all) - {id}
      ensures View(pc) == old(View(pc)).(live := old(View(pc)).live - {id})
    {
      hide FdTable.Entries, FdTable.Valid, FunctorList.Contents, FunctorList.Valid, List.Items, List.Valid;
      hide Connections.Views, Connections.Valid;
      ghost var w := View(pc);
      conns.Remove(id);
      assert table.Valid() && table.Entries() == w.table;
      assert handlers.Valid() && handlers.Items() == w.handlers;
      assert ready.Valid() && ready.Contents() == w.ready;
    }

    /** handle_close_connection down to async_connection_free. */
    method CloseConnection(id: Id)
      requires Valid() && id in View(InDrain).live && id in View(InDrain).handlers
      requires View(InDrain).live[id].conn.fd in View(InDrain).table
      modifies conns`all, this`epoll, table`count, table.entries, handlers, handlers.repr
      ensures Valid() && conns.all == old(conns.all) - {id} && handlers.repr <= old(handlers.repr)
      ensures Close(old(View(InDrain)), id) == Running(View(InDrain))
    {
      hide Close, RemoveFirst, Valid, View;
      ghost var w := View(InDrain);
      Known(id, InDrain);
      var fd := conns.all[id].fd;
      Deregister(fd, InDrain);
      Unlist(id, InDrain);
      Drop(id, InDrain);
      CloseShape(w, id, fd);
    }

    // -------------------------------------------------------------- draining

    /** The close functor of the connection at the head of the list. */
    method RunClose(f: Functor, ghost w: State) returns (ghost lb: Label)
      requires Valid() && P.Inv(w) && w.pc == InDrain && w.ready != [] && f == w.ready[0] && f.kind == CloseFn
      requires View(InDrain) == w.(ready := w.ready[1..])
      modifies conns`all, this`epoll, table`count, table.entries, handlers, handlers.repr
      ensures Valid() && conns.all.Values <= old(conns.all.Values) && handlers.repr <= old(handlers.repr)
      ensures lb.RunFunctor? && Enabled(w, lb) && Apply(w, lb) == Running(View(InDrain))
    {
      hide P.Inv, Apply, Close, Valid, View;
      lb := RunFunctor(RecvError, SendError, None);
      assert Enabled(w, lb);
      CloseApplies(w, lb);
      CloseConnection(f.target);
    }

    /** Any other functor, with whatever kernel and application answer. */
    method RunLive(f: Functor, offer: Offer, ghost w: State) returns (ghost lb: Label)
      requires Valid() && P.Inv(w) && w.pc == InDrain && w.ready != [] && f == w.ready[0] && f.kind != CloseFn
      requires View(InDrain) == w.(ready := w.ready[1..])
      modifies conns`buffers, ready, ready.list, conns.all.Values, conns.buffers
      ensures Valid() && fresh(conns.buffers - old(conns.buffers)) && lb.RunFunctor? && Enabled(w, lb)
      ensures f.target in w.live && lb == Granted(w.live[f.target], offer) && Apply(w, lb) == Running(View(InDrain))
    {
      hide P.Inv, Apply, FunctorLegal, Valid, View, Granted;
      NextFunctor(w);
      GrantedLegal(w.live[f.target], offer);
      var recv, send, answer := Ask(f.target, offer, InDrain);
      lb := RunFunctor(recv, send, answer);
      RunWith(f, recv, send, answer, w, lb);
    }

    method RunWith(f: Functor, recv: RecvOutcome, send: SendOutcome, answer: Option<Bytes>, ghost w: State, ghost lb: Label)
      requires Valid() && P.Inv(w) && Enabled(w, lb) && lb == RunFunctor(recv, send, answer) && f == w.ready[0]
      requires f.kind != CloseFn
      requires View(InDrain) == w.(ready := w.ready[1..]) && f.target in w.live
      modifies conns`buffers, ready, ready.list, conns.all.Values, conns.buffers
      ensures Valid() && fresh(conns.buffers - old(conns.buffers)) && Apply(w, lb) == Running(View(InDrain))
    {
      hide P.Inv, Apply, FunctorEffect, FunctorLegal, Valid, View, Stepped;
      LiveShape(w, lb);
      RunOn(f, recv, send, answer, FunctorEffect(f, w.live[f.target], recv, send, answer));
    }

    /** One turn of the drain loop: take the oldest functor and run it with what it is offered. */
    method RunOne(offer: Offer) returns (ghost lb: Label)
      requires Valid() && P.Inv(View(InDrain)) && View(InDrain).ready != []
      modifies conns`all, this`epoll, conns`buffers, table`count, table.entries, ready, ready.list, handlers
      modifies handlers.repr, conns.all.Values, conns.buffers
      ensures Valid() && conns.all.Values <= old(conns.all.Values) && handlers.repr <= old(handlers.repr)
      ensures fresh(conns.buffers - old(conns.buffers))
      ensures var w, f := old(View(InDrain)), old(View(InDrain)).ready[0];
        && lb.RunFunctor? && Enabled(w, lb) && Apply(w, lb) == Running(View(InDrain))
        && (f.kind != CloseFn ==> f.target in w.live && lb == Granted(w.live[f.target], offer))
    {
      hide P.Inv, Apply, Enabled, Valid, View, Granted;
      ghost var w := View(InDrain);
      Here(InDrain);
      var f := TakeFunctor(InDrain);
      if f.kind == CloseFn {
        lb := RunClose(f, w);
      } else {
        lb := RunLive(f, offer, w);
      }
    }

    /** Kernel and application act, then the next functor runs. */
    method DrainTurn(input: bool) returns (ghost lb: Label)
      requires Valid() && P.Inv(View(InDrain)) && View(InDrain).ready != []
      modifies conns`all, this`epoll, conns`buffers, table`count, table.entries, ready, ready.list, handlers
      modifies handlers.repr, conns.all.Values, conns.buffers
      ensures Valid() && P.Inv(View(InDrain)) && lb.RunFunctor? && Runs(old(View(InDrain)), [lb], View(InDrain))
      ensures conns.all.Values <= old(conns.all.Values) && handlers.repr <= old(handlers.repr)
      ensures fresh(conns.buffers - old(conns.buffers))
      ensures !input ==> D.Less(D.Measure(View(InDrain)), D.Measure(old(View(InDrain))))
    {
      hide P.Inv, Apply, Enabled, Runs, D.Measure, Valid, View;
      ghost var u := View(InDrain);
      EnvironmentActs(InDrain, input, true);
      ghost var v := View(InDrain);
      var offer: Offer := *;
      lb := RunOne(offer);
      D.FunctorStepDecreases(v, lb);
      P.StepOk(v, lb);
      RunsStep(u, [], v, lb, View(InDrain));
      assert [] + [lb] == [lb];
    }

    /** One turn, and what is left to do. */
    method DrainOne(input: bool) returns (n: nat, ghost lb: Label)
      requires Valid() && P.Inv(View(InDrain)) && View(InDrain).ready != []
      modifies conns`all, this`epoll, conns`buffers, table`count, table.entries, ready, ready.list, handlers
      modifies handlers.repr, conns.all.Values, conns.buffers
      ensures Valid() && P.Inv(View(InDrain)) && n == |View(InDrain).ready|
      ensures lb.RunFunctor? && Runs(old(View(InDrain)), [lb], View(InDrain))
      ensures conns.all.Values <= old(conns.all.Values) && handlers.repr <= old(handlers.repr)
      ensures fresh(conns.buffers - old(conns.buffers))
      ensures !input ==> D.Less(D.Measure(View(InDrain)), D.Measure(old(View(InDrain))))
    {
      hide P.Inv, Runs, D.Measure, D.Less, Valid, View;
      lb := DrainTurn(input);
      n := QueueSize(InDrain);
    }

    /**
     * Run functors, which may post functors, until none is left; meanwhile kernel and application do what
     * they like, but input is delivered before finitely many turns only.
     */
    method DrainReadyList() returns (ghost fs: seq<Label>)
      requires Valid() && P.Inv(View(InDrain))
      modifies conns`all, this`epoll, conns`buffers, table`count, table.entries, ready, ready.list, handlers
      modifies handlers.repr, conns.all.Values, conns.buffers
      ensures Valid() && P.Inv(View(InDrain)) && View(InDrain).ready == []
      ensures Functors(fs) && Runs(old(View(InDrain)), fs, View(InDrain))
      ensures conns.all.Values <= old(conns.all.Values) && handlers.repr <= old(handlers.repr)
      ensures fresh(conns.buffers - old(conns.buffers))
    {
      hide P.Inv, Runs, D.Measure, Valid, View;
      ghost var w := View(InDrain);
      RunsItself(w);
      fs := [];
      var arrivals: nat :| arrivals >= 0;
      var n := QueueSize(InDrain);
      while n != 0
        invariant Valid() && P.Inv(View(InDrain)) && n == |View(InDrain).ready|
        invariant Functors(fs) && Runs(w, fs, View(InDrain))
        invariant conns.all.Values <= old(conns.all.Values) && handlers.repr <= old(handlers.repr)
        invariant fresh(conns.buffers - old(conns.buffers))
        decreases arrivals, D.Measure(View(InDrain)).0, D.Measure(View(InDrain)).1, D.Measure(View(InDrain)).2
      {
        ghost var u := View(InDrain);
        var input := arrivals > 0;
        if input {
          arrivals := arrivals - 1;
        }
        ghost var lb;
        n, lb := DrainOne(input);
        RunsOn(w, fs, u, [lb], View(InDrain));
        fs := fs + [lb];
      }
    }

    // -------------------------------------------------------------- accepting

    /** rtor_reactor_register. */
    method Register(id: Id, fd: Fd, ghost pc: Pc)
      requires Valid() && fd !in View(pc).table && fd < FDTABLE_MAX
      modifies this`epoll, table`count, table.entries
      ensures Valid()
      ensures View(pc) == old(View(pc)).(table := old(View(pc)).table[fd := Stream(id)], epoll := old(View(pc)).epoll + {fd})
    {
      hide Valid, View;
      Here(pc);
      Watch(epoll + {fd}, pc);
      Map(fd, Stream(id), pc);
    }

    method Map(fd: Fd, watcher: Watcher, ghost pc: Pc)
      requires Valid() && fd !in View(pc).table && fd < FDTABLE_MAX
      modifies table`count, table.entries
      ensures Valid() && View(pc) == old(View(pc)).(table := old(View(pc)).table[fd := watcher])
    {
      hide FdTable.Entries, FdTable.Valid, FunctorList.Contents, FunctorList.Valid, List.Items, List.Valid;
      hide Connections.Views, Connections.Valid;
      ghost var w := View(pc);
      table.Insert(watcher, fd);
      assert handlers.Valid() && handlers.Items() == w.handlers;
      assert ready.Valid() && ready.Contents() == w.ready;
      assert conns.Valid() && conns.Views() == w.live;
    }

    /** The new connection reads for the first time; nobody else knows it yet. */
    method FirstRead(conn: AsyncConnection, recv: RecvOutcome, ghost pc: Pc, ghost e: C.Effect)
      requires Valid() && conn !in conns.all.Values && conn.Valid() && conn.output == null
      requires RecvLegal(conn.sock, recv)
      requires e == C.ConnectionRead(conn.id, conn.View(), recv) && Fits(View(pc), e)
      modifies conn, ready, ready.list
      ensures Valid() && View(pc) == old(View(pc)).(ready := old(View(pc)).ready + e.posts)
      ensures conn.Valid() && conn.output == null && conn.View() == e.live
    {
      hide C.ConnectionRead, RecvLegal, AsyncConnection.View, FdTable.Entries, FdTable.Valid, FunctorList.Contents;
      hide FunctorList.Valid, List.Items, List.Valid, Connections.Views, Connections.Valid;
      ghost var w := View(pc);
      conn.ConnectionRead(recv, ready);
      assert table.Valid() && table.Entries() == w.table;
      assert handlers.Valid() && handlers.Items() == w.handlers;
      assert conns.Valid() && conns.Views() == w.live;
    }

    /** async_handler_new: a connection object, registered and read from once. */
    method NewHandler(n: NewConn, ghost pc: Pc, ghost e: C.Effect) returns (conn: AsyncConnection)
      requires Valid() && n.fd !in View(pc).table && n.fd < FDTABLE_MAX && RecvLegal(n.sock, n.recv)
      requires e == C.ConnectionRead(View(pc).nextId, C.NewConnection(n.fd, n.sock, n.garbage), n.recv)
      requires Fits(View(pc), e)
      modifies this`epoll, this`nextId, table`count, table.entries, ready, ready.list
      ensures Valid() && fresh(conn) && conn.Valid() && conn.output == null && conn.id == old(View(pc)).nextId
      ensures conn.View() == e.live
      ensures var w := old(View(pc));
        View(pc) == w.(nextId := w.nextId + 1, table := w.table[n.fd := Stream(w.nextId)], epoll := w.epoll + {n.fd}, ready := w.ready + e.posts)
    {
      hide C.ConnectionRead, RecvLegal, Valid, View;
      ghost var w := View(pc);
      var id := NextId(pc);
      Register(id, n.fd, pc);
      conn := new AsyncConnection(id, n.fd, n.sock, n.garbage);
      FirstRead(conn, n.recv, pc, e);
    }

    method NextId(ghost pc: Pc) returns (id: Id)
      requires Valid()
      modifies this`nextId
      ensures Valid() && id == old(View(pc)).nextId && View(pc) == old(View(pc)).(nextId := id + 1)
    {
      hide FdTable.Entries, FdTable.Valid, FunctorList.Contents, FunctorList.Valid, List.Items, List.Valid;
      hide Connections.Views, Connections.Valid;
      id := nextId;
      nextId := nextId + 1;
    }

    /** List_add_back on the server's handlers. */
    method AddHandler(id: Id, ghost pc: Pc)
      requires Valid()
      modifies handlers, handlers.repr
      ensures Valid() && fresh(handlers.repr - old(handlers.repr))
      ensures View(pc) == old(View(pc)).(handlers := old(View(pc)).handlers + [id])
    {
      hide FdTable.Entries, FdTable.Valid, FunctorList.Contents, FunctorList.Valid, List.Items, List.Valid;
      hide Connections.Views, Connections.Valid;
      ghost var w := View(pc);
      handlers.AddBack(id);
      assert table.Valid() && table.Entries() == w.table;
      assert ready.Valid() && ready.Contents() == w.ready;
      assert conns.Valid() && conns.Views() == w.live;
    }

    /** From here on the object can be reached. */
    method Enlist(conn: AsyncConnection, ghost pc: Pc)
      requires Valid() && conn.Valid() && conn.output == null
      modifies conns`all
      ensures Valid() && conns.all == old(conns.all)[conn.id := conn]
      ensures View(pc) == old(View(pc)).(live := old(View(pc)).live[conn.id := conn.View()])
    {
      hide FdTable.Entries, FdTable.Valid, FunctorList.Contents, FunctorList.Valid, List.Items, List.Valid;
      hide Connections.Views, Connections.Valid;
      ghost var w := View(pc);
      conns.Add(conn);
      assert table.Valid() && table.Entries() == w.table;
      assert handlers.Valid() && handlers.Items() == w.handlers;
      assert ready.Valid() && ready.Contents() == w.ready;
    }

    /** on_event_listening for a socket that accept() delivered. */
    method AcceptConnection(n: NewConn, ghost pc: Pc)
      requires Valid() && n.fd !in View(pc).table && n.fd < FDTABLE_MAX
      requires RecvLegal(n.sock, n.recv) && Accept(View(pc), n).Running?
      modifies conns`all, this`epoll, this`nextId, table`count, table.entries, ready, ready.list, handlers
      modifies handlers.repr
      ensures Valid() && fresh(conns.all.Values - old(conns.all.Values)) && fresh(handlers.repr - old(handlers.repr))
      ensures Accept(old(View(pc)), n) == Running(View(pc))
    {
      hide C.ConnectionRead, Accept, RecvLegal, Valid, View;
      ghost var w := View(pc);
      ghost var e := C.ConnectionRead(w.nextId, C.NewConnection(n.fd, n.sock, n.garbage), n.recv);
      AcceptShape(w, n, e);
      var conn := NewHandler(n, pc, e);
      AddHandler(conn.id, pc);
      Enlist(conn, pc);
    }

    // -------------------------------------------------------------- dispatching

    /** The listening socket is ready: accept() delivers a connection or none. */
    method NotifyListener(e: Event, offer: Option<NewConn>, ghost rest: seq<Event>) returns (ghost lb: Label)
      requires Valid() && P.Inv(View(InBatch([e] + rest))) && e.fd in View(InBatch([e] + rest)).table
      requires View(InBatch([e] + rest)).table[e.fd] == Listener
      modifies conns`all, this`epoll, this`nextId, table`count, table.entries, ready, ready.list, handlers
      modifies handlers.repr
      ensures Valid() && fresh(conns.all.Values - old(conns.all.Values)) && fresh(handlers.repr - old(handlers.repr))
      ensures lb == Label.Dispatch(GrantAccept(old(View(InBatch([e] + rest))).epoll, offer))
      ensures Enabled(old(View(InBatch([e] + rest))), lb)
      ensures Apply(old(View(InBatch([e] + rest))), lb) == Running(View(InBatch(rest)))
    {
      hide P.Inv, Apply, Valid, View;
      Here(InBatch([e] + rest));
      var accepted := GrantAccept(epoll, offer);
      lb := Label.Dispatch(accepted);
      TakeAccepted(accepted, e, rest);
    }

    method TakeAccepted(accepted: Option<NewConn>, e: Event, ghost rest: seq<Event>)
      requires Valid() && P.Inv(View(InBatch([e] + rest))) && e.fd in View(InBatch([e] + rest)).table
      requires View(InBatch([e] + rest)).table[e.fd] == Listener
      requires Enabled(View(InBatch([e] + rest)), Label.Dispatch(accepted))
      modifies conns`all, this`epoll, this`nextId, table`count, table.entries, ready, ready.list, handlers
      modifies handlers.repr
      ensures Valid() && fresh(conns.all.Values - old(conns.all.Values)) && fresh(handlers.repr - old(handlers.repr))
      ensures Apply(old(View(InBatch([e] + rest))), Label.Dispatch(accepted)) == Running(View(InBatch(rest)))
    {
      hide P.Inv, Apply, Accept, Valid, View;
      ghost var w := View(InBatch([e] + rest));
      Here(InBatch([e] + rest));
      Elsewhere(InBatch([e] + rest), InBatch(rest));
      assert ([e] + rest)[1..] == rest;
      ApplyDispatch(w, accepted, View(InBatch(rest)));
      if accepted.Some? {
        AcceptConnection(accepted.value, InBatch(rest));
      }
    }

    /** A stream is ready: its connection is told. */
    method NotifyStream(id: Id, e: Event, ghost rest: seq<Event>) returns (ghost lb: Label)
      requires Valid() && P.Inv(View(InBatch([e] + rest))) && e.fd in View(InBatch([e] + rest)).table
      requires View(InBatch([e] + rest)).table[e.fd] == Stream(id)
      modifies ready, ready.list, conns.all.Values
      ensures Valid() && lb.Dispatch? && Enabled(old(View(InBatch([e] + rest))), lb)
      ensures Apply(old(View(InBatch([e] + rest))), lb) == Running(View(InBatch(rest)))
    {
      hide P.Inv, Apply, C.EventHandler, Valid, View;
      ghost var w := View(InBatch([e] + rest));
      Here(InBatch([e] + rest));
      Elsewhere(InBatch([e] + rest), InBatch(rest));
      assert ([e] + rest)[1..] == rest;
      lb := Label.Dispatch(None);
      ApplyDispatch(w, None, View(InBatch(rest)));
      NotifyOn(id, e, InBatch(rest), C.EventHandler(id, w.live[id], e.pollIn, e.pollOut));
    }

    /** Hand one event to its watcher; a listener accepts what it is offered. */
    method Dispatch(e: Event, offer: Option<NewConn>, ghost rest: seq<Event>) returns (ghost lb: Label)
      requires Valid() && P.Inv(View(InBatch([e] + rest)))
      modifies conns`all, this`epoll, this`nextId, table`count, table.entries, ready, ready.list, handlers
      modifies handlers.repr, conns.all.Values
      ensures Valid() && fresh(conns.all.Values - old(conns.all.Values)) && fresh(handlers.repr - old(handlers.repr))
      ensures lb.Dispatch? && Enabled(old(View(InBatch([e] + rest))), lb)
      ensures var w := old(View(InBatch([e] + rest)));
        && Apply(w, lb) == Running(View(InBatch(rest)))
        && (e.fd in w.table && w.table[e.fd] == Listener ==> lb == Label.Dispatch(GrantAccept(w.epoll, offer)))
    {
      hide P.Inv, Apply, Enabled, Valid, View, GrantAccept;
      ghost var pc := InBatch([e] + rest);
      Here(pc);
      NextWatched(View(pc));
      var watcher := Watcher(e.fd, pc);
      match watcher {
        case Listener => lb := NotifyListener(e, offer, rest);
        case Stream(id) => lb := NotifyStream(id, e, rest);
      }
    }

    method TakeEvents(events: seq<Event>)
      requires Valid() && P.Inv(View(AtWait)) && forall e :: e in events ==> EventLegal(View(AtWait), e)
      modifies conns.all.Values
      ensures Valid() && P.Inv(View(InBatch(events)))
      ensures Runs(old(View(AtWait)), [EpollWait(events)], View(InBatch(events)))
    {
      hide P.Inv, Apply, Enabled, Runs, EventLegal, ClearEdges, Valid, View;
      ghost var w := View(AtWait);
      Here(AtWait);
      RunsItself(w);
      BeginBatch(w, events, w.(live := Taken(w.live, events), pc := InBatch(events)));
      var size := QueueSize(AtWait);
      assert size == 0;
      ClearEdgesOf(events, AtWait);
      Elsewhere(AtWait, InBatch(events));
      RunsStep(w, [], w, EpollWait(events), View(InBatch(events)));
      assert [] + [EpollWait(events)] == [EpollWait(events)];
    }

    /** Kernel and application act, then the next event is handed over. */
    method DispatchNext(e: Event, ghost rest: seq<Event>) returns (ghost lb: Label)
      requires Valid() && P.Inv(View(InBatch([e] + rest)))
      modifies conns`all, this`epoll, this`nextId, conns`buffers, table`count, table.entries, ready, ready.list, handlers
      modifies handlers.repr, conns.all.Values, conns.buffers
      ensures Valid() && P.Inv(View(InBatch(rest)))
      ensures lb.Dispatch? && Runs(old(View(InBatch([e] + rest))), [lb], View(InBatch(rest)))
      ensures fresh(conns.all.Values - old(conns.all.Values)) && fresh(handlers.repr - old(handlers.repr))
      ensures fresh(conns.buffers - old(conns.buffers))
    {
      hide P.Inv, Apply, Enabled, Runs, Valid, View;
      ghost var u := View(InBatch([e] + rest));
      EnvironmentActs(InBatch([e] + rest), true, true);
      ghost var v := View(InBatch([e] + rest));
      var offer: Option<NewConn> := *;
      lb := Dispatch(e, offer, rest);
      P.StepOk(v, lb);
      RunsStep(u, [], v, lb, View(InBatch(rest)));
      assert [] + [lb] == [lb];
    }

    /** Dispatch a batch, with the environment at work in between. */
    method DispatchBatch(events: seq<Event>) returns (ghost ds: seq<Label>)
      requires Valid() && P.Inv(View(InBatch(events)))
      modifies conns`all, this`epoll, this`nextId, conns`buffers, table`count, table.entries, ready, ready.list, handlers
      modifies handlers.repr, conns.all.Values, conns.buffers
      ensures Valid() && P.Inv(View(InBatch([])))
      ensures Dispatches(ds) && |ds| == |events| && Runs(old(View(InBatch(events))), ds, View(InBatch([])))
      ensures fresh(conns.all.Values - old(conns.all.Values)) && fresh(handlers.repr - old(handlers.repr))
      ensures fresh(conns.buffers - old(conns.buffers))
    {
      hide P.Inv, Runs, Valid, View;
      ghost var w := View(InBatch(events));
      RunsItself(w);
      ds := [];
      assert events[0..] == events && events[|events|..] == [];
      for i := 0 to |events|
        invariant Valid() && P.Inv(View(InBatch(events[i..])))
        invariant Dispatches(ds) && |ds| == i && Runs(w, ds, View(InBatch(events[i..])))
        invariant fresh(conns.all.Values - old(conns.all.Values)) && fresh(handlers.repr - old(handlers.repr))
        invariant fresh(conns.buffers - old(conns.buffers))
      {
        ghost var v := View(InBatch(events[i..]));
        assert events[i..] == [events[i]] + events[i + 1..];
        ghost var lb := DispatchNext(events[i], events[i + 1..]);
        RunsOn(w, ds, v, [lb], View(InBatch(events[i + 1..])));
        ds := ds + [lb];
      }
    }

    /** After the last event: drain, and back to the wait. */
    method FinishPass() returns (ghost fs: seq<Label>)
      requires Valid() && P.Inv(View(InBatch([])))
      modifies conns`all, this`epoll, conns`buffers, table`count, table.entries, ready, ready.list, handlers
      modifies handlers.repr, conns.all.Values, conns.buffers
      ensures Valid() && P.Inv(View(AtWait)) && View(AtWait).ready == []
      ensures Functors(fs) && Runs(old(View(InBatch([]))), [BatchDone] + fs + [DrainDone], View(AtWait))
      ensures conns.all.Values <= old(conns.all.Values) && handlers.repr <= old(handlers.repr)
      ensures fresh(conns.buffers - old(conns.buffers))
    {
      hide P.Inv, Apply, Enabled, Runs, Valid, View;
      ghost var w, d := View(InBatch([])), View(InDrain);
      Here(InBatch([]));
      Elsewhere(InBatch([]), InDrain);
      EndOfBatch(w, d);
      RunsItself(w);
      RunsStep(w, [], w, BatchDone, d);
      assert [] + [BatchDone] == [BatchDone];
      fs := DrainReadyList();
      RunsOn(w, [BatchDone], d, fs, View(InDrain));
      Here(InDrain);
      Elsewhere(InDrain, AtWait);
      EndOfDrain(View(InDrain), View(AtWait));
      RunsStep(w, [BatchDone] + fs, View(InDrain), DrainDone, View(AtWait));
    }

    /** The wait is over: take the events and dispatch them. */
    method ServeEvents(events: seq<Event>) returns (ghost ds: seq<Label>)
      requires Valid() && P.Inv(View(AtWait)) && forall e :: e in events ==> EventLegal(View(AtWait), e)
      modifies conns`all, this`epoll, this`nextId, conns`buffers, table`count, table.entries, ready, ready.list, handlers
      modifies handlers.repr, conns.all.Values, conns.buffers
      ensures Valid() && P.Inv(View(InBatch([])))
      ensures Dispatches(ds) && |ds| == |events| && Runs(old(View(AtWait)), [EpollWait(events)] + ds, View(InBatch([])))
      ensures fresh(conns.all.Values - old(conns.all.Values)) && fresh(handlers.repr - old(handlers.repr))
      ensures fresh(conns.buffers - old(conns.buffers))
    {
      hide P.Inv, Runs, EventLegal, Valid, View;
      ghost var w := View(AtWait);
      TakeEvents(events);
      ghost var b := View(InBatch(events));
      ds := DispatchBatch(events);
      RunsOn(w, [EpollWait(events)], b, ds, View(InBatch([])));
    }

    /**
     * One pass of the run loop: every reported event is dispatched, once and in order, and then functors
     * run until none is left.
     */
    method RunOnce(events: seq<Event>) returns (ghost ps: seq<Label>)
      requires Valid() && P.Inv(View(AtWait)) && forall e :: e in events ==> EventLegal(View(AtWait), e)
      modifies conns`all, this`epoll, this`nextId, conns`buffers, table`count, table.entries, ready, ready.list, handlers
      modifies handlers.repr, conns.all.Values, conns.buffers
      ensures Valid() && P.Inv(View(AtWait)) && View(AtWait).ready == []
      ensures IsPass(ps, events) && Runs(old(View(AtWait)), ps, View(AtWait))
      ensures fresh(conns.all.Values - old(conns.all.Values)) && fresh(handlers.repr - old(handlers.repr))
      ensures fresh(conns.buffers - old(conns.buffers))
    {
      hide P.Inv, Runs, EventLegal, Valid, View;
      ghost var w := View(AtWait);
      ghost var ds := ServeEvents(events);
      ghost var b := View(InBatch([]));
      ghost var fs := FinishPass();
      ps := PassOf(events, ds, fs);
      RunsOn(w, [EpollWait(events)] + ds, b, [BatchDone] + fs + [DrainDone], View(AtWait));
    }

    // -------------------------------------------------------------- the loop

    /** What epoll_wait may report of one descriptor now. */
    predicate Reportable(e: Event)
      reads this, conns, conns.all.Values
    {
      && e.fd in epoll
      && forall id :: id in conns.all && conns.all[id].fd == e.fd ==>
           && (conns.all[id].sock.inEdge && conns.all[id].sock.Readable() ==> e.pollIn)
           && (conns.all[id].sock.outEdge && conns.all[id].sock.Writable() ==> e.pollOut)
    }

    lemma {:induction false} ReportableLegal(e: Event)
      requires Valid()
      ensures Reportable(e) <==> EventLegal(View(AtWait), e)
    {
      hide Valid, View;
      Here(AtWait);
      forall id
        ensures id in View(AtWait).live <==> id in conns.all
        ensures id in conns.all ==> conns.all[id].Valid() && View(AtWait).live[id] == conns.all[id].View()
      {
        Known(id, AtWait);
      }
    }

    /** Whether epoll_wait can report `events` now, and reports any. */
    method Check(events: seq<Event>) returns (some: bool)
      requires Valid()
      ensures some <==> events != [] && forall e :: e in events ==> EventLegal(View(AtWait), e)
    {
      hide EventLegal, Valid, View;
      some := events != [] && forall e :: e in events ==> Reportable(e);
      forall e ensures Reportable(e) <==> EventLegal(View(AtWait), e) {
        ReportableLegal(e);
      }
    }

    /**
     * The kernel acts until epoll_wait returns, and if it has `events` to report, a pass is made; if not,
     * the loop is left.
     */
    method Pass(events: seq<Event>) returns (more: bool, ghost ps: seq<Label>)
      requires Valid() && P.Inv(View(AtWait))
      modifies conns`all, this`epoll, this`nextId, conns`buffers, table`count, table.entries, ready, ready.list, handlers
      modifies handlers.repr, conns.all.Values, conns.buffers
      ensures Valid() && P.Inv(View(AtWait)) && Runs(old(View(AtWait)), ps, View(AtWait))
      ensures more ==> IsPass(ps, events)
      ensures !more ==> ps == [] && (events == [] || exists e :: e in events && !EventLegal(View(AtWait), e))
      ensures fresh(conns.all.Values - old(conns.all.Values)) && fresh(handlers.repr - old(handlers.repr))
      ensures fresh(conns.buffers - old(conns.buffers))
    {
      hide P.Inv, Runs, IsPass, EventLegal, Valid, View;
      ghost var u := View(AtWait);
      EnvironmentActs(AtWait, true, false);
      ghost var v := View(AtWait);
      ps := [];
      more := Check(events);
      if more {
        ps := RunOnce(events);
        RunsOn(u, [], v, ps, View(AtWait));
        assert [] + ps == ps;
      }
    }

    /**
     * rtor_reactor_run for as many passes as `reports` has entries, each what epoll_wait would report:
     * every one of them is served, unless the loop is left because no descriptor is registered or
     * nothing can be reported.
     */
    method Run(reports: seq<seq<Event>>) returns (served: nat, ghost ps: seq<Label>)
      requires Valid() && P.Inv(View(AtWait))
      modifies conns`all, this`epoll, this`nextId, conns`buffers, table`count, table.entries, ready, ready.list, handlers
      modifies handlers.repr, conns.all.Values, conns.buffers
      ensures Valid() && P.Inv(View(AtWait)) && served <= |reports|
      ensures ArePasses(ps, reports[..served]) && Runs(old(View(AtWait)), ps, View(AtWait))
      ensures served < |reports| ==>
        || View(AtWait).table == map[]
        || reports[served] == [] || exists e :: e in reports[served] && !EventLegal(View(AtWait), e)
    {
      hide P.Inv, Runs, IsPass, ArePasses, EventLegal, Valid, View;
      ghost var w := View(AtWait);
      RunsItself(w);
      served, ps := 0, [];
      NoPasses();
      while served < |reports|
        invariant Valid() && P.Inv(View(AtWait)) && served <= |reports|
        invariant ArePasses(ps, reports[..served]) && Runs(w, ps, View(AtWait))
        invariant fresh(conns.all.Values - old(conns.all.Values)) && fresh(handlers.repr - old(handlers.repr))
        invariant fresh(conns.buffers - old(conns.buffers))
      {
        var registered := Registered(AtWait);
        if registered == 0 {
          return;
        }
        ghost var v := View(AtWait);
        var more;
        ghost var pass;
        more, pass := Pass(reports[served]);
        RunsOn(w, ps, v, pass, View(AtWait));
        if !more {
          assert ps + [] == ps;
          return;
        }
        OnePassMore(ps, reports[..served], pass, reports[served]);
        assert reports[..served + 1] == reports[..served] + [reports[served]];
        ps, served := ps + pass, served + 1;
      }
    }

    /** FdTable_size. */
    method Registered(ghost pc: Pc) returns (n: nat)
      requires Valid()
      ensures n == 0 <==> View(pc).table == map[]
    {
      hide FdTable.Entries, FunctorList.Contents, FunctorList.Valid, List.Items, List.Valid, Connections.Views;
      hide Connections.Valid;
      n := table.count;
    }
  }
}
