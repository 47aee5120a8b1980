/**
 * The reactor with any number of connections as a labelled transition system.  A label carries
 * every choice of the kernel, the application and the HTTP parser; Apply is then a function.  Each
 * way the C program can fail an assertion or touch freed memory leads to Crashed.
 */
module ReactorMachine {
  import opened Common
  import opened AsyncTypes
  import opened ConnectionSteps

  const FDTABLE_MAX: nat := 1024
  const READY_LIST_MAX: nat := 2 * FDTABLE_MAX

  datatype Event = Event(fd: Fd, pollIn: bool, pollOut: bool)
  datatype Watcher = Listener | Stream(id: Id)

  /** Where the reactor's run loop is. */
  datatype Pc = AtWait | InBatch(events: seq<Event>) | InDrain

  datatype State = State(
    live: map<Id, Live>,
    table: map<Fd, Watcher>,   // the descriptor table
    epoll: set<Fd>,            // the kernel's interest set
    handlers: seq<Id>,         // the server's list of handlers
    ready: seq<Functor>,
    pc: Pc,
    nextId: Id)

  /** The result of a step: a state, or a failed assertion or a use of freed memory. */
  datatype World = Running(state: State) | Crashed

  /** What accept() and the first recv() on the new socket deliver. */
  datatype NewConn = NewConn(fd: Fd, sock: Socket, garbage: Option<Msg>, recv: RecvOutcome)

  datatype Label =
    | EpollWait(events: seq<Event>)
    | Dispatch(accepted: Option<NewConn>)
    | BatchDone
    | RunFunctor(recv: RecvOutcome, send: SendOutcome, answer: Option<Bytes>)
    | DrainDone
    | LateAnswer(id: Id, response: Bytes)
    | BytesArrive(id: Id, bytes: Bytes, edge: bool)
    | PeerCloses(id: Id)
    | SpaceFreed(id: Id, amount: nat, edge: bool)

  // ---------------------------------------------------------------- what the environment may do

  /** A socket just armed for edge-triggered events reports what is already there. */
  predicate Armed(s: Socket) {
    s.sent == [] && (s.Readable() ==> s.inEdge) && (s.Writable() ==> s.outEdge)
  }

  /** The kernel never hands out an open descriptor, and the table has FDTABLE_MAX entries. */
  predicate AcceptLegal(epoll: set<Fd>, n: NewConn) {
    n.fd !in epoll && 0 < n.fd < FDTABLE_MAX && Armed(n.sock) && RecvLegal(n.sock, n.recv)
  }

  /** An event reports every pending edge whose condition still holds. */
  predicate EventLegal(w: State, e: Event)
  {
    && e.fd in w.epoll
    && forall id :: id in w.live && w.live[id].conn.fd == e.fd ==>
         && (w.live[id].sock.inEdge && w.live[id].sock.Readable() ==> e.pollIn)
         && (w.live[id].sock.outEdge && w.live[id].sock.Writable() ==> e.pollOut)
  }

  predicate FunctorLegal(l: Live, recv: RecvOutcome, send: SendOutcome, answer: Option<Bytes>) {
    && RecvLegal(l.sock, recv)
    && SendLegal(l.sock, OutputLength(l.conn), send)
    && (answer.Some? ==> answer.value != [])   // a serialized response holds at least its status line
  }

  /** The application answers a request it was given and has not answered. */
  predicate Owed(l: Live) { Unanswered(l.log) }

  predicate Unanswered(log: Log) { log.Snoc? && log.act.Handle? }

  predicate Enabled(w: State, lb: Label) {
    match lb
    case EpollWait(events) => w.pc == AtWait && forall e :: e in events ==> EventLegal(w, e)
    case Dispatch(accepted) => w.pc.InBatch? && w.pc.events != [] && (accepted.Some? ==> AcceptLegal(w.epoll, accepted.value))
    case BatchDone => w.pc == InBatch([])
    case RunFunctor(recv, send, answer) =>
      && w.pc == InDrain && w.ready != []
      && (w.ready[0].target in w.live ==> FunctorLegal(w.live[w.ready[0].target], recv, send, answer))
    case DrainDone => w.pc == InDrain && w.ready == []
    case LateAnswer(id, response) => w.pc != AtWait && id in w.live && Owed(w.live[id]) && response != []
    case BytesArrive(id, bytes, edge) =>
      id in w.live && bytes != [] && !w.live[id].sock.eof && (!w.live[id].sock.Readable() ==> edge)
    case PeerCloses(id) => id in w.live
    case SpaceFreed(id, amount, edge) => id in w.live && (!w.live[id].sock.Writable() && amount > 0 ==> edge)
  }

  // ---------------------------------------------------------------- what the program does

  /** functor_list_add asserts that the ring, which holds one item less than its capacity, is not full. */
  function PostAll(w: State, fs: seq<Functor>): World
  {
    if |w.ready| + |fs| <= READY_LIST_MAX - 1 then Running(w.(ready := w.ready + fs)) else Crashed
  }

  function Install(w: State, id: Id, e: Effect): World
  {
    if e.AssertFailed? then Crashed else PostAll(w.(live := w.live[id := e.live]), e.posts)
  }

  /** What a step that did not fail leaves. */
  lemma {:induction false} InstallShape(w: State, id: Id, e: Effect)
    requires Install(w, id, e).Running?
    ensures e.Ok? && |w.ready| + |e.posts| < READY_LIST_MAX
    ensures Install(w, id, e) == Running(w.(live := w.live[id := e.live], ready := w.ready + e.posts))
  {
  }

  /** The state in which the new connection object exists and its socket is registered and armed. */
  function Allocated(w: State, n: NewConn): State {
    w.(nextId := w.nextId + 1, table := w.table[n.fd := Stream(w.nextId)], epoll := w.epoll + {n.fd},
       live := w.live[w.nextId := NewConnection(n.fd, n.sock, n.garbage)])
  }

  /** on_event_listening: allocate, register, arm, read once, then add to the server's list. */
  function Accept(w: State, n: NewConn): World
    requires RecvLegal(n.sock, n.recv)
  {
    if n.fd in w.table then Crashed
    else
      var id := w.nextId;
      var r := Install(Allocated(w, n), id, ConnectionRead(id, NewConnection(n.fd, n.sock, n.garbage), n.recv));
      if r.Crashed? then Crashed else Running(r.state.(handlers := r.state.handlers + [id]))
  }

  function RemoveFirst(s: seq<Id>, x: Id): seq<Id> {
    if s == [] then [] else if s[0] == x then s[1..] else [s[0]] + RemoveFirst(s[1..], x)
  }

  /** handle_close_connection down to async_connection_free. */
  function Close(w: State, id: Id): World
    requires id in w.live
  {
    var fd := w.live[id].conn.fd;
    if id !in w.handlers || fd !in w.table then Crashed
    else Running(w.(handlers := RemoveFirst(w.handlers, id),
                    table := w.table - {fd},
                    epoll := w.epoll - {fd},
                    live := w.live - {id}))
  }

  function FunctorEffect(f: Functor, l: Live, recv: RecvOutcome, send: SendOutcome, answer: Option<Bytes>): Effect
    requires FunctorLegal(l, recv, send, answer) && f.kind != CloseFn
  {
    match f.kind
    case ReaderFn => PostableReader(f.target, l, recv)
    case RequestFn => PostableHandleRequest(f.target, l, answer)
    case WriterFn => PostableWriter(f.target, l, send)
    case WriteCompleteFn => PostableWriteComplete(f.target, l, recv)
  }

  function ClearEdges(l: Live, events: seq<Event>): Live {
    if exists i :: 0 <= i < |events| && events[i].fd == l.conn.fd
    then l.(sock := l.sock.(inEdge := false, outEdge := false)) else l
  }

  function WithSocket(w: State, id: Id, s: Socket): State
    requires id in w.live
  {
    w.(live := w.live[id := w.live[id].(sock := s)])
  }

  function DispatchEvent(w: State, e: Event, accepted: Option<NewConn>): World
    requires (accepted.Some? ==> RecvLegal(accepted.value.sock, accepted.value.recv))
  {
    if e.fd !in w.table then Crashed                       // FdTable_lookup asserts a non-null entry
    else match w.table[e.fd]
      case Listener => if accepted.None? then Running(w) else Accept(w, accepted.value)
      case Stream(id) =>
        if id !in w.live then Crashed
        else Install(w, id, EventHandler(id, w.live[id], e.pollIn, e.pollOut))
  }

  function Apply(w: State, lb: Label): World
    requires Enabled(w, lb)
  {
    match lb
    case EpollWait(events) =>
      if w.ready != [] then Crashed                        // reactor.c asserts an empty ready list here
      else Running(w.(pc := InBatch(events), live := map i | i in w.live :: ClearEdges(w.live[i], events)))
    case Dispatch(accepted) => DispatchEvent(w.(pc := InBatch(w.pc.events[1..])), w.pc.events[0], accepted)
    case BatchDone => Running(w.(pc := InDrain))
    case RunFunctor(recv, send, answer) =>
      var f := w.ready[0];
      var w1 := w.(ready := w.ready[1..]);
      if f.target !in w.live then Crashed                  // the functor's argument was freed
      else if f.kind == CloseFn then Close(w1, f.target)
      else Install(w1, f.target, FunctorEffect(f, w.live[f.target], recv, send, answer))
    case DrainDone => Running(w.(pc := AtWait))
    case LateAnswer(id, response) => Install(w, id, ConnectionWrite(id, w.live[id], response))
    case BytesArrive(id, bytes, edge) =>
      var s := w.live[id].sock;
      Running(WithSocket(w, id, s.(unread := s.unread + bytes, inEdge := s.inEdge || edge)))
    case PeerCloses(id) =>
      var s := w.live[id].sock;
      Running(WithSocket(w, id, s.(eof := true, inEdge := true)))
    case SpaceFreed(id, amount, edge) =>
      var s := w.live[id].sock;
      Running(WithSocket(w, id, s.(space := s.space + amount, outEdge := s.outEdge || edge)))
  }

  /** A server that has registered its listening socket and nothing else. */
  predicate Initial(w: State) {
    && w.live == map[] && w.handlers == [] && w.ready == [] && w.pc == AtWait
    && w.epoll == w.table.Keys
    && (forall fd :: fd in w.table ==> w.table[fd] == Listener && fd < FDTABLE_MAX)
  }

  /** `ws` are the states that the server goes through while the choices `ls` are made. */
  predicate IsRun(ws: seq<State>, ls: seq<Label>) {
    && |ws| == |ls| + 1
    && Initial(ws[0])
    && forall i :: 0 <= i < |ls| ==> Enabled(ws[i], ls[i]) && Apply(ws[i], ls[i]) == Running(ws[i + 1])
  }
}
