/**
 * A connection as its environment sees it: a reference automaton over what crosses its boundary, namely
 * the results of recv and send, the application's answers, epoll events and arriving bytes.  It is
 * written without the fields of the connection and without the functions of ConnectionSteps.  The
 * machine refines it: at every moment of every run, a connection is exactly where replaying its deeds
 * leads, and what its history records is what was done.
 */
module Reference {
  import opened Common
  import opened AsyncTypes
  import opened ConnectionSteps
  import opened ReactorMachine
  import opened History
  import opened Protocol

  datatype Deed =
    | Opens(n: NewConn)
    | Reads(recv: RecvOutcome)            // one recv, with what the parser made of it
    | Handles(answer: Option<Bytes>)      // the request is handed over, and perhaps answered at once
    | Answers(response: Bytes)            // the application answers later
    | Sends(send: SendOutcome)
    | Wakes(pollIn: bool, pollOut: bool)  // an event is dispatched to it
    | Closes
    | Reported                            // epoll_wait consumes its edges
    | Arrives(bytes: Bytes, edge: bool)
    | PeerEnds
    | Frees(amount: nat, edge: bool)

  datatype Ref = Ref(
    fd: Fd,
    phase: Phase,
    request: Option<Msg>,      // parsed, and about to be handed over
    unsent: Bytes,
    sock: Socket,
    parsed: seq<Msg>,
    handled: seq<Msg>,
    answered: seq<Bytes>)

  function Last<T>(s: seq<T>): T
    requires s != []
  {
    s[|s| - 1]
  }

  // ---------------------------------------------------------------- the automaton

  function AfterRead(r: Ref, o: RecvOutcome): Ref
    requires RecvLegal(r.sock, o)
  {
    match o
    case Received(count, completed, parserOk, stale) =>
      var got := r.(sock := r.sock.(unread := r.sock.unread[count..]), parsed := r.parsed + completed);
      if completed != [] then got.(phase := RequestPosted, request := Some(Last(completed)))
      else got.(phase := if stale then WaitRead else if parserOk then ReaderPosted else Closing)
    case PeerClosed => r.(phase := Closing)
    case RecvError => r.(phase := Closing)
    case RecvEagain => r.(phase := WaitRead)
  }

  function AfterSend(r: Ref, o: SendOutcome): Ref
    requires SendLegal(r.sock, |r.unsent|, o)
  {
    match o
    case Sent(n) =>
      r.(sock := r.sock.(sent := r.sock.sent + r.unsent[..n], space := r.sock.space - n),
         unsent := r.unsent[n..],
         phase := if n == |r.unsent| then WriteCompletePosted else WriterPosted)
    case SendEagain => r.(phase := WaitWrite)
    case SentZero => r.(phase := Closing)
    case SendError => r.(phase := Closing)
  }

  function AfterAnswer(r: Ref, response: Bytes): Ref {
    r.(phase := WriterPosted, unsent := response, answered := r.answered + [response])
  }

  /** A new connection reads at once. */
  function Opened(n: NewConn): Ref
    requires RecvLegal(n.sock, n.recv)
  {
    AfterRead(Ref(n.fd, ReaderPosted, None, [], n.sock, [], [], []), n.recv)
  }

  /** Which deeds are possible where. */
  predicate Possible(r: Ref, d: Deed) {
    match d
    case Opens(n) => false
    case Reads(o) => (r.phase == ReaderPosted || r.phase == WriteCompletePosted) && RecvLegal(r.sock, o)
    case Handles(_) => r.phase == RequestPosted && r.request.Some?
    case Answers(_) => r.phase == Processing
    case Sends(o) => r.phase == WriterPosted && SendLegal(r.sock, |r.unsent|, o)
    case Closes => r.phase == Closing
    case _ => true
  }

  function Next(r: Ref, d: Deed): Option<Ref> {
    if !Possible(r, d) then None
    else match d
      case Reads(o) => Some(AfterRead(r, o))
      case Handles(answer) =>
        var given := r.(phase := Processing, request := None, handled := r.handled + [r.request.value]);
        Some(if answer.Some? then AfterAnswer(given, answer.value) else given)
      case Answers(response) => Some(AfterAnswer(r, response))
      case Sends(o) => Some(AfterSend(r, o))
      case Wakes(pollIn, pollOut) =>
        Some(if r.phase == WaitRead && pollIn then r.(phase := ReaderPosted)
             else if r.phase == WaitWrite && pollOut then r.(phase := WriterPosted)
             else r)
      case Reported => Some(r.(sock := r.sock.(inEdge := false, outEdge := false)))
      case Arrives(bytes, edge) =>
        Some(r.(sock := r.sock.(unread := r.sock.unread + bytes, inEdge := r.sock.inEdge || edge)))
      case PeerEnds => Some(r.(sock := r.sock.(eof := true, inEdge := true)))
      case Frees(amount, edge) =>
        Some(r.(sock := r.sock.(space := r.sock.space + amount, outEdge := r.sock.outEdge || edge)))
      case _ => None
  }

  /** Where a sequence of deeds leads: to a connection in some condition, or to none. */
  function Replay(ds: seq<Deed>): Option<Ref> {
    if ds == [] then None else Advance(Replay(ds[..|ds| - 1]), Last(ds))
  }

  function Advance(r: Option<Ref>, d: Deed): Option<Ref> {
    if r.Some? then Next(r.value, d)
    else if d.Opens? && RecvLegal(d.n.sock, d.n.recv) then Some(Opened(d.n))
    else None
  }

  // ---------------------------------------------------------------- the deeds of a run

  /** What a step is to connection `id`; only labels and the schedule decide. */
  function Doing(w: State, lb: Label, id: Id): Option<Deed> {
    match lb
    case EpollWait(events) =>
      if exists e :: e in events && e.fd in w.table && w.table[e.fd] == Stream(id) then Some(Reported) else None
    case Dispatch(accepted) =>
      if !w.pc.InBatch? || w.pc.events == [] || w.pc.events[0].fd !in w.table then None
      else
        var e := w.pc.events[0];
        if w.table[e.fd] == Stream(id) then Some(Wakes(e.pollIn, e.pollOut))
        else if w.table[e.fd] == Listener && accepted.Some? && id == w.nextId then Some(Opens(accepted.value))
        else None
    case RunFunctor(recv, send, answer) =>
      if w.ready == [] || w.ready[0].target != id then None
      else Some(match w.ready[0].kind
        case ReaderFn => Reads(recv)
        case RequestFn => Handles(answer)
        case WriterFn => Sends(send)
        case WriteCompleteFn => Reads(recv)
        case CloseFn => Closes)
    case LateAnswer(i, response) => if i == id then Some(Answers(response)) else None
    case BytesArrive(i, bytes, edge) => if i == id then Some(Arrives(bytes, edge)) else None
    case PeerCloses(i) => if i == id then Some(PeerEnds) else None
    case SpaceFreed(i, amount, edge) => if i == id then Some(Frees(amount, edge)) else None
    case BatchDone => None
    case DrainDone => None
  }

  function ToDeeds(d: Option<Deed>): seq<Deed> { if d.Some? then [d.value] else [] }

  /** The deeds of connection `id` in the first `i` steps of a run. */
  function Deeds(ws: seq<State>, ls: seq<Label>, i: nat, id: Id): seq<Deed>
    requires i <= |ls| < |ws|
  {
    if i == 0 then [] else Deeds(ws, ls, i - 1, id) + ToDeeds(Doing(ws[i - 1], ls[i - 1], id))
  }

  // ---------------------------------------------------------------- the machine's connection, abstractly

  function RefOf(l: Live): Ref
    requires PhaseOf(l).Some?
  {
    var p := PhaseOf(l).value;
    Ref(l.conn.fd, p, if p == RequestPosted then l.conn.scratchRequest else None, Unsent(l.conn), l.sock,
        Parsed(l.log), Handled(l.log), Responses(l.log))
  }

  /** Connection `id` among the live ones, abstractly. */
  function Abstract(live: map<Id, Live>, id: Id): Option<Ref>
    requires id in live ==> PhaseOf(live[id]).Some?
  {
    if id in live then Some(RefOf(live[id])) else None
  }

  // ---------------------------------------------------------------- functors

  /** A connection about to read, from which `r` is derived. */
  predicate AboutToRead(l: Live, r: Ref) {
    && l.conn.readState == ReadActive && !l.conn.readsidePosted && l.conn.inputMessage.None?
    && l.conn.writeState == WriteIdle && l.conn.output.None? && BytesOk(l) && StageOf(l.log) == Some(Reading)
    && r.fd == l.conn.fd && r.request == None && r.unsent == [] && r.sock == l.sock
    && r.parsed == Parsed(l.log) && r.handled == Handled(l.log) && r.answered == Responses(l.log)
  }

  lemma {:induction false} ReadRefines(id: Id, l: Live, o: RecvOutcome, r: Ref)
    requires RecvLegal(l.sock, o) && AboutToRead(l, r)
    ensures var e := Reader(id, l, o); e.Ok? && PhaseOf(e.live).Some? && RefOf(e.live) == AfterRead(r, o)
  {
    hide Flat;
    ReaderEffect(id, l, o);
    if o.Received? {
      assert Handled(l.log) + [] == Handled(l.log) && Responses(l.log) + [] == Responses(l.log);
    }
  }

  lemma {:induction false} ReaderRefines(f: Functor, l: Live, o: RecvOutcome)
    requires LiveOk(l) && KindOf(l) == Some(ReaderFn) && RecvLegal(l.sock, o)
    ensures var e := PostableReader(f.target, l, o);
      e.Ok? && PhaseOf(e.live).Some? && Some(RefOf(e.live)) == Next(RefOf(l), Reads(o))
  {
    hide Flat, Reader;
    ReadRefines(f.target, l.(conn := l.conn.(readsidePosted := false)), o, RefOf(l));
  }

  lemma {:induction false} CompleteRefines(f: Functor, l: Live, o: RecvOutcome)
    requires LiveOk(l) && KindOf(l) == Some(WriteCompleteFn) && RecvLegal(l.sock, o)
    ensures var e := PostableWriteComplete(f.target, l, o);
      e.Ok? && PhaseOf(e.live).Some? && Some(RefOf(e.live)) == Next(RefOf(l), Reads(o))
  {
    hide Flat, Reader;
    var l1 := l.(log := Snoc(l.log, Done), conn := l.conn.(readState := ReadActive));
    assert Responses(l1.log) == Responses(l.log) && Parsed(l1.log) == Parsed(l.log) && Handled(l1.log) == Handled(l.log);
    ReadRefines(f.target, l1, o, RefOf(l));
  }

  lemma {:induction false} RequestRefines(f: Functor, l: Live, answer: Option<Bytes>)
    requires LiveOk(l) && KindOf(l) == Some(RequestFn) && (answer.Some? ==> answer.value != [])
    ensures var e := PostableHandleRequest(f.target, l, answer);
      e.Ok? && PhaseOf(e.live).Some? && Some(RefOf(e.live)) == Next(RefOf(l), Handles(answer))
  {
    hide Flat;
    RequestEffect(f.target, l, answer);
    LogHandles(l.log, l.conn.scratchRequest.value);
    if answer.Some? {
      LogResponds(Snoc(l.log, Handle(l.conn.scratchRequest.value)), answer.value);
    }
  }

  lemma {:induction false} LogHandles(log: Log, m: Msg)
    ensures var k := Snoc(log, Handle(m));
      Parsed(k) == Parsed(log) && Handled(k) == Handled(log) + [m] && Responses(k) == Responses(log)
  {
  }

  lemma {:induction false} LogResponds(log: Log, response: Bytes)
    ensures var k := Snoc(log, Respond(response));
      Parsed(k) == Parsed(log) && Handled(k) == Handled(log) && Responses(k) == Responses(log) + [response]
  {
  }

  lemma {:induction false} WriterRefines(f: Functor, l: Live, o: SendOutcome)
    requires LiveOk(l) && KindOf(l) == Some(WriterFn) && SendLegal(l.sock, OutputLength(l.conn), o)
    ensures var e := PostableWriter(f.target, l, o);
      e.Ok? && PhaseOf(e.live).Some? && Some(RefOf(e.live)) == Next(RefOf(l), Sends(o))
  {
    hide Flat;
    WriterEffect(f.target, l, o);
  }

  lemma {:induction false} AnswerRefines(id: Id, l: Live, response: Bytes)
    requires LiveOk(l) && PhaseOf(l) == Some(Processing) && response != []
    ensures var e := ConnectionWrite(id, l, response);
      e.Ok? && PhaseOf(e.live).Some? && Some(RefOf(e.live)) == Next(RefOf(l), Answers(response))
  {
    hide Flat;
    WriteEffect(id, l, response);
    LogResponds(l.log, response);
  }

  lemma {:induction false} EventRefines(id: Id, l: Live, pollIn: bool, pollOut: bool)
    requires LiveOk(l)
    ensures var e := EventHandler(id, l, pollIn, pollOut);
      e.Ok? && PhaseOf(e.live).Some? && Some(RefOf(e.live)) == Next(RefOf(l), Wakes(pollIn, pollOut))
  {
    hide Flat;
    EventOk(id, l, pollIn, pollOut);
  }

  lemma {:induction false} OpenRefines(id: Id, n: NewConn)
    requires n.sock.sent == [] && RecvLegal(n.sock, n.recv)
    ensures var e := ConnectionRead(id, NewConnection(n.fd, n.sock, n.garbage), n.recv);
      e.Ok? && PhaseOf(e.live).Some? && RefOf(e.live) == Opened(n)
  {
    hide Reader, AfterRead;
    var l := NewConnection(n.fd, n.sock, n.garbage);
    ReadRefines(id, l.(conn := l.conn.(readState := ReadActive)), n.recv, Ref(n.fd, ReaderPosted, None, [], n.sock, [], [], []));
  }

  lemma {:induction false} FunctorRefines(f: Functor, l: Live, recv: RecvOutcome, send: SendOutcome, answer: Option<Bytes>, d: Deed)
    requires LiveOk(l) && FunctorLegal(l, recv, send, answer) && KindOf(l) == Some(f.kind) && f.kind != CloseFn
    requires d == match f.kind
      case ReaderFn => Reads(recv)
      case RequestFn => Handles(answer)
      case WriterFn => Sends(send)
      case _ => Reads(recv)
    ensures var e := FunctorEffect(f, l, recv, send, answer);
      e.Ok? && PhaseOf(e.live).Some? && Some(RefOf(e.live)) == Next(RefOf(l), d)
  {
    hide PostableReader, PostableHandleRequest, PostableWriter, PostableWriteComplete, LiveOk, PhaseOf, Next, RefOf, KindOf;
    match f.kind {
      case ReaderFn => ReaderRefines(f, l, recv);
      case RequestFn => RequestRefines(f, l, answer);
      case WriterFn => WriterRefines(f, l, send);
      case WriteCompleteFn => CompleteRefines(f, l, recv);
    }
  }

  /** Only a connection with nothing left to do is closed. */
  lemma {:induction false} ClosePossible(l: Live)
    requires KindOf(l) == Some(CloseFn)
    ensures PhaseOf(l) == Some(Closing) && Possible(RefOf(l), Closes) && Next(RefOf(l), Closes) == None
  {
  }

  // ---------------------------------------------------------------- steps and runs

  /** Connection `id` after a step that is `d` to it, if it is anything. */
  function After(r: Option<Ref>, d: Option<Deed>): Option<Ref> {
    if d.Some? then Advance(r, d.value) else r
  }

  lemma {:induction false} HasPhase(w: State, id: Id)
    requires Inv(w) && id in w.live
    ensures LiveOk(w.live[id]) && PhaseOf(w.live[id]).Some? && id < w.nextId
    ensures w.live[id].conn.fd in w.table && w.table[w.live[id].conn.fd] == Stream(id)
  {
  }

  /** The connections that a step leaves, abstractly. */
  ghost predicate Refined(w: State, lb: Label, v: State, id: Id)
    requires Inv(w) && Inv(v)
  {
    && (id in w.live ==> PhaseOf(w.live[id]).Some?) && (id in v.live ==> PhaseOf(v.live[id]).Some?)
    && Abstract(v.live, id) == After(Abstract(w.live, id), Doing(w, lb, id))
  }

  lemma {:induction false} WaitRefines(w: State, lb: Label, v: State, id: Id)
    requires Inv(w) && lb.EpollWait? && Enabled(w, lb) && Apply(w, lb) == Running(v) && Inv(v)
    ensures Refined(w, lb, v, id)
  {
    hide LiveOk, Kinds, Scheduled, PhaseOf, RefOf;
    if id in w.live {
      HasPhase(w, id);
      KeepsPhase(w.live[id], v.live[id]);
      ReportedIff(w, lb.events, id);
    }
  }

  /** The events of a connection are those of its descriptor. */
  lemma {:induction false} ReportedIff(w: State, events: seq<Event>, id: Id)
    requires Registered(w) && id in w.live
    ensures (exists i :: 0 <= i < |events| && events[i].fd == w.live[id].conn.fd)
       <==> (exists e :: e in events && e.fd in w.table && w.table[e.fd] == Stream(id))
  {
    var fd := w.live[id].conn.fd;
    if i :| 0 <= i < |events| && events[i].fd == fd {
      assert events[i] in events;
    }
    if e :| e in events && e.fd in w.table && w.table[e.fd] == Stream(id) {
      assert exists i :: 0 <= i < |events| && events[i] == e;
    }
  }

  lemma {:induction false} KeepsPhase(l: Live, k: Live)
    requires PhaseOf(l).Some? && k == l.(sock := k.sock)
    ensures PhaseOf(k) == PhaseOf(l) && RefOf(l).sock == l.sock && RefOf(k) == RefOf(l).(sock := k.sock)
  {
  }

  /** One connection has gone where its deed leads; the others are as they were. */
  lemma {:induction false} OneRefined(w: State, lb: Label, v: State, i: Id, k: Live, id: Id)
    requires Inv(w) && Inv(v) && PhaseOf(k).Some? && i in w.live && v.live == w.live[i := k]
    requires PhaseOf(w.live[i]).Some? && Doing(w, lb, i).Some? && Some(RefOf(k)) == Next(RefOf(w.live[i]), Doing(w, lb, i).value)
    requires id != i ==> Doing(w, lb, id) == None
    ensures Refined(w, lb, v, id)
  {
    hide PhaseOf, RefOf, Inv, Next, Doing;
    if id in w.live { HasPhase(w, id); }
  }

  lemma {:induction false} KernelRefines(w: State, lb: Label, v: State, id: Id)
    requires Inv(w) && Enabled(w, lb) && (lb.BytesArrive? || lb.PeerCloses? || lb.SpaceFreed?)
    requires Apply(w, lb) == Running(v) && Inv(v)
    ensures Refined(w, lb, v, id)
  {
    hide PhaseOf, RefOf, Inv;
    var l, k := w.live[lb.id], v.live[lb.id];
    HasPhase(w, lb.id);
    KeepsPhase(l, k);
    OneRefined(w, lb, v, lb.id, k, id);
  }

  lemma {:induction false} AnswerStep(w: State, lb: Label, v: State, id: Id)
    requires Inv(w) && lb.LateAnswer? && Enabled(w, lb) && Apply(w, lb) == Running(v) && Inv(v)
    ensures Refined(w, lb, v, id)
  {
    hide LiveOk, Kinds, PhaseOf, ConnectionWrite, RefOf, Next, Inv, Install;
    var l := w.live[lb.id];
    var e := ConnectionWrite(lb.id, l, lb.response);
    HasPhase(w, lb.id);
    OwedProcessing(l);
    AnswerRefines(lb.id, l, lb.response);
    InstallShape(w, lb.id, e);
    OneRefined(w, lb, v, lb.id, e.live, id);
  }

  lemma {:induction false} FunctorStep(w: State, lb: Label, v: State, id: Id)
    requires Inv(w) && lb.RunFunctor? && Enabled(w, lb) && Apply(w, lb) == Running(v) && Inv(v)
    ensures Refined(w, lb, v, id)
  {
    hide LiveOk, PhaseOf, FunctorEffect, RefOf, Next, Inv, Install, KindOf;
    NextKind(w);
    var f, w1 := w.ready[0], w.(ready := w.ready[1..]);
    var l := w.live[f.target];
    HasPhase(w, f.target);
    if f.kind == CloseFn {
      ClosePossible(l);
      if id in w.live { HasPhase(w, id); }
    } else {
      var e := FunctorEffect(f, l, lb.recv, lb.send, lb.answer);
      FunctorRefines(f, l, lb.recv, lb.send, lb.answer, Doing(w, lb, f.target).value);
      InstallShape(w1, f.target, e);
      OneRefined(w, lb, v, f.target, e.live, id);
    }
  }

  lemma {:induction false} NextKind(w: State)
    requires Inv(w) && w.ready != []
    ensures w.ready[0].target in w.live && KindOf(w.live[w.ready[0].target]) == Some(w.ready[0].kind)
  {
    hide LiveOk, KindOf;
    PopQueue(w.ready, Kinds(w.live));
  }

  lemma {:induction false} NextEvent(w: State)
    requires Inv(w) && w.pc.InBatch? && w.pc.events != []
    ensures var fd := w.pc.events[0].fd;
      fd in w.table && (w.table[fd].Stream? ==> w.table[fd].id in w.live)
    ensures w.nextId !in w.live && forall fd :: fd in w.table ==> w.table[fd] != Stream(w.nextId)
  {
    hide LiveOk, Kinds;
    assert w.pc.events[0] in w.pc.events;
  }

  lemma {:induction false} DispatchStep(w: State, lb: Label, v: State, id: Id)
    requires Inv(w) && lb.Dispatch? && Enabled(w, lb) && Apply(w, lb) == Running(v) && Inv(v)
    ensures Refined(w, lb, v, id)
  {
    hide LiveOk, PhaseOf, EventHandler, RefOf, Next, Inv, Install, KindOf, Accept, AcceptLegal;
    NextEvent(w);
    var e, w1 := w.pc.events[0], w.(pc := InBatch(w.pc.events[1..]));
    match w.table[e.fd] {
      case Listener =>
        if lb.accepted.Some? {
          AcceptStep(w, w1, lb, v, lb.accepted.value, id);
        } else if id in w.live {
          HasPhase(w, id);
        }
      case Stream(i) =>
        HasPhase(w, i);
        EventRefines(i, w.live[i], e.pollIn, e.pollOut);
        InstallShape(w1, i, EventHandler(i, w.live[i], e.pollIn, e.pollOut));
        OneRefined(w, lb, v, i, EventHandler(i, w.live[i], e.pollIn, e.pollOut).live, id);
    }
  }

  lemma {:induction false} AcceptStep(w: State, w1: State, lb: Label, v: State, n: NewConn, id: Id)
    requires Inv(w) && Inv(v) && w1 == w.(pc := w1.pc) && AcceptLegal(w.epoll, n) && Accept(w1, n) == Running(v)
    requires w.nextId !in w.live && Doing(w, lb, id) == if id == w.nextId then Some(Opens(n)) else None
    ensures Refined(w, lb, v, id)
  {
    hide LiveOk, PhaseOf, RefOf, Inv, Install, ConnectionRead, Opened, Doing;
    var l := NewConnection(n.fd, n.sock, n.garbage);
    var e := ConnectionRead(w.nextId, l, n.recv);
    OpenRefines(w.nextId, n);
    InstallShape(Allocated(w1, n), w.nextId, e);
    assert v.live == w.live[w.nextId := l][w.nextId := e.live] == w.live[w.nextId := e.live];
    if id in w.live { HasPhase(w, id); }
  }

  /** Every step takes every connection where the automaton says, and only an accept makes a new one. */
  lemma {:induction false} StepRefines(w: State, lb: Label, v: State, id: Id)
    requires Inv(w) && Enabled(w, lb) && Apply(w, lb) == Running(v)
    ensures Inv(v) && Refined(w, lb, v, id)
  {
    StepOk(w, lb);
    match lb {
      case EpollWait(_) => WaitRefines(w, lb, v, id);
      case Dispatch(_) => DispatchStep(w, lb, v, id);
      case RunFunctor(_, _, _) => FunctorStep(w, lb, v, id);
      case LateAnswer(_, _) => AnswerStep(w, lb, v, id);
      case BatchDone => StillThere(w, lb, v, id);
      case DrainDone => StillThere(w, lb, v, id);
      case _ => KernelRefines(w, lb, v, id);
    }
  }

  lemma {:induction false} StillThere(w: State, lb: Label, v: State, id: Id)
    requires Inv(w) && Inv(v) && v.live == w.live && Doing(w, lb, id) == None
    ensures Refined(w, lb, v, id)
  {
    hide PhaseOf, RefOf, Doing;
    if id in w.live { HasPhase(w, id); }
  }

  lemma {:induction false} ReplayMore(ds: seq<Deed>, d: Option<Deed>)
    ensures Replay(ds + ToDeeds(d)) == After(Replay(ds), d)
  {
    hide Advance;
    assert ds + [] == ds;
    if d.Some? {
      assert (ds + [d.value])[..|ds|] == ds;
    }
  }

  /** In every state of every run each connection is where its deeds lead, and no other connection exists. */
  lemma {:induction false} Refinement(ws: seq<State>, ls: seq<Label>, i: nat, id: Id)
    requires IsRun(ws, ls) && i < |ws|
    ensures id in ws[i].live ==> PhaseOf(ws[i].live[id]).Some?
    ensures Replay(Deeds(ws, ls, i, id)) == Abstract(ws[i].live, id)
  {
    hide Apply, Enabled, Inv, Doing, RefOf, PhaseOf, Replay, Advance;
    if i == 0 {
      NobodyAtFirst(ws, ls, id);
    } else {
      Refinement(ws, ls, i - 1, id);
      RunOk(ws, ls, i - 1);
      StepRefines(ws[i - 1], ls[i - 1], ws[i], id);
      ReplayMore(Deeds(ws, ls, i - 1, id), Doing(ws[i - 1], ls[i - 1], id));
    }
  }

  lemma {:induction false} NobodyAtFirst(ws: seq<State>, ls: seq<Label>, id: Id)
    requires IsRun(ws, ls)
    ensures ws[0].live == map[] && Replay([]) == None
  {
  }

  // ---------------------------------------------------------------- the queue and the run loop

  /** What a step puts at the end of the queue: the functor of the phase that it brought a connection to. */
  function Posted(w: State, lb: Label, v: State): seq<Functor> {
    match lb
    case RunFunctor(_, _, _) => if w.ready == [] then [] else Owned(v, w.ready[0].target)
    case LateAnswer(id, _) => Owned(v, id)
    case Dispatch(accepted) =>
      if w.pc.InBatch? && w.pc.events != [] && w.pc.events[0].fd in w.table
      then PostedBy(w, w.table[w.pc.events[0].fd], accepted, v) else []
    case _ => []
  }

  function PostedBy(w: State, watcher: Watcher, accepted: Option<NewConn>, v: State): seq<Functor> {
    match watcher
    case Listener => if accepted.Some? then Owned(v, w.nextId) else []
    case Stream(id) => if id in w.live && id in v.live && v.live[id] != w.live[id] then Owned(v, id) else []
  }

  function Owned(v: State, id: Id): seq<Functor> { if id in v.live then Posts(id, KindOf(v.live[id])) else [] }

  /** Where the run loop goes. */
  function NextPc(w: State, lb: Label): Pc {
    match lb
    case EpollWait(events) => InBatch(events)
    case Dispatch(_) => if w.pc.InBatch? && w.pc.events != [] then InBatch(w.pc.events[1..]) else w.pc
    case BatchDone => InDrain
    case DrainDone => AtWait
    case _ => w.pc
  }

  /** The queue is served in order, every step posts at its end, and events are dispatched in order. */
  lemma {:induction false} StepControls(w: State, lb: Label, v: State)
    requires Inv(w) && Enabled(w, lb) && Apply(w, lb) == Running(v)
    ensures v.ready == (if lb.RunFunctor? then w.ready[1..] else w.ready) + Posted(w, lb, v) && v.pc == NextPc(w, lb)
  {
    hide LiveOk, PhaseOf, EventHandler, Install, KindOf, Accept, AcceptLegal, ConnectionWrite, FunctorEffect;
    assert w.ready + [] == w.ready;
    match lb {
      case Dispatch(accepted) => DispatchControls(w, accepted, v);
      case RunFunctor(recv, send, answer) => FunctorControls(w, lb, v);
      case LateAnswer(id, response) => AnswerControls(w, lb, v);
      case _ =>
    }
  }

  lemma {:induction false} AnswerControls(w: State, lb: Label, v: State)
    requires Inv(w) && lb.LateAnswer? && Enabled(w, lb) && Apply(w, lb) == Running(v)
    ensures v.ready == w.ready + Posted(w, lb, v) && v.pc == w.pc
  {
    hide LiveOk, PhaseOf, Install, KindOf, ConnectionWrite, Inv;
    var l := w.live[lb.id];
    HasPhase(w, lb.id);
    OwedProcessing(l);
    WriteEffect(lb.id, l, lb.response);
    InstallShape(w, lb.id, ConnectionWrite(lb.id, l, lb.response));
  }

  lemma {:induction false} FunctorControls(w: State, lb: Label, v: State)
    requires Inv(w) && lb.RunFunctor? && Enabled(w, lb) && Apply(w, lb) == Running(v)
    ensures v.ready == w.ready[1..] + Posted(w, lb, v) && v.pc == w.pc
  {
    hide LiveOk, PhaseOf, Install, KindOf, FunctorEffect, Inv;
    NextKind(w);
    HasPhase(w, w.ready[0].target);
    var f, w1 := w.ready[0], w.(ready := w.ready[1..]);
    if f.kind != CloseFn {
      FunctorOk(f, w.live[f.target], lb.recv, lb.send, lb.answer);
      InstallShape(w1, f.target, FunctorEffect(f, w.live[f.target], lb.recv, lb.send, lb.answer));
    }
  }

  lemma {:induction false} DispatchControls(w: State, accepted: Option<NewConn>, v: State)
    requires Inv(w) && Enabled(w, Dispatch(accepted)) && Apply(w, Dispatch(accepted)) == Running(v)
    ensures v.ready == w.ready + Posted(w, Dispatch(accepted), v) && v.pc == InBatch(w.pc.events[1..])
  {
    hide LiveOk, PhaseOf, EventHandler, Install, KindOf, ConnectionRead, Inv, RecvLegal;
    NextEvent(w);
    var e, w1 := w.pc.events[0], w.(pc := InBatch(w.pc.events[1..]));
    match w.table[e.fd] {
      case Listener =>
        if accepted.Some? {
          var n := accepted.value;
          var l := NewConnection(n.fd, n.sock, n.garbage);
          FirstReadEffect(w.nextId, l, n.recv);
          InstallShape(Allocated(w1, n), w.nextId, ConnectionRead(w.nextId, l, n.recv));
        }
      case Stream(id) =>
        HasPhase(w, id);
        EventOk(id, w.live[id], e.pollIn, e.pollOut);
        InstallShape(w1, id, EventHandler(id, w.live[id], e.pollIn, e.pollOut));
        EventChanges(id, w.live[id], e.pollIn, e.pollOut);
    }
  }

  lemma {:induction false} EventChanges(id: Id, l: Live, pollIn: bool, pollOut: bool)
    requires LiveOk(l)
    ensures var e := EventHandler(id, l, pollIn, pollOut);
      e.Ok? && e.posts == if e.live == l then [] else Posts(id, KindOf(e.live))
  {
    EventOk(id, l, pollIn, pollOut);
  }

  // ---------------------------------------------------------------- what the deeds say

  function Outcome(o: RecvOutcome): seq<Msg> { if o.Received? then o.completed else [] }

  /** The messages that the parser completed since the connection was opened, read off the deeds. */
  function CompletedIn(ds: seq<Deed>): seq<Msg> {
    if ds == [] then []
    else
      var before := CompletedIn(ds[..|ds| - 1]);
      match Last(ds)
      case Opens(n) => Outcome(n.recv)
      case Reads(o) => before + Outcome(o)
      case _ => before
  }

  /** The responses that the application gave since the connection was opened, read off the deeds. */
  function AnsweredIn(ds: seq<Deed>): seq<Bytes> {
    if ds == [] then []
    else
      var before := AnsweredIn(ds[..|ds| - 1]);
      match Last(ds)
      case Opens(_) => []
      case Handles(a) => if a.Some? then before + [a.value] else before
      case Answers(response) => before + [response]
      case _ => before
  }

  /** What the automaton has recorded is what the deeds say. */
  lemma {:induction false} Recorded(ds: seq<Deed>)
    requires Replay(ds).Some?
    ensures Replay(ds).value.parsed == CompletedIn(ds) && Replay(ds).value.answered == AnsweredIn(ds)
    decreases |ds|
  {
    var before := ds[..|ds| - 1];
    if Replay(before).Some? {
      Recorded(before);
    }
  }

  /** The history of a live connection records what was done: messages as the parser completed them, responses as the application gave them. */
  lemma {:induction false} HistoryIsTrue(ws: seq<State>, ls: seq<Label>, i: nat, id: Id)
    requires IsRun(ws, ls) && i < |ws| && id in ws[i].live
    ensures Parsed(ws[i].live[id].log) == CompletedIn(Deeds(ws, ls, i, id))
    ensures Responses(ws[i].live[id].log) == AnsweredIn(Deeds(ws, ls, i, id))
  {
    hide PhaseOf, Replay, CompletedIn, AnsweredIn, Inv, Enabled, Apply;
    Refinement(ws, ls, i, id);
    Recorded(Deeds(ws, ls, i, id));
  }
}
