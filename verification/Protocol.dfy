/**
 * The global invariant of the asynchronous server: the connection protocol is half-duplex, and every
 * live connection owns at most one queued functor.  It is preserved by every step, and from it follow
 * the theorems over whole runs in AsyncTheorems.dfy.
 */
module Protocol {
  import opened Common
  import opened AsyncTypes
  import opened ConnectionSteps
  import opened ReactorMachine
  import opened History

  datatype Phase =
    | ReaderPosted | WaitRead | RequestPosted | Processing
    | WriterPosted | WaitWrite | WriteCompletePosted | Closing

  /** The phase a connection is in, if its fields and its history agree on one. */
  function PhaseOf(l: Live): Option<Phase> {
    var c, stage := l.conn, StageOf(l.log);
    if stage.None? || c.inputMessage.Some? then None
    else if c.readState == ReadStop && c.writeState == WriteStop && !c.readsidePosted then
      if stage.value.Reading? || stage.value.Writing? then Some(Closing) else None
    else match stage.value
      case Reading =>
        if c.writeState != WriteIdle || c.output.Some? then None
        else if c.readState == ReadActive && c.readsidePosted then Some(ReaderPosted)
        else if c.readState == ReadEagained && !c.readsidePosted then Some(WaitRead)
        else None
      case Pending(m) =>
        if Resting(c) && c.writeState == WriteIdle && c.output.None? && c.scratchRequest == Some(m)
        then Some(RequestPosted) else None
      case Answering =>
        if Resting(c) && c.writeState == WriteIdle && c.output.None? then Some(Processing) else None
      case Writing =>
        if !Resting(c) then None
        else if c.writeState == WriteIdle && c.output.None? then Some(WriteCompletePosted)
        else if c.output.None? || c.output.value == [] then None
        else if c.writeState == WriteActive then Some(WriterPosted)
        else if c.writeState == WriteEagained then Some(WaitWrite)
        else None
  }

  /** Nothing goes on on the read side. */
  predicate Resting(c: Conn) { c.readState == ReadIdle && !c.readsidePosted }

  /** The functor that is in the ready list exactly while a connection is in phase `p`. */
  function QueuedKind(p: Phase): Option<Kind> {
    match p
    case ReaderPosted => Some(ReaderFn)
    case RequestPosted => Some(RequestFn)
    case WriterPosted => Some(WriterFn)
    case WriteCompletePosted => Some(WriteCompleteFn)
    case Closing => Some(CloseFn)
    case WaitRead => None
    case Processing => None
    case WaitWrite => None
  }

  function KindOf(l: Live): Option<Kind> {
    var p := PhaseOf(l);
    if p.Some? then QueuedKind(p.value) else None
  }

  function Unsent(c: Conn): Bytes { if c.output.Some? then c.output.value else [] }

  /** Sent and unsent bytes make up the responses, and the unsent ones belong to the last of them. */
  predicate BytesOk(l: Live) {
    var rs := Responses(l.log);
    && l.sock.sent + Unsent(l.conn) == Flat(rs)
    && (l.conn.output.Some? ==> rs != [] && |l.conn.output.value| <= |rs[|rs| - 1]|)
  }

  predicate LiveOk(l: Live) { PhaseOf(l).Some? && BytesOk(l) }

  function Posts(id: Id, k: Option<Kind>): seq<Functor> {
    if k.Some? then [Functor(k.value, id)] else []
  }

  // ---------------------------------------------------------------- one connection

  /** No assertion failed, and what was posted is exactly the functor of the new phase. */
  predicate EffectOk(id: Id, l: Live, e: Effect) {
    && e.Ok? && e.live.conn.fd == l.conn.fd
    && LiveOk(e.live) && e.posts == Posts(id, KindOf(e.live))
  }

  /** A read that completed no message. */
  predicate Fruitless(o: RecvOutcome) { o.Received? && o.completed == [] }

  /**
   * Every outcome of recv and of the parser leads to exactly one phase: a completed message is handed
   * over; end of input, an error of recv or an error of the parser closes the connection; EAGAIN lets
   * it wait; otherwise it reads on.
   */
  lemma {:induction false} ReaderEffect(id: Id, l: Live, o: RecvOutcome)
    requires RecvLegal(l.sock, o) && BytesOk(l) && StageOf(l.log) == Some(Reading)
    requires l.conn.readState == ReadActive && !l.conn.readsidePosted && l.conn.inputMessage.None?
    requires l.conn.writeState == WriteIdle && l.conn.output.None?
    ensures EffectOk(id, l, Reader(id, l, o))
    ensures var p := PhaseOf(Reader(id, l, o).live);
      && (p == Some(RequestPosted) <==> o.Received? && o.completed != [])
      && (p == Some(Closing) <==> o.PeerClosed? || o.RecvError? || (Fruitless(o) && !o.errnoEagain && !o.parserOk))
      && (p == Some(WaitRead) <==> o.RecvEagain? || (Fruitless(o) && o.errnoEagain))
      && (p == Some(ReaderPosted) <==> Fruitless(o) && !o.errnoEagain && o.parserOk)
  {
    if o.Received? {
      var l1 := AfterRecv(l, o);
      assert Responses(l1.log) == Responses(l.log);
      assert StageOf(l1.log) == Next(Reading, Recv(o.completed));
    }
  }

  lemma {:induction false} WriteEffect(id: Id, l: Live, response: Bytes)
    requires LiveOk(l) && PhaseOf(l) == Some(Processing) && response != []
    ensures EffectOk(id, l, ConnectionWrite(id, l, response))
    ensures var k := ConnectionWrite(id, l, response).live;
      PhaseOf(k) == Some(WriterPosted) && Unsent(k.conn) == response && k.sock == l.sock
  {
    hide Flat;
    var rs, log := Responses(l.log), Snoc(l.log, Respond(response));
    FlatSnoc(rs, response);
    assert Responses(log) == rs + [response] && StageOf(log) == Some(Writing);
    assert l.sock.sent == l.sock.sent + Unsent(l.conn);
  }

  lemma {:induction false} RequestEffect(id: Id, l: Live, answer: Option<Bytes>)
    requires LiveOk(l) && PhaseOf(l) == Some(RequestPosted) && (answer.Some? ==> answer.value != [])
    ensures EffectOk(id, l, PostableHandleRequest(id, l, answer))
    ensures var k := PostableHandleRequest(id, l, answer).live;
      && PhaseOf(k) == Some(if answer.Some? then WriterPosted else Processing)
      && Unsent(k.conn) == (if answer.Some? then answer.value else []) && k.sock == l.sock
  {
    hide Flat;
    var l1 := l.(conn := l.conn.(scratchRequest := None), log := Snoc(l.log, Handle(l.conn.scratchRequest.value)));
    assert Responses(l1.log) == Responses(l.log);
    assert LiveOk(l1) && PhaseOf(l1) == Some(Processing);
    hide ConnectionWrite, LiveOk;
    if answer.Some? {
      WriteEffect(id, l1, answer.value);
    }
  }

  lemma {:induction false} WriterEffect(id: Id, l: Live, o: SendOutcome)
    requires LiveOk(l) && PhaseOf(l) == Some(WriterPosted) && SendLegal(l.sock, OutputLength(l.conn), o)
    ensures EffectOk(id, l, PostableWriter(id, l, o))
    ensures var p := PhaseOf(PostableWriter(id, l, o).live);
      && (p == Some(WriteCompletePosted) <==> o.Sent? && o.count == |Unsent(l.conn)|)
      && (p == Some(WriterPosted) <==> o.Sent? && o.count < |Unsent(l.conn)|)
      && (p == Some(WaitWrite) <==> o.SendEagain?)
      && (p == Some(Closing) <==> o.SentZero? || o.SendError?)
  {
    if o.Sent? {
      var out := l.conn.output.value;
      assert out == out[..o.count] + out[o.count..];
      assert l.sock.sent + out == (l.sock.sent + out[..o.count]) + out[o.count..];
    }
  }

  lemma {:induction false} WriteCompleteEffect(id: Id, l: Live, o: RecvOutcome)
    requires LiveOk(l) && PhaseOf(l) == Some(WriteCompletePosted) && RecvLegal(l.sock, o)
    ensures EffectOk(id, l, PostableWriteComplete(id, l, o))
  {
    var l1 := l.(log := Snoc(l.log, Done), conn := l.conn.(readState := ReadActive));
    assert Responses(l1.log) == Responses(l.log);
    ReaderEffect(id, l1, o);
  }

  /** Whatever the kernel and the application do, the functor of the current phase runs cleanly. */
  lemma {:induction false} FunctorOk(f: Functor, l: Live, recv: RecvOutcome, send: SendOutcome, answer: Option<Bytes>)
    requires LiveOk(l) && FunctorLegal(l, recv, send, answer)
    requires KindOf(l) == Some(f.kind) && f.kind != CloseFn
    ensures EffectOk(f.target, l, FunctorEffect(f, l, recv, send, answer))
  {
    hide Flat;
    match f.kind {
      case ReaderFn =>
        ReaderEffect(f.target, l.(conn := l.conn.(readsidePosted := false)), recv);
      case RequestFn =>
        RequestEffect(f.target, l, answer);
      case WriterFn => WriterEffect(f.target, l, send);
      case WriteCompleteFn => WriteCompleteEffect(f.target, l, recv);
    }
  }

  /** An event wakes a connection that waits for it; any other event changes nothing. */
  lemma {:induction false} EventOk(id: Id, l: Live, pollIn: bool, pollOut: bool)
    requires LiveOk(l)
    ensures var e := EventHandler(id, l, pollIn, pollOut);
      if PhaseOf(l) == Some(WaitRead) && pollIn then
        KindOf(l).None? && EffectOk(id, l, e) && PhaseOf(e.live) == Some(ReaderPosted)
      else if PhaseOf(l) == Some(WaitWrite) && pollOut then
        KindOf(l).None? && EffectOk(id, l, e) && PhaseOf(e.live) == Some(WriterPosted)
      else e == Ok(l, [])
  {
    hide Flat, StageOf;
  }

  // ---------------------------------------------------------------- the whole server

  /** The descriptor table, the epoll set and the live connections describe one bijection. */
  ghost predicate Registered(w: State)
  {
    && w.epoll == w.table.Keys
    && (forall fd :: fd in w.table ==> fd < FDTABLE_MAX)
    && (forall fd :: fd in w.table && w.table[fd].Stream? ==> w.table[fd].id in w.live && w.live[w.table[fd].id].conn.fd == fd)
    && (forall id :: id in w.live ==> id < w.nextId && w.live[id].conn.fd in w.table && w.table[w.live[id].conn.fd] == Stream(id))
  }

  predicate NoDuplicates(s: seq<Id>) { forall i, j :: 0 <= i < j < |s| ==> s[i] != s[j] }

  ghost predicate HandlersOk(w: State)
  {
    NoDuplicates(w.handlers) && forall id :: id in w.handlers <==> id in w.live
  }

  predicate DistinctTargets(fs: seq<Functor>) {
    forall i, j :: 0 <= i < j < |fs| ==> fs[i].target != fs[j].target
  }

  /** The functor each live connection should have in the ready list. */
  function Kinds(live: map<Id, Live>): map<Id, Option<Kind>> {
    map id | id in live :: KindOf(live[id])
  }

  /** Every queued functor is one that its live target calls for. */
  ghost predicate QueueSound(ready: seq<Functor>, kinds: map<Id, Option<Kind>>) {
    DistinctTargets(ready) && forall f :: f in ready ==> f.target in kinds && kinds[f.target] == Some(f.kind)
  }

  /** Every functor that a live connection calls for is queued. */
  ghost predicate QueueComplete(ready: seq<Functor>, kinds: map<Id, Option<Kind>>) {
    forall id :: id in kinds && kinds[id].Some? ==> Functor(kinds[id].value, id) in ready
  }

  /** Each connection is in a phase, and the ready list holds exactly the functors of those phases. */
  ghost predicate Scheduled(w: State)
  {
    && (forall id :: id in w.live ==> LiveOk(w.live[id]))
    && QueueSound(w.ready, Kinds(w.live)) && QueueComplete(w.ready, Kinds(w.live))
  }

  lemma {:induction false} PopQueue(ready: seq<Functor>, kinds: map<Id, Option<Kind>>)
    requires QueueSound(ready, kinds) && QueueComplete(ready, kinds) && ready != []
    ensures var f := ready[0];
      && f.target in kinds && kinds[f.target] == Some(f.kind)
      && QueueSound(ready[1..], kinds[f.target := None]) && QueueComplete(ready[1..], kinds[f.target := None])
  {
    assert ready[0] in ready && forall g :: g in ready <==> g == ready[0] || g in ready[1..];
  }

  lemma {:induction false} DropQueue(ready: seq<Functor>, kinds: map<Id, Option<Kind>>, id: Id)
    requires QueueSound(ready, kinds) && QueueComplete(ready, kinds) && id in kinds && kinds[id].None?
    ensures QueueSound(ready, kinds - {id}) && QueueComplete(ready, kinds - {id})
  {
  }

  lemma {:induction false} PostQueue(ready: seq<Functor>, kinds: map<Id, Option<Kind>>, id: Id, k: Option<Kind>)
    requires QueueSound(ready, kinds) && QueueComplete(ready, kinds) && (id in kinds ==> kinds[id].None?)
    ensures var ready' := ready + Posts(id, k);
      QueueSound(ready', kinds[id := k]) && QueueComplete(ready', kinds[id := k])
  {
  }

  ghost predicate ControlOk(w: State)
  {
    match w.pc
    case AtWait => w.ready == []
    case InBatch(events) => forall e :: e in events ==> e.fd in w.table
    case InDrain => true
  }

  ghost predicate Inv(w: State) {
    Registered(w) && HandlersOk(w) && Scheduled(w) && ControlOk(w)
  }

  ghost predicate Good(r: World) { r.Running? && Inv(r.state) }

  lemma {:induction false} Pigeonhole(s: seq<nat>, n: nat)
    requires forall i :: 0 <= i < |s| ==> s[i] < n
    requires forall i, j :: 0 <= i < j < |s| ==> s[i] != s[j]
    ensures |s| <= n
    decreases n
  {
    if s == [] { return; }
    assert s[0] < n;
    if k :| 0 <= k < |s| && s[k] == n - 1 {
      Pigeonhole(s[..k] + s[k + 1..], n - 1);
    } else {
      Pigeonhole(s, n - 1);
    }
  }

  /** Distinct owners have distinct descriptors, and there are only FDTABLE_MAX of those. */
  lemma {:induction false} ReadyBound(w: State)
    requires Registered(w) && DistinctTargets(w.ready)
    requires forall f :: f in w.ready ==> f.target in w.live
    ensures |w.ready| <= FDTABLE_MAX
  {
    var fds := seq(|w.ready|, i requires 0 <= i < |w.ready| => w.live[w.ready[i].target].conn.fd);
    forall i, j | 0 <= i < j < |fds| ensures fds[i] != fds[j] {
      assert w.table[fds[i]] == Stream(w.ready[i].target);
      assert w.table[fds[j]] == Stream(w.ready[j].target);
    }
    Pigeonhole(fds, FDTABLE_MAX);
  }

  lemma {:induction false} RegisteredInstall(w: State, id: Id, l: Live, ready: seq<Functor>)
    requires Registered(w) && id in w.live && l.conn.fd == w.live[id].conn.fd
    ensures Registered(w.(live := w.live[id := l], ready := ready))
  {
  }

  /**
   * Replacing connection `id`, which has no functor queued, by the result of a clean step keeps the
   * schedule.  `kinds` is the schedule without it.
   */
  lemma {:induction false} InstallOk(w: State, id: Id, e: Effect, kinds: map<Id, Option<Kind>>)
    requires id in w.live && Registered(w)
    requires forall i :: i in w.live && i != id ==> LiveOk(w.live[i])
    requires kinds.Keys == w.live.Keys && kinds[id].None?
    requires forall i :: i in w.live && i != id ==> kinds[i] == KindOf(w.live[i])
    requires QueueSound(w.ready, kinds) && QueueComplete(w.ready, kinds)
    requires EffectOk(id, w.live[id], e)
    ensures var v := w.(live := w.live[id := e.live], ready := w.ready + e.posts);
      Install(w, id, e) == Running(v) && Registered(v) && Scheduled(v)
  {
    hide LiveOk, KindOf;
    var v := w.(live := w.live[id := e.live], ready := w.ready + e.posts);
    RegisteredInstall(w, id, e.live, v.ready);
    PostQueue(w.ready, kinds, id, KindOf(e.live));
    assert Kinds(v.live) == kinds[id := KindOf(e.live)];
    ReadyBound(v);
  }

  /** The same at any point of the run loop but the wait. */
  lemma {:induction false} InstallGood(w: State, id: Id, e: Effect, kinds: map<Id, Option<Kind>>)
    requires id in w.live && Registered(w) && HandlersOk(w) && ControlOk(w) && w.pc != AtWait
    requires forall i :: i in w.live && i != id ==> LiveOk(w.live[i])
    requires kinds.Keys == w.live.Keys && kinds[id].None?
    requires forall i :: i in w.live && i != id ==> kinds[i] == KindOf(w.live[i])
    requires QueueSound(w.ready, kinds) && QueueComplete(w.ready, kinds)
    requires EffectOk(id, w.live[id], e)
    ensures Good(Install(w, id, e))
  {
    InstallOk(w, id, e, kinds);
    hide LiveOk, Scheduled, Registered, QueueSound, QueueComplete;
    assert HandlersOk(Install(w, id, e).state);
  }

  lemma {:induction false} RemoveFirstOk(s: seq<Id>, x: Id)
    requires NoDuplicates(s) && x in s
    ensures NoDuplicates(RemoveFirst(s, x))
    ensures forall y :: y in RemoveFirst(s, x) <==> y in s && y != x
  {
    if s[0] != x {
      assert x in s[1..];
      RemoveFirstOk(s[1..], x);
      assert forall y :: y in s <==> y == s[0] || y in s[1..];
      assert s[0] !in s[1..];
      assert s[0] !in RemoveFirst(s[1..], x);
    } else {
      assert forall y :: y in s <==> y == s[0] || y in s[1..];
    }
  }

  lemma {:induction false} RegisteredClose(w: State, id: Id)
    requires Registered(w) && id in w.live && id in w.handlers
    ensures Close(w, id).Running? && Registered(Close(w, id).state)
  {
  }

  lemma {:induction false} HandlersClose(w: State, id: Id)
    requires HandlersOk(w) && id in w.live && w.live[id].conn.fd in w.table
    ensures Close(w, id).Running? && HandlersOk(Close(w, id).state)
  {
    RemoveFirstOk(w.handlers, id);
  }

  lemma {:induction false} ScheduledClose(w: State, id: Id, kinds: map<Id, Option<Kind>>)
    requires id in w.live && forall i :: i in w.live ==> LiveOk(w.live[i])
    requires kinds == Kinds(w.live)[id := None] && QueueSound(w.ready, kinds) && QueueComplete(w.ready, kinds)
    ensures Scheduled(w.(live := w.live - {id}))
  {
    hide LiveOk, KindOf;
    DropQueue(w.ready, kinds, id);
    assert Kinds(w.live - {id}) == kinds - {id};
  }

  /** Scheduled depends on two components of the state only. */
  lemma {:induction false} ScheduledFrame(w: State, v: State)
    requires Scheduled(w) && v.live == w.live && v.ready == w.ready
    ensures Scheduled(v)
  {
  }

  lemma {:induction false} CloseOk(w: State, id: Id, kinds: map<Id, Option<Kind>>)
    requires id in w.live && Registered(w) && HandlersOk(w) && w.pc == InDrain
    requires forall i :: i in w.live ==> LiveOk(w.live[i])
    requires kinds == Kinds(w.live)[id := None] && QueueSound(w.ready, kinds) && QueueComplete(w.ready, kinds)
    ensures Good(Close(w, id))
  {
    RegisteredClose(w, id);
    HandlersClose(w, id);
    ScheduledClose(w, id, kinds);
    hide Scheduled, LiveOk, QueueSound, QueueComplete;
    ScheduledFrame(w.(live := w.live - {id}), Close(w, id).state);
  }

  lemma {:induction false} RegisteredAccept(w: State, fd: Fd, l: Live)
    requires Registered(w) && fd !in w.epoll && fd < FDTABLE_MAX && l.conn.fd == fd
    ensures Registered(w.(nextId := w.nextId + 1, table := w.table[fd := Stream(w.nextId)], epoll := w.epoll + {fd},
                          live := w.live[w.nextId := l]))
  {
  }

  lemma {:induction false} HandlersAccept(w: State, v: State)
    requires Registered(w) && HandlersOk(w)
    requires v.handlers == w.handlers + [w.nextId] && v.live.Keys == w.live.Keys + {w.nextId}
    ensures HandlersOk(v)
  {
    assert forall i :: i in v.handlers <==> i in w.handlers || i == w.nextId;
  }

  lemma {:induction false} FirstReadEffect(id: Id, l: Live, o: RecvOutcome)
    requires l == NewConnection(l.conn.fd, l.sock, l.conn.scratchRequest) && l.sock.sent == [] && RecvLegal(l.sock, o)
    ensures EffectOk(id, l, ConnectionRead(id, l, o))
  {
    ReaderEffect(id, l.(conn := l.conn.(readState := ReadActive)), o);
  }

  lemma {:induction false} AcceptInstalls(w: State, n: NewConn, e: Effect)
    requires Registered(w) && Scheduled(w) && n.fd !in w.epoll && n.fd < FDTABLE_MAX && w.nextId !in w.live
    requires EffectOk(w.nextId, NewConnection(n.fd, n.sock, n.garbage), e)
    ensures var v := Allocated(w, n).(live := w.live[w.nextId := e.live], ready := w.ready + e.posts);
      Install(Allocated(w, n), w.nextId, e) == Running(v) && Registered(v) && Scheduled(v)
  {
    hide LiveOk, KindOf, Install, Registered, QueueSound, QueueComplete, NewConnection;
    var id, l := w.nextId, NewConnection(n.fd, n.sock, n.garbage);
    assert l.conn.fd == n.fd by { NewFd(n); }
    RegisteredAccept(w, n.fd, l);
    FreshKind(w.ready, Kinds(w.live), id);
    InstallOk(Allocated(w, n), id, e, Kinds(w.live)[id := None]);
    assert w.live[id := l][id := e.live] == w.live[id := e.live];
  }

  lemma {:induction false} NewFd(n: NewConn)
    ensures NewConnection(n.fd, n.sock, n.garbage).conn.fd == n.fd
  {
  }

  lemma {:induction false} FreshKind(ready: seq<Functor>, kinds: map<Id, Option<Kind>>, id: Id)
    requires QueueSound(ready, kinds) && QueueComplete(ready, kinds) && id !in kinds
    ensures QueueSound(ready, kinds[id := None]) && QueueComplete(ready, kinds[id := None])
  {
  }

  lemma {:induction false} AcceptOk(w: State, n: NewConn)
    requires Inv(w) && AcceptLegal(w.epoll, n) && w.pc != AtWait
    ensures Good(Accept(w, n))
  {
    hide Scheduled, ConnectionRead, Install, LiveOk, EffectOk, RecvLegal;
    var id, l := w.nextId, NewConnection(n.fd, n.sock, n.garbage);
    FirstReadEffect(id, l, n.recv);
    AcceptInstalls(w, n, ConnectionRead(id, l, n.recv));
    var v := Install(Allocated(w, n), id, ConnectionRead(id, l, n.recv)).state;
    var v1 := v.(handlers := w.handlers + [id]);
    HandlersAccept(w, v1);
    ScheduledFrame(v, v1);
  }

  /** Only the kernel's side of a connection differs, and not the bytes it has taken. */
  predicate KernelOnly(l: Live, k: Live) {
    k == l.(sock := k.sock) && k.sock.sent == l.sock.sent
  }

  lemma {:induction false} KernelOnlyLive(l: Live, k: Live)
    requires LiveOk(l) && KernelOnly(l, k)
    ensures LiveOk(k) && PhaseOf(k) == PhaseOf(l) && KindOf(k) == KindOf(l)
  {
  }

  /** A step that changes nothing but sockets is harmless. */
  lemma {:induction false} KernelStepOk(w: State, v: State)
    requires Inv(w) && v == w.(live := v.live, pc := v.pc) && ControlOk(v)
    requires v.live.Keys == w.live.Keys
    requires forall i :: i in w.live ==> KernelOnly(w.live[i], v.live[i])
    ensures Inv(v)
  {
    hide LiveOk, KindOf, QueueSound, QueueComplete;
    forall i | i in w.live
      ensures LiveOk(v.live[i]) && KindOf(v.live[i]) == KindOf(w.live[i])
    {
      KernelOnlyLive(w.live[i], v.live[i]);
    }
    assert Kinds(v.live) == Kinds(w.live);
  }

  lemma {:induction false} InstallNothing(w: State, id: Id)
    requires Registered(w) && Scheduled(w) && id in w.live
    ensures Install(w, id, Ok(w.live[id], [])) == Running(w)
  {
    hide LiveOk, KindOf;
    ReadyBound(w);
    assert w.live[id := w.live[id]] == w.live;
    assert w.ready + [] == w.ready;
  }

  lemma {:induction false} DispatchOk(w: State, accepted: Option<NewConn>)
    requires Inv(w) && Enabled(w, Dispatch(accepted))
    ensures Good(Apply(w, Dispatch(accepted)))
  {
    hide LiveOk, KindOf, Accept, Install, EventHandler;
    var e := w.pc.events[0];
    assert e.fd in w.table;
    var w1 := w.(pc := InBatch(w.pc.events[1..]));
    assert Inv(w1);
    match w.table[e.fd]
    case Listener =>
      if accepted.Some? { AcceptOk(w1, accepted.value); }
    case Stream(id) =>
      var l := w.live[id];
      EventOk(id, l, e.pollIn, e.pollOut);
      var eff := EventHandler(id, l, e.pollIn, e.pollOut);
      if eff == Ok(l, []) {
        InstallNothing(w1, id);
      } else {
        InstallGood(w1, id, eff, Kinds(w.live));
      }
  }

  lemma {:induction false} RunFunctorOk(w: State, recv: RecvOutcome, send: SendOutcome, answer: Option<Bytes>)
    requires Inv(w) && Enabled(w, RunFunctor(recv, send, answer))
    ensures Good(Apply(w, RunFunctor(recv, send, answer)))
  {
    hide PhaseOf, BytesOk, FunctorEffect, Close, Install;
    PopQueue(w.ready, Kinds(w.live));
    var f, w1 := w.ready[0], w.(ready := w.ready[1..]);
    var kinds := Kinds(w.live)[f.target := None];
    if f.kind == CloseFn {
      CloseOk(w1, f.target, kinds);
    } else {
      FunctorOk(f, w.live[f.target], recv, send, answer);
      InstallGood(w1, f.target, FunctorEffect(f, w.live[f.target], recv, send, answer), kinds);
    }
  }

  lemma {:induction false} OwedProcessing(l: Live)
    requires LiveOk(l) && Owed(l)
    ensures PhaseOf(l) == Some(Processing)
  {
  }

  lemma {:induction false} ProcessingIdle(l: Live)
    requires PhaseOf(l) == Some(Processing)
    ensures KindOf(l) == None
  {
  }

  lemma {:induction false} LateAnswerOk(w: State, id: Id, response: Bytes)
    requires Inv(w) && Enabled(w, LateAnswer(id, response))
    ensures Good(Apply(w, LateAnswer(id, response)))
  {
    hide LiveOk, KindOf, PhaseOf, ConnectionWrite, Install, Owed;
    var l := w.live[id];
    OwedProcessing(l);
    assert KindOf(l) == None by { ProcessingIdle(l); }
    WriteEffect(id, l, response);
    InstallGood(w, id, ConnectionWrite(id, l, response), Kinds(w.live));
  }

  /** Every step of the program, the kernel and the application keeps the invariant. */
  lemma {:induction false} StepOk(w: State, lb: Label)
    requires Inv(w) && Enabled(w, lb)
    ensures Good(Apply(w, lb))
  {
    hide LiveOk, Kinds, DispatchEvent, Install, Close, FunctorEffect, ConnectionWrite;
    match lb {
      case EpollWait(events) => KernelStepOk(w, Apply(w, lb).state);
      case Dispatch(accepted) => DispatchOk(w, accepted);
      case BatchDone =>
      case RunFunctor(recv, send, answer) => RunFunctorOk(w, recv, send, answer);
      case DrainDone =>
      case LateAnswer(id, response) => LateAnswerOk(w, id, response);
      case BytesArrive(_, _, _) => KernelStepOk(w, Apply(w, lb).state);
      case PeerCloses(_) => KernelStepOk(w, Apply(w, lb).state);
      case SpaceFreed(_, _, _) => KernelStepOk(w, Apply(w, lb).state);
    }
  }

  lemma {:induction false} RunOk(ws: seq<State>, ls: seq<Label>, i: nat)
    requires IsRun(ws, ls) && i < |ws|
    ensures Inv(ws[i])
  {
    if i > 0 {
      RunOk(ws, ls, i - 1);
      StepOk(ws[i - 1], ls[i - 1]);
    }
  }
}
