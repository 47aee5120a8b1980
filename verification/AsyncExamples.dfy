/**
 * Complete runs of the asynchronous server, from start-up, that show where three laws of its design
 * stop holding: a wake-up lost to a stale errno, a message lost in the single input slot, and a drain
 * loop that never ends because input never stops arriving.
 */
module AsyncExamples {
  import opened Common
  import opened AsyncTypes
  import opened ConnectionSteps
  import opened ReactorMachine
  import opened History
  import opened Wakeups
  import opened Drain

  const LISTEN_EVENT := Event(3, true, false)
  const BOTH_EVENT := Event(5, true, true)

  /** A server that listens on descriptor 3. */
  function Listening(pc: Pc): State {
    State(map[], map[3 := Listener], {3}, [], [], pc, 0)
  }

  /** The same server with one connection, on descriptor 5. */
  function Server(l: Live, ready: seq<Functor>, pc: Pc): State {
    State(map[0 := l], map[3 := Listener, 5 := Stream(0)], {3, 5}, [0], ready, pc, 1)
  }

  /** A run goes on by one choice. */
  lemma {:induction false} Extend(ws: seq<State>, ls: seq<Label>, lb: Label, w: State) returns (ws': seq<State>, ls': seq<Label>)
    requires IsRun(ws, ls) && Enabled(ws[|ls|], lb) && Apply(ws[|ls|], lb) == Running(w)
    ensures IsRun(ws', ls') && ls' == ls + [lb] && ws' == ws + [w] && ws'[|ls'|] == w
  {
    hide Apply, Enabled;
    ws', ls' := ws + [w], ls + [lb];
  }

  lemma {:induction false} StartUp()
    ensures IsRun([Listening(AtWait)], [])
  {
  }

  lemma {:induction false} ListenStep(pc: Pc)
    requires pc == InBatch([LISTEN_EVENT])
    ensures Enabled(Listening(AtWait), EpollWait([LISTEN_EVENT]))
    ensures Apply(Listening(AtWait), EpollWait([LISTEN_EVENT])) == Running(Listening(pc))
  {
    assert Apply(Listening(AtWait), EpollWait([LISTEN_EVENT])).state.live == map[];
  }

  /** The server is told that its listening socket is ready. */
  lemma {:induction false} Listen(ws: seq<State>, ls: seq<Label>) returns (ws': seq<State>, ls': seq<Label>)
    requires IsRun(ws, ls) && ws[|ls|] == Listening(AtWait)
    ensures IsRun(ws', ls') && |ls'| == |ls| + 1 && ws'[|ls'|] == Listening(InBatch([LISTEN_EVENT]))
    ensures ws <= ws' && ls <= ls'
  {
    hide Apply, Enabled, IsRun, Listening;
    ListenStep(InBatch([LISTEN_EVENT]));
    ws', ls' := Extend(ws, ls, EpollWait([LISTEN_EVENT]), Listening(InBatch([LISTEN_EVENT])));
  }

  lemma {:induction false} AcceptStep(n: NewConn, l: Live, posts: seq<Functor>)
    requires AcceptLegal({3}, n) && n.fd == 5 && |posts| <= 1
    requires ConnectionRead(0, NewConnection(5, n.sock, n.garbage), n.recv) == Ok(l, posts)
    ensures var w := Listening(InBatch([LISTEN_EVENT]));
      Enabled(w, Dispatch(Some(n))) && Apply(w, Dispatch(Some(n))) == Running(Server(l, posts, InBatch([])))
  {
    hide ConnectionRead, AcceptLegal;
    assert RecvLegal(n.sock, n.recv) by { AcceptRecv(n); }
    var w, w2 := Listening(InBatch([LISTEN_EVENT])), Listening(InBatch([]));
    assert w.pc.events[1..] == [];
    assert Allocated(w2, n).live[0 := l] == map[0 := l];
    assert Allocated(w2, n).table == map[3 := Listener, 5 := Stream(0)] && Allocated(w2, n).epoll == {3, 5};
    assert [] + posts == posts;
  }

  lemma {:induction false} AcceptRecv(n: NewConn)
    requires AcceptLegal({3}, n)
    ensures RecvLegal(n.sock, n.recv)
  {
  }

  /** The run that accepts one connection. */
  lemma {:induction false} Accepted(ws: seq<State>, ls: seq<Label>, n: NewConn, l: Live, posts: seq<Functor>)
    returns (ws': seq<State>, ls': seq<Label>)
    requires IsRun(ws, ls) && ws[|ls|] == Listening(AtWait)
    requires AcceptLegal({3}, n) && n.fd == 5 && |posts| <= 1
    requires ConnectionRead(0, NewConnection(5, n.sock, n.garbage), n.recv) == Ok(l, posts)
    ensures IsRun(ws', ls') && |ls'| == |ls| + 3 && ws'[|ls'|] == Server(l, posts, InDrain)
    ensures ws <= ws' && ls <= ls'
  {
    hide Apply, Enabled, IsRun, Listening, ConnectionRead, AcceptLegal, Server;
    ws', ls' := Listen(ws, ls);
    AcceptStep(n, l, posts);
    ws', ls' := Extend(ws', ls', Dispatch(Some(n)), Server(l, posts, InBatch([])));
    EndBatch(l, posts);
    ws', ls' := Extend(ws', ls', BatchDone, Server(l, posts, InDrain));
  }

  lemma {:induction false} EndBatch(l: Live, ready: seq<Functor>)
    ensures var w := Server(l, ready, InBatch([]));
      Enabled(w, BatchDone) && Apply(w, BatchDone) == Running(Server(l, ready, InDrain))
  {
  }

  lemma {:induction false} EndDrain(l: Live)
    ensures Enabled(Server(l, [], InDrain), DrainDone) && Apply(Server(l, [], InDrain), DrainDone) == Running(Server(l, [], AtWait))
  {
  }

  lemma {:induction false} Parts(l: Live, ready: seq<Functor>, pc: Pc)
    ensures var w := Server(l, ready, pc);
      w.pc == pc && w.ready == ready && 0 in w.live && w.live[0] == l
  {
  }

  // ---------------------------------------------------------------- a stale errno

  function WaitingOn(s: Socket, log: Log): Live {
    Live(Conn(5, ReadEagained, WriteIdle, false, None, None, None), s, log)
  }

  function Posted(s: Socket, log: Log): Live {
    Live(Conn(5, ReadActive, WriteIdle, true, None, None, None), s, log)
  }

  /** accept() answers EAGAIN, and errno keeps that value. */
  lemma {:induction false} AcceptEagain() returns (ws: seq<State>, ls: seq<Label>)
    ensures IsRun(ws, ls) && ws[|ls|] == Listening(AtWait)
    ensures |ls| > 1 && ws[1] == Listening(InBatch([LISTEN_EVENT])) && ls[1] == Dispatch(None)
  {
    hide Apply, Enabled, IsRun, Listening;
    StartUp();
    ws, ls := Listen([Listening(AtWait)], []);
    NothingAccepted();
    ws, ls := Extend(ws, ls, Dispatch(None), Listening(InBatch([])));
    ws, ls := Extend(ws, ls, BatchDone, Listening(InDrain));
    ws, ls := Extend(ws, ls, DrainDone, Listening(AtWait));
  }

  lemma {:induction false} NothingAccepted()
    ensures var w := Listening(InBatch([LISTEN_EVENT]));
      Enabled(w, Dispatch(None)) && Apply(w, Dispatch(None)) == Running(Listening(InBatch([])))
    ensures Enabled(Listening(InBatch([])), BatchDone) && Apply(Listening(InBatch([])), BatchDone) == Running(Listening(InDrain))
    ensures Enabled(Listening(InDrain), DrainDone) && Apply(Listening(InDrain), DrainDone) == Running(Listening(AtWait))
  {
    assert [LISTEN_EVENT][1..] == [];
  }

  /** A peer that has sent `size` bytes. */
  function Burst(size: nat): Socket { Socket(seq(size, _ => 0), false, 1, true, true, []) }

  lemma {:induction false} WakeStep(s: Socket, log: Log)
    requires s.inEdge
    ensures var quiet := s.(inEdge := false, outEdge := false);
      var w, w1 := Server(WaitingOn(s, log), [], AtWait), Server(WaitingOn(quiet, log), [], InBatch([BOTH_EVENT]));
      && Enabled(w, EpollWait([BOTH_EVENT])) && Apply(w, EpollWait([BOTH_EVENT])) == Running(w1)
      && Enabled(w1, Dispatch(None)) && Apply(w1, Dispatch(None)) == Running(Server(Posted(quiet, log), [Functor(ReaderFn, 0)], InBatch([])))
  {
    var quiet := s.(inEdge := false, outEdge := false);
    var w := Server(WaitingOn(s, log), [], AtWait);
    assert [BOTH_EVENT][0].fd == 5;
    assert Apply(w, EpollWait([BOTH_EVENT])).state.live == map[0 := WaitingOn(quiet, log)];
    assert [BOTH_EVENT][1..] == [];
  }

  lemma {:induction false} StaleRead(s: Socket, log: Log, stale: RecvOutcome)
    requires |s.unread| > READ_BUFFER_SIZE && !s.inEdge && stale == Received(READ_BUFFER_SIZE, [], true, true)
    ensures var w := Server(Posted(s, log), [Functor(ReaderFn, 0)], InDrain);
      var v := Server(WaitingOn(s.(unread := s.unread[READ_BUFFER_SIZE..]), Snoc(log, Recv([]))), [], InDrain);
      Enabled(w, RunFunctor(stale, SentZero, None)) && Apply(w, RunFunctor(stale, SentZero, None)) == Running(v)
      && !NoneAsleep(v)
  {
    var v := Server(WaitingOn(s.(unread := s.unread[READ_BUFFER_SIZE..]), Snoc(log, Recv([]))), [], InDrain);
    assert !Awake(v.live[0], false, false);
  }

  lemma {:induction false} StaleAccept(burst: Socket, stale: RecvOutcome)
    requires Armed(burst) && |burst.unread| > READ_BUFFER_SIZE && stale == Received(READ_BUFFER_SIZE, [], true, true)
    ensures AcceptLegal({3}, NewConn(5, burst, None, stale))
    ensures ConnectionRead(0, NewConnection(5, burst, None), stale)
         == Ok(WaitingOn(burst.(unread := burst.unread[READ_BUFFER_SIZE..]), Snoc(Start, Recv([]))), [])
  {
  }

  /**
   * accept() once answers EAGAIN, which is what errno then holds: calls that succeed leave it alone.
   * Later a peer sends more than two read buffers at once.  The first read is repaired by the edge of
   * arming the socket, the second one is not: the connection waits for input although half a million
   * bytes are there and no edge is pending.
   */
  lemma {:induction false} StaleErrnoExample() returns (ws: seq<State>, ls: seq<Label>)
    ensures IsRun(ws, ls) && !NoneAsleep(ws[|ls|]) && ws[|ls|].pc == InDrain && ws[|ls|].ready == []
    ensures |ls| > 1 && ws[1] == Listening(InBatch([LISTEN_EVENT])) && ls[1] == Dispatch(None)
  {
    hide Apply, Enabled, NoneAsleep, IsRun, Server, WaitingOn, Posted, Listening, ConnectionRead, AcceptLegal;
    var stale := Received(READ_BUFFER_SIZE, [], true, true);
    var burst := Burst(2_500_000);
    var rest := burst.(unread := burst.unread[READ_BUFFER_SIZE..]);
    var quiet := rest.(inEdge := false, outEdge := false);
    var log1 := Snoc(Start, Recv([]));
    var last := WaitingOn(quiet.(unread := quiet.unread[READ_BUFFER_SIZE..]), Snoc(log1, Recv([])));
    StaleAccept(burst, stale);
    WakeStep(rest, log1);
    StaleRead(quiet, log1, stale);
    EndDrain(WaitingOn(rest, log1));
    EndBatch(Posted(quiet, log1), [Functor(ReaderFn, 0)]);
    Parts(last, [], InDrain);
    ws, ls := AcceptEagain();
    RunLength(ws, ls);
    ws, ls := Accepted(ws, ls, NewConn(5, burst, None, stale), WaitingOn(rest, log1), []);
    assert ws[1] == Listening(InBatch([LISTEN_EVENT])) && ls[1] == Dispatch(None);
    RunLength(ws, ls);
    ws, ls := Extend(ws, ls, DrainDone, Server(WaitingOn(rest, log1), [], AtWait));
    ws, ls := Extend(ws, ls, EpollWait([BOTH_EVENT]), Server(WaitingOn(quiet, log1), [], InBatch([BOTH_EVENT])));
    ws, ls := Extend(ws, ls, Dispatch(None), Server(Posted(quiet, log1), [Functor(ReaderFn, 0)], InBatch([])));
    ws, ls := Extend(ws, ls, BatchDone, Server(Posted(quiet, log1), [Functor(ReaderFn, 0)], InDrain));
    ws, ls := Extend(ws, ls, RunFunctor(stale, SentZero, None), Server(last, [], InDrain));
  }

  // ---------------------------------------------------------------- an overwritten message

  /** A socket on which two short messages have arrived. */
  const TwoBytes := Socket([1, 2], false, 1, true, true, [])

  const TwoMessages := Received(2, [[1], [2]], true, false)

  /** The connection with the later of the two messages in its slot, and after handing it over. */
  function Holding(s: Socket): Live {
    Live(Conn(5, ReadIdle, WriteIdle, false, None, Some([2]), None), s, Snoc(Start, Recv([[1], [2]])))
  }

  function Handed(s: Socket): Live {
    Live(Conn(5, ReadIdle, WriteIdle, false, None, None, None), s, Snoc(Snoc(Start, Recv([[1], [2]])), Handle([2])))
  }

  lemma {:induction false} TwoAtOnce()
    ensures AcceptLegal({3}, NewConn(5, TwoBytes, None, TwoMessages))
    ensures ConnectionRead(0, NewConnection(5, TwoBytes, None), TwoMessages)
         == Ok(Holding(TwoBytes.(unread := [])), [Functor(RequestFn, 0)])
  {
    assert TwoBytes.unread[2..] == [];
  }

  lemma {:induction false} HandStep(s: Socket)
    ensures var w, lb := Server(Holding(s), [Functor(RequestFn, 0)], InDrain), RunFunctor(RecvError, SendError, None);
      Enabled(w, lb) && Apply(w, lb) == Running(Server(Handed(s), [], InDrain))
  {
    var w, lb := Server(Holding(s), [Functor(RequestFn, 0)], InDrain), RunFunctor(RecvError, SendError, None);
    assert w.ready[1..] == [];
    assert PostableHandleRequest(0, w.live[0], None) == Ok(Handed(s), []);
    assert w.live[0 := Handed(s)] == map[0 := Handed(s)];
  }

  lemma {:induction false} OneHandled(s: Socket)
    ensures Parsed(Handed(s).log) == [[1], [2]] && Handled(Handed(s).log) == [[2]] && StageOf(Handed(s).log) == Some(Answering)
  {
    assert Parsed(Snoc(Start, Recv([[1], [2]]))) == [] + [[1], [2]];
    assert Handled(Snoc(Start, Recv([[1], [2]]))) == [] + [];
  }

  /**
   * One recv delivers two complete messages.  The handler is given the second and waits to answer it;
   * the first was parsed, is not handled and is nowhere left to be handled.
   */
  lemma {:induction false} LostMessageExample() returns (ws: seq<State>, ls: seq<Label>)
    ensures IsRun(ws, ls) && 0 in ws[|ls|].live && ws[|ls|].ready == []
    ensures var log := ws[|ls|].live[0].log;
      Parsed(log) == [[1], [2]] && Handled(log) == [[2]] && StageOf(log) == Some(Answering)
  {
    hide Apply, Enabled, IsRun, Server, Holding, Handed, Listening, ConnectionRead, AcceptLegal, StageOf, Parsed, Handled;
    var s := TwoBytes.(unread := []);
    StartUp();
    TwoAtOnce();
    HandStep(s);
    OneHandled(s);
    Parts(Handed(s), [], InDrain);
    ws, ls := Accepted([Listening(AtWait)], [], NewConn(5, TwoBytes, None, TwoMessages), Holding(s), [Functor(RequestFn, 0)]);
    ws, ls := Extend(ws, ls, RunFunctor(RecvError, SendError, None), Server(Handed(s), [], InDrain));
  }

  // ---------------------------------------------------------------- input without end

  const OneByte := Socket([0], false, 1, true, true, [])
  const Incomplete := Received(1, [], true, false)

  /** The log of `n` reads that completed nothing. */
  function Reads(n: nat): Log { if n == 0 then Start else Snoc(Reads(n - 1), Recv([])) }

  function Hungry(n: nat): State {
    Server(Posted(OneByte.(unread := []), Reads(n + 1)), [Functor(ReaderFn, 0)], InDrain)
  }

  /** The same after one more byte has arrived. */
  function Fed(n: nat): State {
    Server(Posted(OneByte, Reads(n + 1)), [Functor(ReaderFn, 0)], InDrain)
  }

  const FirstConnection := NewConn(5, OneByte, None, Incomplete)

  /** Start-up, the first connection, and then a byte before every read. */
  function Endless(j: nat): State {
    if j == 0 then Listening(AtWait)
    else if j == 1 then Listening(InBatch([LISTEN_EVENT]))
    else if j == 2 then Server(Posted(OneByte.(unread := []), Reads(1)), [Functor(ReaderFn, 0)], InBatch([]))
    else if j % 2 == 1 then Hungry((j - 3) / 2) else Fed((j - 3) / 2)
  }

  function EndlessChoice(j: nat): Label {
    if j == 0 then EpollWait([LISTEN_EVENT])
    else if j == 1 then Dispatch(Some(FirstConnection))
    else if j == 2 then BatchDone
    else if j % 2 == 1 then BytesArrive(0, [0], true) else RunFunctor(Incomplete, SentZero, None)
  }

  lemma {:induction false} ByteArrives(n: nat)
    ensures Enabled(Hungry(n), BytesArrive(0, [0], true)) && Apply(Hungry(n), BytesArrive(0, [0], true)) == Running(Fed(n))
    ensures KernelMoves(Hungry(n), Fed(n))
  {
    assert [] + [0] == [0];
    assert Apply(Hungry(n), BytesArrive(0, [0], true)).state.live == Fed(n).live;
  }

  lemma {:induction false} ByteRead(n: nat)
    ensures var lb := RunFunctor(Incomplete, SentZero, None);
      Enabled(Fed(n), lb) && Apply(Fed(n), lb) == Running(Hungry(n + 1))
  {
    var fed, l := Fed(n), Posted(OneByte.(unread := []), Reads(n + 2));
    assert PostableReader(0, fed.live[0], Incomplete) == Ok(l, [Functor(ReaderFn, 0)]);
    assert fed.live[0 := l] == map[0 := l] && fed.ready[1..] == [];
  }

  lemma {:induction false} FirstByte()
    ensures AcceptLegal({3}, FirstConnection)
    ensures ConnectionRead(0, NewConnection(5, OneByte, None), Incomplete)
         == Ok(Posted(OneByte.(unread := []), Reads(1)), [Functor(ReaderFn, 0)])
  {
    assert Reads(1) == Snoc(Reads(0), Recv([]));
  }

  lemma {:induction false} StillDraining(n: nat)
    ensures Hungry(n).pc == Fed(n).pc == InDrain && Hungry(n).ready == Fed(n).ready == [Functor(ReaderFn, 0)]
  {
  }

  lemma {:induction false} HungryAt(n: nat)
    ensures Hungry(n) == Server(Posted(OneByte.(unread := []), Reads(n + 1)), [Functor(ReaderFn, 0)], InDrain)
  {
  }

  lemma {:induction false} EndlessStep(j: nat)
    ensures Enabled(Endless(j), EndlessChoice(j)) && Apply(Endless(j), EndlessChoice(j)) == Running(Endless(j + 1))
  {
    hide Apply, Enabled, Server, Posted, Listening, ConnectionRead, AcceptLegal, Hungry, Fed, Reads;
    var l, post := Posted(OneByte.(unread := []), Reads(1)), [Functor(ReaderFn, 0)];
    if j == 0 {
      ListenStep(InBatch([LISTEN_EVENT]));
    } else if j == 1 {
      FirstByte();
      AcceptStep(FirstConnection, l, post);
    } else if j == 2 {
      EndBatch(l, post);
      HungryAt(0);
    } else if j % 2 == 1 {
      ByteArrives((j - 3) / 2);
    } else {
      ByteRead((j - 3) / 2);
    }
  }

  /** Two steps make one turn of the drain loop. */
  lemma {:induction false} EndlessTurn(n: nat)
    ensures DrainTurn(Hungry(n), Hungry(n + 1))
  {
    hide Apply, Enabled, Hungry, Fed, KernelMoves;
    ByteArrives(n);
    ByteRead(n);
    StillDraining(n);
    assert Takes(Fed(n), RunFunctor(Incomplete, SentZero, None), Hungry(n + 1));
  }

  /**
   * A peer that sends a byte before every read keeps the reactor in its drain loop for ever: an infinite
   * run from start-up drains from its third step on with a functor always queued.  Its turns are as
   * DrainEnds wants them, except that input never stops arriving.
   */
  lemma {:induction false} EndlessDrain() returns (run: nat -> State, choice: nat -> Label, turns: nat -> State)
    ensures Initial(run(0))
    ensures forall j: nat :: Enabled(run(j), choice(j)) && Apply(run(j), choice(j)) == Running(run(j + 1))
    ensures forall j: nat :: 3 <= j ==> run(j).pc == InDrain && run(j).ready != []
    ensures turns(0) == run(3) && forall j: nat :: turns(j) == run(2 * j + 3) && DrainTurn(turns(j), turns(j + 1))
  {
    run, choice, turns := Endless, EndlessChoice, Hungry;
    hide Apply, Enabled, Hungry, Fed, DrainTurn;
    forall j: nat ensures Enabled(Endless(j), EndlessChoice(j)) && Apply(Endless(j), EndlessChoice(j)) == Running(Endless(j + 1)) {
      EndlessStep(j);
    }
    forall j: nat | 3 <= j ensures Endless(j).pc == InDrain && Endless(j).ready != [] {
      StillDraining((j - 3) / 2);
    }
    forall j: nat ensures Hungry(j) == Endless(2 * j + 3) && DrainTurn(Hungry(j), Hungry(j + 1)) {
      EndlessTurn(j);
    }
  }

  lemma {:induction false} RunLength(ws: seq<State>, ls: seq<Label>)
    requires IsRun(ws, ls)
    ensures |ws| == |ls| + 1
  {
  }
}
