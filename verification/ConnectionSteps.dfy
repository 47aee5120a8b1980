/**
 * The functions of connection_read.c, connection_write.c, connection_event.c, connection_api.c and
 * async_handler.c as functions on one connection's value.  An assertion of the source that does not
 * hold makes the result AssertFailed; nothing is assumed about the state a function is called in.
 */
module ConnectionSteps {
  import opened Common
  import opened AsyncTypes

  datatype Effect = Ok(live: Live, posts: seq<Functor>) | AssertFailed

  function AsyncReadStart(id: Id, l: Live): Effect {
    if l.conn.readState == ReadActive && !l.conn.readsidePosted then
      Ok(l.(conn := l.conn.(readsidePosted := true)), [Functor(ReaderFn, id)])
    else AssertFailed
  }

  function PostReadStart(id: Id, l: Live): Effect {
    if !l.conn.readsidePosted then
      Ok(l.(conn := l.conn.(readsidePosted := true)), [Functor(ReaderFn, id)])
    else AssertFailed
  }

  function ReadNewMessage(id: Id, l: Live): Effect {
    if l.conn.readState == ReadActive && l.conn.inputMessage.Some? && !l.conn.readsidePosted then
      Ok(l.(conn := l.conn.(inputMessage := None, readState := ReadIdle, scratchRequest := l.conn.inputMessage)),
         [Functor(RequestFn, id)])
    else AssertFailed
  }

  function ReadEagain(id: Id, l: Live): Effect {
    if l.conn.readState == ReadActive && l.conn.inputMessage.None? && !l.conn.readsidePosted then
      Ok(l.(conn := l.conn.(readState := ReadEagained)), [])
    else AssertFailed
  }

  function ReadNeedData(id: Id, l: Live): Effect {
    if l.conn.readState == ReadActive && l.conn.inputMessage.None? && !l.conn.readsidePosted then
      PostReadStart(id, l)
    else AssertFailed
  }

  function ReadError(id: Id, l: Live): Effect {
    if l.conn.readState == ReadActive && l.conn.inputMessage.None? && !l.conn.readsidePosted then
      Ok(l.(conn := l.conn.(readState := ReadStop, writeState := WriteStop)), [Functor(CloseFn, id)])
    else AssertFailed
  }

  /** Each completed message overwrites the single slot, so the last one of a recv survives. */
  function Slot(current: Option<Msg>, completed: seq<Msg>): Option<Msg> {
    if completed == [] then current else Some(completed[|completed| - 1])
  }

  /** The connection after `count` bytes were taken from the socket and fed to the parser. */
  function AfterRecv(l: Live, o: RecvOutcome): Live
    requires o.Received? && o.count <= |l.sock.unread|
  {
    Live(l.conn.(inputMessage := Slot(l.conn.inputMessage, o.completed)),
         l.sock.(unread := l.sock.unread[o.count..]),
         Snoc(l.log, Recv(o.completed)))
  }

  function Reader(id: Id, l: Live, o: RecvOutcome): Effect
    requires RecvLegal(l.sock, o)
  {
    if l.conn.readState != ReadActive || l.conn.inputMessage.Some? then AssertFailed
    else match o
      case Received(_, _, parserOk, errnoEagain) =>
        var l1 := AfterRecv(l, o);
        if l1.conn.inputMessage.Some? then ReadNewMessage(id, l1)
        else if errnoEagain then ReadEagain(id, l1)
        else if parserOk then ReadNeedData(id, l1)
        else ReadError(id, l1)
      case PeerClosed => ReadError(id, l)
      case RecvEagain => ReadEagain(id, l)
      case RecvError => ReadError(id, l)
  }

  function PostableReader(id: Id, l: Live, o: RecvOutcome): Effect
    requires RecvLegal(l.sock, o)
  {
    if l.conn.readState == ReadActive && l.conn.readsidePosted then
      Reader(id, l.(conn := l.conn.(readsidePosted := false)), o)
    else AssertFailed
  }

  function ConnectionRead(id: Id, l: Live, o: RecvOutcome): Effect
    requires RecvLegal(l.sock, o)
  {
    if l.conn.readState == ReadIdle && l.conn.inputMessage.None? then
      var l1 := l.(conn := l.conn.(readState := ReadActive));
      if !l1.conn.readsidePosted then Reader(id, l1, o) else Ok(l1, [])
    else AssertFailed
  }

  function ConnectionWrite(id: Id, l: Live, response: Bytes): Effect {
    if l.conn.writeState == WriteIdle then
      Ok(l.(conn := l.conn.(output := Some(response), writeState := WriteActive),
            log := Snoc(l.log, Respond(response))),
         [Functor(WriterFn, id)])
    else AssertFailed
  }

  /** postable_handle_request, handle_request and, when the application answers at once, its answer. */
  function PostableHandleRequest(id: Id, l: Live, answer: Option<Bytes>): Effect {
    if l.conn.scratchRequest.Some? then
      var l1 := l.(conn := l.conn.(scratchRequest := None), log := Snoc(l.log, Handle(l.conn.scratchRequest.value)));
      if answer.Some? then ConnectionWrite(id, l1, answer.value) else Ok(l1, [])
    else AssertFailed
  }

  function WriteError(id: Id, l: Live): Effect {
    Ok(l.(conn := l.conn.(readState := ReadStop, writeState := WriteStop)), [Functor(CloseFn, id)])
  }

  function OutputLength(c: Conn): nat { if c.output.Some? then |c.output.value| else 0 }

  function Writer(id: Id, l: Live, o: SendOutcome): Effect
    requires SendLegal(l.sock, OutputLength(l.conn), o)
  {
    if l.conn.output.None? then AssertFailed
    else match o
      case Sent(n) =>
        var rest := l.conn.output.value[n..];
        var sock := l.sock.(sent := l.sock.sent + l.conn.output.value[..n], space := l.sock.space - n);
        if rest == [] then
          Ok(l.(conn := l.conn.(writeState := WriteIdle, output := None), sock := sock), [Functor(WriteCompleteFn, id)])
        else
          Ok(l.(conn := l.conn.(writeState := WriteActive, output := Some(rest)), sock := sock), [Functor(WriterFn, id)])
      case SentZero => WriteError(id, l)
      case SendEagain => Ok(l.(conn := l.conn.(writeState := WriteEagained)), [])
      case SendError => WriteError(id, l)
  }

  function PostableWriter(id: Id, l: Live, o: SendOutcome): Effect
    requires SendLegal(l.sock, OutputLength(l.conn), o)
  {
    if l.conn.output.Some? && l.conn.writeState == WriteActive then Writer(id, l, o) else AssertFailed
  }

  function PostableWriteComplete(id: Id, l: Live, o: RecvOutcome): Effect
    requires RecvLegal(l.sock, o)
  {
    ConnectionRead(id, l.(log := Snoc(l.log, Done)), o)
  }

  function ReadEpollin(id: Id, l: Live): Effect {
    if l.conn.readState == ReadEagained then
      AsyncReadStart(id, l.(conn := l.conn.(readState := ReadActive)))
    else Ok(l, [])
  }

  function WriteEpollout(id: Id, l: Live): Effect {
    if l.conn.writeState == WriteEagained then
      Ok(l.(conn := l.conn.(writeState := WriteActive)), [Functor(WriterFn, id)])
    else Ok(l, [])
  }

  /** async_event_handler: EPOLLOUT is served before EPOLLIN. */
  function EventHandler(id: Id, l: Live, pollIn: bool, pollOut: bool): Effect {
    var e := if pollOut then WriteEpollout(id, l) else Ok(l, []);
    if e.AssertFailed? || !pollIn then e
    else
      var e2 := ReadEpollin(id, e.live);
      if e2.AssertFailed? then e2 else Ok(e2.live, e.posts + e2.posts)
  }

  /** async_connection_init; scratch_request is left as the allocator delivered it. */
  function NewConnection(fd: Fd, sock: Socket, garbage: Option<Msg>): Live {
    Live(Conn(fd, ReadIdle, WriteIdle, false, None, garbage, None), sock, Start)
  }
}
