/**
 * The connection as the source has it: an object whose functions update fields in place and post
 * functors to the reactor's ready list.  The source's assertions are assert statements here.  Each
 * method is proved against the function of the same name in ConnectionSteps.
 */
module AsyncConnectionObject {
  import opened Common
  import opened AsyncTypes
  import opened ReactorTables
  import opened IoBufferObject
  import C = ConnectionSteps
  import M = ReactorMachine

  class AsyncConnection {
    const id: Id                      // identity, standing for the object's address
    const fd: Fd
    var readState: ReadState
    var writeState: WriteState
    var readsidePosted: bool
    var inputMessage: Option<Msg>
    var scratchRequest: Option<Msg>
    var output: IOBuffer?             // what is left of the serialized response
    var sock: Socket                  // the kernel's side of the socket
    var log: Log                      // what peer and application have seen; no function of the server reads it

    ghost predicate Valid()
      reads this`output, output
    {
      output != null ==> output.Valid()
    }

    /** The bytes still to be sent. */
    ghost function Unsent(): Option<Bytes>
      requires Valid()
      reads this`output, output, if output == null then {} else {output.mem}
    {
      if output == null then None else Some(output.Data())
    }

    ghost function View(): Live
      requires Valid()
      reads this, output, if output == null then {} else {output.mem}
    {
      Live(Conn(fd, readState, writeState, readsidePosted, inputMessage, scratchRequest, Unsent()), sock, log)
    }

    /** The object and the ready list are as effect `e` leaves them. */
    ghost predicate Shows(e: C.Effect, queued: seq<Functor>, ready: FunctorList)
      reads this, output, if output == null then {} else {output.mem}, ready, ready.list
    {
      Valid() && e.Ok? && View() == e.live && ready.Valid() && ready.Contents() == queued + e.posts
    }

    /** No assertion fails on the way, and the ready list has room for what is posted. */
    ghost predicate CanDo(e: C.Effect, ready: FunctorList)
      reads ready, ready.list
    {
      e.Ok? && ready.Valid() && |ready.Contents()| + |e.posts| < ready.capacity
    }

    constructor (id: Id, fd: Fd, sock: Socket, garbage: Option<Msg>)
      ensures Valid() && View() == C.NewConnection(fd, sock, garbage) && output == null && this.id == id && this.fd == fd
    {
      this.id, this.fd, this.sock := id, fd, sock;
      readState, writeState := ReadIdle, WriteIdle;
      readsidePosted := false;
      inputMessage, scratchRequest, output := None, garbage, null;
      log := Start;
    }

    method Post(kind: Kind, ready: FunctorList)
      requires ready.Valid() && |ready.Contents()| + 1 < ready.capacity
      modifies ready`head, ready.list
      ensures ready.Valid() && ready.Contents() == old(ready.Contents()) + [Functor(kind, id)]
    {
      ready.Add(Functor(kind, id));
    }

    method AsyncReadStart(ready: FunctorList)
      requires Valid() && CanDo(C.AsyncReadStart(id, View()), ready)
      modifies this`readsidePosted, ready`head, ready.list
      ensures Shows(C.AsyncReadStart(id, old(View())), old(ready.Contents()), ready)
    {
      assert readState == ReadActive;
      assert !readsidePosted;
      readsidePosted := true;
      Post(ReaderFn, ready);
    }

    method PostReadStart(ready: FunctorList)
      requires Valid() && CanDo(C.PostReadStart(id, View()), ready)
      modifies this`readsidePosted, ready`head, ready.list
      ensures Shows(C.PostReadStart(id, old(View())), old(ready.Contents()), ready)
    {
      assert !readsidePosted;
      readsidePosted := true;
      Post(ReaderFn, ready);
    }

    method ReadNewMessage(ready: FunctorList)
      requires Valid() && CanDo(C.ReadNewMessage(id, View()), ready)
      modifies this`inputMessage, this`readState, this`scratchRequest, ready`head, ready.list
      ensures Shows(C.ReadNewMessage(id, old(View())), old(ready.Contents()), ready)
    {
      assert readState == ReadActive;
      assert inputMessage.Some?;
      assert !readsidePosted;
      var msg := inputMessage;
      inputMessage := None;
      readState := ReadIdle;
      scratchRequest := msg;
      Post(RequestFn, ready);
    }

    method ReadEagain(ready: FunctorList)
      requires Valid() && CanDo(C.ReadEagain(id, View()), ready)
      modifies this`readState
      ensures Shows(C.ReadEagain(id, old(View())), old(ready.Contents()), ready)
    {
      assert readState == ReadActive;
      assert inputMessage.None?;
      assert !readsidePosted;
      readState := ReadEagained;
    }

    method ReadNeedData(ready: FunctorList)
      requires Valid() && CanDo(C.ReadNeedData(id, View()), ready)
      modifies this`readsidePosted, ready`head, ready.list
      ensures Shows(C.ReadNeedData(id, old(View())), old(ready.Contents()), ready)
    {
      assert readState == ReadActive;
      assert inputMessage.None?;
      assert !readsidePosted;
      PostReadStart(ready);
    }

    method ReadError(ready: FunctorList)
      requires Valid() && CanDo(C.ReadError(id, View()), ready)
      modifies this`readState, this`writeState, ready`head, ready.list
      ensures Shows(C.ReadError(id, old(View())), old(ready.Contents()), ready)
    {
      assert readState == ReadActive;
      assert inputMessage.None?;
      assert !readsidePosted;
      readState := ReadStop;
      writeState := WriteStop;
      Post(CloseFn, ready);
    }

    /** The parser's callback for one completed message. */
    method OnReadMessageComplete(msg: Msg)
      requires readState == ReadActive
      modifies this`inputMessage
      ensures inputMessage == Some(msg)
    {
      assert readState == ReadActive;
      inputMessage := Some(msg);
    }

    /** recv() and http_parser_consume(), which calls back once per completed message. */
    method Consume(o: RecvOutcome)
      requires Valid() && o.Received? && RecvLegal(sock, o) && readState == ReadActive
      modifies this`inputMessage, this`sock, this`log
      ensures Valid() && View() == C.AfterRecv(old(View()), o)
    {
      sock := sock.(unread := sock.unread[o.count..]);
      log := Snoc(log, Recv(o.completed));
      for i := 0 to |o.completed|
        modifies this`inputMessage
        invariant inputMessage == C.Slot(old(inputMessage), o.completed[..i])
      {
        OnReadMessageComplete(o.completed[i]);
      }
      assert o.completed[..|o.completed|] == o.completed;
    }

    method Reader(o: RecvOutcome, ready: FunctorList)
      requires Valid() && RecvLegal(sock, o) && CanDo(C.Reader(id, View(), o), ready)
      modifies this, ready`head, ready.list
      ensures Shows(C.Reader(id, old(View()), o), old(ready.Contents()), ready) && output == old(output)
    {
      assert readState == ReadActive;
      assert inputMessage.None?;
      match o {
        case Received(_, _, parserOk, errnoEagain) =>
          Consume(o);
          if inputMessage.Some? {
            ReadNewMessage(ready);
            return;
          }
          if errnoEagain {
            ReadEagain(ready);
            return;
          }
          if parserOk {
            ReadNeedData(ready);
          } else {
            ReadError(ready);
          }
        case PeerClosed => ReadError(ready);
        case RecvEagain => ReadEagain(ready);
        case RecvError => ReadError(ready);
      }
    }

    method PostableReader(o: RecvOutcome, ready: FunctorList)
      requires Valid() && RecvLegal(sock, o) && CanDo(C.PostableReader(id, View(), o), ready)
      modifies this, ready`head, ready.list
      ensures Shows(C.PostableReader(id, old(View()), o), old(ready.Contents()), ready) && output == old(output)
    {
      assert readState == ReadActive;
      assert readsidePosted;
      readsidePosted := false;
      Reader(o, ready);
    }

    method ConnectionRead(o: RecvOutcome, ready: FunctorList)
      requires Valid() && RecvLegal(sock, o) && CanDo(C.ConnectionRead(id, View(), o), ready)
      modifies this, ready`head, ready.list
      ensures Shows(C.ConnectionRead(id, old(View()), o), old(ready.Contents()), ready) && output == old(output)
    {
      assert readState == ReadIdle;
      assert inputMessage.None?;
      readState := ReadActive;
      if !readsidePosted {
        Reader(o, ready);
      }
    }

    /** Message_serialize: the response in a buffer of its own. */
    static method Serialized(response: Bytes) returns (iob: IOBuffer)
      ensures fresh(iob) && iob.Valid() && iob.Data() == response
    {
      iob := new IOBuffer(|response|);
      if response != [] {
        iob.DataAdd(response);
      }
      assert [] + response == response;
    }

    method ConnectionWrite(response: Bytes, ready: FunctorList)
      requires Valid() && CanDo(C.ConnectionWrite(id, View(), response), ready)
      modifies this`output, this`writeState, this`log, ready`head, ready.list
      ensures Shows(C.ConnectionWrite(id, old(View()), response), old(ready.Contents()), ready) && fresh(output)
    {
      assert writeState == WriteIdle;
      output := Serialized(response);
      writeState := WriteActive;
      log := Snoc(log, Respond(response));
      Post(WriterFn, ready);
    }

    method PostableHandleRequest(answer: Option<Bytes>, ready: FunctorList)
      requires Valid() && CanDo(C.PostableHandleRequest(id, View(), answer), ready)
      modifies this, ready`head, ready.list
      ensures Shows(C.PostableHandleRequest(id, old(View()), answer), old(ready.Contents()), ready)
      ensures output == null || output == old(output) || fresh(output)
    {
      assert scratchRequest.Some?;
      log := Snoc(log, Handle(scratchRequest.value));
      scratchRequest := None;
      if answer.Some? {
        ConnectionWrite(answer.value, ready);
      }
    }

    method WriteError(ready: FunctorList)
      requires Valid() && CanDo(C.WriteError(id, View()), ready)
      modifies this`readState, this`writeState, ready`head, ready.list
      ensures Shows(C.WriteError(id, old(View())), old(ready.Contents()), ready)
    {
      readState := ReadStop;
      writeState := WriteStop;
      Post(CloseFn, ready);
    }

    /** send() takes the first `n` bytes of the output. */
    method Transmit(n: nat)
      requires Valid() && output != null && n <= output.remaining && n <= sock.space
      modifies this`sock, output
      ensures Valid() && Unsent() == Some(old(output.Data())[n..])
      ensures sock == old(sock).(sent := old(sock).sent + old(output.Data())[..n], space := old(sock).space - n)
    {
      var iob := output;
      assert iob.Data()[..n] == iob.mem[iob.ptr..iob.ptr + n];
      sock := sock.(sent := sock.sent + iob.mem[iob.ptr..iob.ptr + n], space := sock.space - n);
      iob.Consume(n);
    }

    method Writer(o: SendOutcome, ready: FunctorList)
      requires Valid() && SendLegal(sock, C.OutputLength(View().conn), o) && CanDo(C.Writer(id, View(), o), ready)
      modifies this, output, ready`head, ready.list
      ensures Shows(C.Writer(id, old(View()), o), old(ready.Contents()), ready)
      ensures output == null || output == old(output) || fresh(output)
    {
      assert output != null;
      var iob := output;
      match o {
        case Sent(n) =>
          Transmit(n);
          if iob.remaining == 0 {
            writeState := WriteIdle;
            output := null;
            Post(WriteCompleteFn, ready);
          } else {
            writeState := WriteActive;
            Post(WriterFn, ready);
          }
        case SentZero => WriteError(ready);
        case SendEagain => writeState := WriteEagained;
        case SendError => WriteError(ready);
      }
    }

    method PostableWriter(o: SendOutcome, ready: FunctorList)
      requires Valid() && SendLegal(sock, C.OutputLength(View().conn), o) && CanDo(C.PostableWriter(id, View(), o), ready)
      modifies this, output, ready`head, ready.list
      ensures Shows(C.PostableWriter(id, old(View()), o), old(ready.Contents()), ready)
      ensures output == null || output == old(output) || fresh(output)
    {
      assert output != null;
      assert writeState == WriteActive;
      Writer(o, ready);
    }

    method PostableWriteComplete(o: RecvOutcome, ready: FunctorList)
      requires Valid() && RecvLegal(sock, o) && CanDo(C.PostableWriteComplete(id, View(), o), ready)
      modifies this, ready`head, ready.list
      ensures Shows(C.PostableWriteComplete(id, old(View()), o), old(ready.Contents()), ready) && output == old(output)
    {
      log := Snoc(log, Done);
      ConnectionRead(o, ready);
    }

    method ReadEpollin(ready: FunctorList)
      requires Valid() && CanDo(C.ReadEpollin(id, View()), ready)
      modifies this`readState, this`readsidePosted, ready`head, ready.list
      ensures Shows(C.ReadEpollin(id, old(View())), old(ready.Contents()), ready)
    {
      if readState == ReadEagained {
        readState := ReadActive;
        AsyncReadStart(ready);
      }
    }

    method WriteEpollout(ready: FunctorList)
      requires Valid() && CanDo(C.WriteEpollout(id, View()), ready)
      modifies this`writeState, ready`head, ready.list
      ensures Shows(C.WriteEpollout(id, old(View())), old(ready.Contents()), ready)
    {
      if writeState == WriteEagained {
        writeState := WriteActive;
        Post(WriterFn, ready);
      }
    }

    method EventHandler(pollIn: bool, pollOut: bool, ready: FunctorList)
      requires Valid() && CanDo(C.EventHandler(id, View(), pollIn, pollOut), ready)
      modifies this`readState, this`writeState, this`readsidePosted, ready`head, ready.list
      ensures Shows(C.EventHandler(id, old(View()), pollIn, pollOut), old(ready.Contents()), ready)
    {
      if pollOut {
        WriteEpollout(ready);
      }
      if pollIn {
        ReadEpollin(ready);
      }
    }

    /** The functor that the ready list holds for this connection, except for close. */
    method Run(kind: Kind, recv: RecvOutcome, send: SendOutcome, answer: Option<Bytes>, ready: FunctorList)
      requires Valid() && M.FunctorLegal(View(), recv, send, answer) && kind != CloseFn
      requires CanDo(M.FunctorEffect(Functor(kind, id), View(), recv, send, answer), ready)
      modifies this, output, ready`head, ready.list
      ensures Shows(M.FunctorEffect(Functor(kind, id), old(View()), recv, send, answer), old(ready.Contents()), ready)
      ensures output == null || output == old(output) || fresh(output)
    {
      match kind {
        case ReaderFn => PostableReader(recv, ready);
        case RequestFn => PostableHandleRequest(answer, ready);
        case WriterFn => PostableWriter(send, ready);
        case WriteCompleteFn => PostableWriteComplete(recv, ready);
      }
    }
  }
}
