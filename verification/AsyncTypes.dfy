/**
 * Values of the asynchronous server model: the per-connection record, the kernel's view of its
 * socket, the functors of the reactor's ready list, and a history log used only by the theorems.
 */
module AsyncTypes {
  import opened Common

  /** A parsed request; its content is opaque to the connection protocol. */
  type Msg = Bytes

  /** Identity of a connection object.  Identities are never reused, descriptors are. */
  type Id = nat
  type Fd = nat

  datatype ReadState = ReadIdle | ReadEagained | ReadActive | ReadStop
  datatype WriteState = WriteIdle | WriteEagained | WriteActive | WriteStop

  /** The fields of AsyncConnection that the protocol reads and writes. */
  datatype Conn = Conn(
    fd: Fd,
    readState: ReadState,
    writeState: WriteState,
    readsidePosted: bool,
    inputMessage: Option<Msg>,
    scratchRequest: Option<Msg>,
    output: Option<Bytes>)

  /** The kernel's side of one socket, registered edge-triggered. */
  datatype Socket = Socket(
    unread: Bytes,
    eof: bool,
    space: nat,
    inEdge: bool,
    outEdge: bool,
    sent: Bytes)
  {
    predicate Readable() { unread != [] || eof }
    predicate Writable() { space > 0 }
  }

  /** What happened on a connection, oldest first.  No step of the server reads it. */
  datatype Act =
    | Recv(completed: seq<Msg>)   // one positive recv and the messages it completed
    | Handle(request: Msg)        // the request reached the handler
    | Respond(response: Bytes)    // the handler gave a response to the connection
    | Done                        // the handler was told that the response is written
  datatype Log = Start | Snoc(before: Log, act: Act)

  datatype Live = Live(conn: Conn, sock: Socket, log: Log)

  datatype Kind = ReaderFn | RequestFn | WriterFn | WriteCompleteFn | CloseFn
  datatype Functor = Functor(kind: Kind, target: Id)

  /** Result of recv() on a non-blocking socket together with what the HTTP parser made of the data. */
  datatype RecvOutcome =
    | Received(count: nat, completed: seq<Msg>, parserOk: bool, errnoEagain: bool)
    | PeerClosed
    | RecvEagain
    | RecvError

  /** Result of send() on a non-blocking socket. */
  datatype SendOutcome = Sent(count: nat) | SentZero | SendEagain | SendError

  const READ_BUFFER_SIZE: nat := 1000000

  /** What the kernel may answer to recv(). */
  predicate RecvLegal(s: Socket, o: RecvOutcome) {
    match o
    case Received(n, _, _, _) => 1 <= n <= |s.unread| && n <= READ_BUFFER_SIZE
    case PeerClosed => s.unread == [] && s.eof
    case RecvEagain => !s.Readable()
    case RecvError => true
  }

  /** What the kernel may answer to send() of `length` bytes. */
  predicate SendLegal(s: Socket, length: nat, o: SendOutcome) {
    match o
    case Sent(n) => 1 <= n <= length && n <= s.space
    case SentZero => true
    case SendEagain => !s.Writable()
    case SendError => true
  }
}
