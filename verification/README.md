# An event-driven HTTP server in C, modelled and proved

The repository is a small HTTP stack: an asynchronous server on an epoll reactor, a threaded server on a
blocking queue, a URL parser, a demo framing protocol, the callbacks that assemble HTTP messages, and the
byte containers below them. This project models those parts in Dafny and proves what holds of them for
every input, every schedule and every run. `dafny verify dfyconfig.toml` checks all of it. Every lemma
carries `{:induction false}`, so no proof rests on an induction hypothesis that is not an explicit call.
`Common` holds the few datatypes and the lemmas on concatenation that all parts share.

## What is modelled, and the main results

**The asynchronous server** (`AsyncTypes`, `ConnectionSteps`, `ReactorMachine`, `History`, `Protocol`,
`Reference`, `AsyncTheorems`, `Wakeups`, `Drain`, `AsyncExamples`). Any number of connections share one
reactor. A label carries every choice of the kernel, the HTTP parser and the application; `Apply` is then
a function, and every failed assertion, missing table entry, full ready list or use of a freed object
leads to `Crashed`. The reason nothing crashes is global: the connection is half-duplex, and each live
connection owns exactly the functor that its phase calls for. `Inv` says so, every step keeps it, and from
it follow: no run crashes; at most 1024 of the 2047 places of the ready list are used; a closed connection
is never referred to again; an event is never dispatched to a connection that reuses a descriptor; the
bytes on a socket are exactly the responses in order; requests and responses alternate as the reference
automaton `Stage` says. `Reference` says what a connection is to its environment: an automaton over the
results of recv and send, the application's answers and the events, without the connection's fields. The
machine refines it: at every moment of every run a connection exists exactly if replaying its deeds leads
to one, and is where they lead; so the responses sent are the ones the application gave, the messages on
record are the ones the parser completed, and every outcome has exactly one consequence.

Three laws of the design hold only under a condition. Each comes with a complete run from start-up that
breaks the condition, in `AsyncExamples`:

- *No wake-up is lost.* `reader()` consults `errno` after a successful `recv()`, where it may be left over
  from an earlier call (the header documents it as "no more data"). A step loses a wake-up if and only if
  a functor's `recv` succeeds, completes no message, leaves input behind with no edge pending and finds
  `EAGAIN` in `errno`. In the run that shows it, the value comes from an `accept()` that found nothing.
- *Every parsed message is handled.* The single input slot is overwritten, so this holds if and only if no
  `recv` completes two messages. In the run that shows it, two arrive together and only the second is
  handled.
- *The drain loop ends.* It does if new input stops arriving at some point, whatever else the kernel does
  and whatever answers the application gives. One infinite run has a byte arriving before every read, and
  the loop never ends.

**The same server as a program** (`ReactorTables`, `AsyncConnectionObject`, `Passes`, `ReactorProgram`).
The ring of functors, the descriptor table, the handler list as a linked list on the heap, the connection
object with its output buffer and the run loop, with the source's assertions as `assert` statements. Each
method is proved against its function above; no two connections share an output buffer. The kernel acts
and the application gives late answers between any two events and any two functors. The loop is proved to
be a run of the machine that keeps `Inv` and is made of passes: with the environment's steps left out,
each pass is one wait, one dispatch for every reported event and in order, and then functors until none is
left. It is left only when no descriptor is registered or nothing can be reported. A functor runs, and a
listener accepts, with what kernel and application offer at that moment.

**The URL parser** (`UrlParser`, `UrlGrammar`, `UrlAccepts`, `UrlSound`, `UrlTheorems`, `UrlProgram`).
Both automata with 16-bit offsets, and a printer for a record of components written without reference to
them or to their character classes (layout after section 3 of RFC 3986, IPv6 zones after section 2 of RFC
6874). The accepted language is exactly the set of printed targets, and parsing a printed target gives
back every component, as long as the host segment ends within 65535 characters, which is as far as the
parser can find it again; the rest of the URL may be of any length, and a field is reported in full
exactly when its offset and its length fit 16 bits. Beyond the bound the law fails: a scheme with a long
host name is accepted if and only if the name's length is no multiple of 65536. The loops of the source
compute that function, for buffers of any length, without the range checks that the function makes.

**The demo protocol** (`DemoProtocol`, `DemoGrammar`). The byte loop with its state across buffers; the
round trip for every message sequence and every chunking; and the exact condition for chunking
independence: at most one byte follows the first framing error, with a stream on which two cuttings
differ. A grammar of noise and frames, given by byte values, says what a framing error is: from rest the
parser stays out of error recovery exactly on the streams of that grammar and delivers exactly their
frames; on any other it goes into recovery at the first byte that no continuation could repair, and takes
up the next SOH that does not end the buffer. The frame that begins there is delivered as sent if and only
if nothing of the broken frame's body had been read, since the source keeps the message it had begun. The
source's header comment promises a length field and a check of the trailing EOT; the code has neither, and
the model follows the code.

**Byte containers** (`IoBufferObject`, `LinkedListObject`, `BufferChainObject`). The doubly linked list on
the heap, the buffer with a read offset, and the chain, a linked list of buffers with a running size. A
commit writes its terminator relative to the start of memory instead of the read offset, so that data
added to a partly consumed buffer can be damaged; the condition is exact, for a buffer and for the last
buffer of a chain.

**The blocking queue and shutdown** (`QueueMachine`, `QueueTheorems`, `QueueListener`,
`BlockingQueueObject`). A step is what one thread does while it holds the mutex; scheduling and spurious
wake-ups are arbitrary. Sleep is always justified, nothing is lost, turns are bounded, and every schedule
with finitely many spurious wake-ups comes to rest with every worker exited. The listener is not covered
by the sentinels: some schedule leaves it asleep for ever if and only if it accepts more sockets than the
queue holds.

**Header assembly** (`HeaderAssembly`). The tokenizer's callbacks as a fold; for every way of cutting any
number of messages into pieces the delivered messages are determined, and they are the ones sent if and
only if every header but a message's last has a value piece, there are no trailers and no target holds a
NUL. One message for each way to fail is given.

What the environment is assumed to do: the kernel never hands out an open descriptor and descriptors stay
below 1024; `recv` and `send` report `EAGAIN` as a result only when the socket is not ready; arming a
socket reports what is already there; the application answers only requests it was given, on the reactor's
thread, with a non-empty serialization. Nothing is assumed about `errno` after a successful call, about
how much one `recv` delivers, or about how many messages it completes.

## Model

| member | source | states |
|---|---|---|
| Protocol.ReaderEffect | http_in_c/async/connection_read.c:41-95 | From a reading connection no assertion of reader() or its continuations fails and exactly the functor of the resulting phase is posted; which phase results is an if-and-only-if for each: request posted, closing, waiting, reading on |
| Protocol.RequestEffect | http_in_c/async/connection_read.c:167-190 | The request is handed over, and an immediate answer is what goes out |
| Protocol.WriterEffect | http_in_c/async/connection_write.c:24-107 | For every outcome of send, sent plus unsent bytes stay equal to the responses given, and each outcome leads to exactly one phase |
| Protocol.WriteEffect | http_in_c/async/connection_api.c:97-106 | A response is accepted in the phase in which one is owed, and its bytes are the unsent output |
| Protocol.WriteCompleteEffect | http_in_c/async/async_handler.c:117-122 | Completion of a write starts the next read, with no assertion failing |
| Protocol.EventOk | http_in_c/async/connection_event.c:11-47 | An event wakes exactly a connection that waits for it, into reading or writing, and changes nothing else |
| Protocol.InstallOk | http_in_c/runloop/reactor.c:279-286 | Posting for one connection never fills the list and keeps every other connection's schedule |
| Protocol.CloseOk | http_in_c/async/async_server.c:32-41 | Closing finds the handler in the list and the descriptor in the table and keeps the invariant for everyone else |
| Protocol.AcceptOk | http_in_c/async/async_server.c:192-222 | Accepting, registering, arming and the first read keep the invariant, with a new identity and an unused descriptor |
| Protocol.ReadyBound | http_in_c/runloop/rl_internal.h:11-19 | Owners of queued functors have distinct descriptors, so the ready list is no longer than the descriptor table |
| Protocol.StepOk | http_in_c/runloop/reactor.c:189-277 | Every step of the reactor, the kernel and the application runs without a crash and keeps the global invariant |
| Protocol.RunOk | http_in_c/runloop/reactor.c:189-277 | The invariant holds in every state of every run |
| Reference.StepRefines | http_in_c/runloop/reactor.c:189-277 | Every step takes every connection where the reference automaton says, and only an accept makes a new one |
| Reference.Refinement | http_in_c/async/connection_read.c:41-190 | In every state of every run each connection is where replaying its deeds leads, field by field, and no other connection exists |
| Reference.HistoryIsTrue | http_in_c/async/connection_api.c:97-106 | The messages and responses on record are those that the parser completed and the application gave, as the labels of the run have them |
| Reference.StepControls | http_in_c/runloop/functor_list.c:42-72 | The ready list is served in order, each step posts at its end the functor of the phase it brought a connection to, and events are taken in order |
| AsyncTheorems.NeverCrashes | http_in_c/async/connection_read.c:15-190 | After any run, whatever happens next, no state assertion fails and no freed object is used |
| AsyncTheorems.OnePhaseOneFunctor | http_in_c/async/connection_internal.h:26-98 | In every state of every run each connection is in exactly one phase and owns exactly the functor of that phase, never two |
| AsyncTheorems.ReadyListNeverOverflows | http_in_c/runloop/functor_list.c:42-53 | At most 1024 functors are ever queued, below the 2047 that fit |
| AsyncTheorems.NothingDangles | http_in_c/runloop/reactor.c:237-266 | Every queued functor and every undispatched event refers to something live; dispatch-time lookups succeed |
| AsyncTheorems.NoResurrection | http_in_c/async/async_handler.c:123-141 | A step brings no earlier identity back to life |
| AsyncTheorems.ClosedOnceForAll | http_in_c/async/connection_read.c:130-151 | Once its close functor ran, no list, table entry, undispatched event or functor refers to the connection ever again, and the close functor does not run again |
| AsyncTheorems.EventsReachTheirWatcher | http_in_c/runloop/reactor.c:237-249 | Throughout a batch every event still to be dispatched finds the watcher that its descriptor had when epoll_wait reported it, although connections are accepted meanwhile |
| AsyncTheorems.OutputIsExact | http_in_c/async/connection_write.c:33-63 | At every moment the bytes sent are the completed ones of the responses that the application gave, followed by a prefix of the current one, and the buffer holds the rest of it |
| AsyncTheorems.StrictAlternation | http_in_c/async/connection_read.c:96-109 | Of the messages that the parser completed, those that survive the slot are handled once and in order; reading resumes only when everything handled is answered and sent; nothing is overwritten iff no recv completes two messages |
| History.Alternation | http_in_c/async/async_handler.c:90-122 | In every history of the reference automaton handled requests are the surviving ones and responses trail them by at most one |
| History.NothingOverwritten | http_in_c/async/connection_read.c:153-166 | Parsed messages all survive iff no recv completed two |
| Wakeups.WakeupStep | http_in_c/async/connection_read.c:57-95 | From a state in which nobody sleeps through readiness, a step leads to such a state iff it does not trust a stale errno |
| Wakeups.NoLostWakeups | http_in_c/async/connection_event.c:29-47 | In all states of a run every waiting connection that could go on has an edge pending or reported, iff no step of the run trusted a stale errno |
| Wakeups.SleepIsJustified | http_in_c/runloop/reactor.c:208-214 | While the reactor sleeps in epoll_wait every connection waits for its peer or the application, and one that could go on has an edge pending |
| AsyncExamples.StaleErrnoExample | http_in_c/async/connection_internal.h:37-57 | A complete run from start-up, in which accept() leaves EAGAIN in errno, that ends with unread input, no edge pending and a connection waiting for input |
| AsyncExamples.LostMessageExample | http_in_c/async/connection_read.c:153-166 | A complete run from start-up in which two messages are parsed, the second is handled and the first is nowhere left |
| AsyncExamples.EndlessDrain | http_in_c/runloop/reactor.c:251-266 | One infinite run from start-up that drains from its third step on with a functor always queued, because a byte arrives before every read |
| Drain.FunctorStepDecreases | http_in_c/runloop/reactor.c:251-266 | Running a functor lowers the lexicographic measure of unread bytes, phase ranks and unsent bytes over all connections |
| Drain.AnswerStepDecreases | http_in_c/async/async_handler.c:101-113 | An answer that the application gives later lowers the same measure |
| Drain.DrainEnds | http_in_c/runloop/reactor.c:251-266 | From every reachable state of the drain loop, any sequence of turns (a functor, or an answer of the application, with the kernel acting in between) empties the ready list after finitely many, if input arrives before finitely many of them only |
| Drain.DrainGoesOn | http_in_c/runloop/reactor.c:251-266 | While a functor is queued another turn is possible without new input, so that the sequences of the previous row exist |
| ReactorTables.FunctorList.Add | http_in_c/runloop/functor_list.c:42-53 | Appends to the FIFO that the ring denotes |
| ReactorTables.FunctorList.Size | http_in_c/runloop/functor_list.c:54-59 | The index difference is the length of that FIFO |
| ReactorTables.FunctorList.Remove | http_in_c/runloop/functor_list.c:60-72 | Takes the oldest item of the FIFO |
| ReactorTables.FdTable.Insert | http_in_c/runloop/fdtable.c:45-52 | The table gains one entry and the count agrees with it |
| ReactorTables.FdTable.Remove | http_in_c/runloop/fdtable.c:56-65 | The table loses exactly that entry and the count agrees with it |
| ReactorTables.FdTable.NextIterator | http_in_c/runloop/fdtable.c:74-96 | The least occupied descriptor after the given one, or -1 iff there is none |
| AsyncConnectionObject.AsyncConnection.Reader | http_in_c/async/connection_read.c:41-95 | The object and the ready list end as the function Reader says, with every assertion of the path proved |
| AsyncConnectionObject.AsyncConnection.Consume | http_in_c/async/connection_read.c:153-166 | One callback per completed message leaves the last of them in the slot |
| AsyncConnectionObject.AsyncConnection.ConnectionRead | http_in_c/async/connection_api.c:84-96 | The object ends as the function ConnectionRead says, with both assertions proved |
| AsyncConnectionObject.AsyncConnection.Writer | http_in_c/async/connection_write.c:33-63 | The object, its output buffer consumed in place, the socket's bytes and the ready list end as the function Writer says |
| AsyncConnectionObject.AsyncConnection.EventHandler | http_in_c/async/connection_event.c:11-28 | EPOLLOUT is served before EPOLLIN; the object ends as the function EventHandler says |
| ReactorProgram.Connections.Run | http_in_c/async/connection_internal.h:26-98 | A functor of one connection leaves every other connection's fields, output buffer and unsent bytes as they were, and no buffer becomes shared |
| ReactorProgram.AsyncServer.CloseConnection | http_in_c/async/connection_api.c:48-83 | The linked handler list, the table, the epoll set and the live objects lose exactly this connection, as the machine's Close says |
| ReactorProgram.CompleteHandler | http_in_c/async/async_server.c:32-41 | Finding the handler's node and unlinking it removes the first occurrence of the handler and disposes of it, once |
| ReactorProgram.AsyncServer.HandleResponse | http_in_c/async/async_handler.c:101-113 | An answer given at any moment but the wait takes the object and the ready list where the machine's late answer of that response says |
| ReactorProgram.AsyncServer.AcceptConnection | http_in_c/async/async_handler.c:30-64 | A new object is registered, read from once and enlisted, as the machine's Accept says |
| ReactorProgram.AsyncServer.NotifyListener | http_in_c/async/async_server.c:192-222 | A ready listener accepts exactly the connection it is offered |
| ReactorProgram.AsyncServer.RunOne | http_in_c/runloop/reactor.c:251-266 | The oldest functor is taken and run with exactly what kernel and application offer it |
| ReactorProgram.AsyncServer.DrainReadyList | http_in_c/runloop/reactor.c:251-266 | The loop, with kernel and application at work between functors, terminates with an empty list and runs functors and nothing else |
| ReactorProgram.AsyncServer.RunOnce | http_in_c/runloop/reactor.c:214-266 | One pass is the wait, one dispatch for each reported event, and functors until none is left; it terminates and fails no assertion |
| ReactorProgram.AsyncServer.Run | http_in_c/runloop/reactor.c:197-277 | The loop makes one such pass for each report of epoll_wait, and is left early only when no descriptor is registered or nothing can be reported |
| Passes.RunsIsRun | http_in_c/runloop/reactor.c:189-277 | What the program has run is a run of the machine, state by state |
| Passes.DispatchedInOrder | http_in_c/runloop/reactor.c:237-249 | After k dispatches exactly the first k events of the batch are gone |
| UrlAccepts.PrintThenParse | http_in_c/common/url_parser.c:593-714 | Parsing a printed target whose host segment ends within 65535 characters gives exactly the printer's layout, reduced to 16 bits, and port number |
| UrlAccepts.HostRunAuthority | http_in_c/common/url_parser.c:506-586 | The inner automaton splits a printed authority into userinfo, host and port at their places |
| UrlAccepts.PortConversion | http_in_c/common/url_parser.c:686-711 | The conversion loop yields the decimal value iff it is at most 65535 |
| UrlSound.AuthoritySplit | http_in_c/common/url_parser.c:424-504 | Every host segment the inner automaton accepts is a printed authority |
| UrlAccepts.ClassesAgree | http_in_c/common/url_parser.c:229-252 | Each character class of the parser is the grammar's, for every character |
| UrlAccepts.TableIff | http_in_c/common/url_parser.c:80-120 | A character is one of a path iff its bit is set in the table |
| UrlTheorems.AcceptedIsPrinted | http_in_c/common/url_parser.c:593-714 | Every accepted buffer whose host segment ends within 65535 characters is the printed form of a well-formed target |
| UrlTheorems.AcceptedLanguage | http_in_c/common/url_parser.c:593-714 | A buffer whose host segment ends within 65535 characters is accepted iff it is the printed form of a well-formed target |
| UrlTheorems.RoundTrip | http_in_c/common/url_parser.c:593-714 | After parsing a printed target of any length each field is set iff its component is non-empty, the port is the number printed, and a field that 16 bits can place is its component |
| UrlTheorems.ReportedInFull | http_in_c/common/url_parser.c:655-665 | Every field is reported with offset and length modulo 65536, and where it lies iff both are at most 65535 |
| UrlTheorems.LongNameAccepted | http_in_c/common/url_parser.c:506-586 | A scheme and a host name of any length are accepted iff the name's length is no multiple of 65536 |
| UrlTheorems.HostEndIs | http_in_c/common/url_parser.c:593-665 | The scan of a printed target comes to the tail exactly where its host segment ends |
| UrlTheorems.AcceptedFields | http_in_c/common/url_parser.c:506-714 | For every accepted URL of at most 65535 characters the fields are non-empty, in bounds, disjoint and in order, and the port is the exact value of its digits |
| UrlProgram.ParserUrl.ParseHost | http_in_c/common/url_parser.c:506-586 | The in-place loop computes the specification on the caller's field table, for any length |
| UrlProgram.ParserUrl.RecordHost | http_in_c/common/url_parser.c:526-566 | The switch of the inner loop updates the field table as specified, and a port that starts before the current character ends by it |
| UrlProgram.ParserUrl.ConvertPortField | http_in_c/common/url_parser.c:686-711 | The port loop computes the specification, whatever characters the field covers |
| UrlProgram.ParserUrl.ScanUrl | http_in_c/common/url_parser.c:603-665 | On every buffer the first loop ends with the specification's field table and '@' flag, or rejects as it does |
| UrlProgram.ParserUrl.ParseUrl | http_in_c/common/url_parser.c:593-714 | On every buffer the loops accept exactly what the specification accepts and leave its field table and port |
| DemoProtocol.PresentIsFold | http_in_c/demo_protocol/demo_parser.c:167-201 | Returning after each message and presenting the rest again consumes every byte exactly once |
| DemoProtocol.ChunkingTheorem | http_in_c/demo_protocol/demo_parser.c:111-202 | All ways to cut a stream give the same events and parser iff at most one byte follows the first framing error |
| DemoProtocol.ChunkingExample | http_in_c/demo_protocol/demo_parser.c:178-195 | Four bytes to a new parser that report one error in one piece and two errors in single bytes |
| DemoProtocol.RoundTrip | http_in_c/demo_protocol/demo_parser.c:111-202 | Serialized messages with printable bodies, cut in any way, are delivered exactly, in order, and nothing else is |
| DemoProtocol.Consume | http_in_c/demo_protocol/demo_parser.c:111-202 | A call on a non-empty buffer consumes at least one byte and stops early only at an event |
| DemoProtocol.DemoParser.TakeByte | http_in_c/demo_protocol/demo_parser.c:121-198 | The switch takes the step that OneByte and the recovery theorems describe, and never follows a null message |
| DemoProtocol.DemoParser.ConsumeBuffer | http_in_c/demo_protocol/demo_parser.c:111-202 | The byte loop computes Consume and leaves exactly the unconsumed bytes in the buffer |
| DemoProtocol.DemoParser.ConsumeAll | http_in_c/demo_protocol/demo_parser.c:167-201 | Presenting the rest of a buffer again until it is empty delivers what the specification's Present delivers |
| DemoGrammar.OneByte | http_in_c/demo_protocol/demo_parser.c:121-177 | Outside recovery a byte is skipped, begins or continues a frame, finishes it, or breaks it, as the grammar says |
| DemoGrammar.Framing | http_in_c/demo_protocol/demo_parser.c:111-202 | From rest a stream keeps the parser out of error recovery iff it, or it without its last byte, is noise and frames and perhaps the beginning of one |
| DemoGrammar.StreamDelivered | http_in_c/demo_protocol/demo_parser.c:111-202 | Of noise and frames, however cut into buffers, exactly the frames are delivered |
| DemoGrammar.BreaksThere | http_in_c/demo_protocol/demo_parser.c:130-166 | Recovery begins at the first byte that no continuation could repair, with everything before it delivered |
| DemoGrammar.NotResumed | http_in_c/demo_protocol/demo_parser.c:178-195 | Without an SOH before its last byte a buffer in recovery ends with one error, and recovery goes on |
| DemoGrammar.Resumed | http_in_c/demo_protocol/demo_parser.c:178-183 | Scanning resumes at the first SOH that does not end the buffer, with the message that had been begun |
| DemoGrammar.NextFrameExactIff | http_in_c/demo_protocol/demo_parser.c:147-183 | The next frame is delivered behind what had been read of the broken one, and as sent iff that was nothing |
| DemoGrammar.LeftoverExample | http_in_c/demo_protocol/demo_parser.c:147-183 | Twelve bytes with a broken request "h" and a request "i", of which the request "hi" is delivered |
| DemoGrammar.SerializedText | http_in_c/demo_protocol/demo_message.c:76-93 | What the serializer writes is a frame of the grammar and an EOT, byte by byte |
| IoBufferObject.TerminatorMisses | http_in_c/common/iobuffer.c:131-139 | A commit keeps the unread bytes iff the terminator misses them or falls on a zero |
| IoBufferObject.TerminatorExample | http_in_c/common/iobuffer.c:131-139 | A buffer that is filled, partly consumed and filled again, and has lost a byte |
| IoBufferObject.IOBuffer.Commit | http_in_c/common/iobuffer.c:131-139 | The data grow by the committed bytes, up to the misplaced terminator |
| IoBufferObject.IOBuffer.DataAdd | http_in_c/common/iobuffer.c:111-119 | At read offset zero the data grow by exactly the bytes given |
| IoBufferObject.IOBuffer.Consume | http_in_c/common/iobuffer.c:156-170 | The data lose exactly their first n bytes, and the offset returns to zero when nothing is left |
| IoBufferObject.IOBuffer.Dup | http_in_c/common/iobuffer.c:88-99 | A fresh buffer with the same data and offset |
| LinkedListObject.BypassChains | http_in_c/common/list.c:263-272 | Links that bypass a node chain the list without it in both directions |
| LinkedListObject.List.AddFront | http_in_c/common/list.c:123-138 | Prepends to the sequence and keeps head, tail, count and both link directions |
| LinkedListObject.List.AddBack | http_in_c/common/list.c:141-156 | Appends to the sequence and keeps head, tail, count and both link directions |
| LinkedListObject.List.RemoveFirst | http_in_c/common/list.c:168-191 | Returns and drops the first item without deallocating it |
| LinkedListObject.List.RemoveLast | http_in_c/common/list.c:202-228 | Returns and drops the last item without deallocating it |
| LinkedListObject.List.Find | http_in_c/common/list.c:107-120 | The first node holding the item, or null iff it is absent |
| LinkedListObject.List.ItrRemove | http_in_c/common/list.c:247-276 | Removes exactly the node pointed at, anywhere in the list, and hands its item to the deallocator |
| BufferChainObject.BufferChain.Append | http_in_c/common/buffer_chain.c:55-71 | The bytes go into the last buffer's space, or into a new buffer with nothing else touched; they are appended exactly if nothing of the last buffer was consumed |
| BufferChainObject.GrownIff | http_in_c/common/buffer_chain.c:55-65 | Growing the last buffer in place appends exactly the bytes iff the terminator misses its data or falls on a zero |
| BufferChainObject.BufferChain.AddBack | http_in_c/common/buffer_chain.c:179-183 | Appends any buffer's unread bytes, and the size stays the length of the whole |
| BufferChainObject.BufferChain.AppendBufferChain | http_in_c/common/buffer_chain.c:160-169 | Appends a copy of the other chain's bytes in fresh buffers, leaving the other unchanged |
| BufferChainObject.BufferChain.StealBufferChain | http_in_c/common/buffer_chain.c:170-178 | Moves the other chain's buffers and bytes from one linked list to the other and leaves it empty |
| BufferChainObject.BufferChain.PopFront | http_in_c/common/buffer_chain.c:185-194 | Unlinks the first buffer; its bytes and the rest make up the whole |
| BufferChainObject.BufferChain.Compact | http_in_c/common/buffer_chain.c:96-114 | When no buffer is empty, as the copying asserts, exactly the chain's bytes in one new buffer that is never overrun |
| BufferChainObject.SerializeMessage | http_in_c/demo_protocol/demo_message.c:76-93 | The buffer has the length of the frame, and is the frame that the round trip theorem reads back if nothing of the body's last buffer was consumed |
| QueueTheorems.BlockingQueue | http_in_c/common/queue.c:111-171 | Under every schedule the queue is a bounded FIFO and whoever sleeps is right to |
| QueueTheorems.PassesExact | http_in_c/common/queue.c:111-171 | Adding waits iff full and broadcasts iff the queue was empty; removing waits iff empty and always broadcasts |
| QueueTheorems.ChangeFindsAllAwake | http_in_c/common/queue.c:111-171 | After any turn that changes the queue no producer and no worker is asleep |
| QueueTheorems.NothingLost | http_in_c/common/queue.c:145-171 | Every value is added or still with its producer exactly as often as it was given out |
| QueueTheorems.TurnsBounded | http_in_c/common/queue.c:111-171 | Turns of any run are bounded by the work at its start and the spurious wake-ups |
| QueueTheorems.SentinelsMatchWorkers | http_in_c/sync/sync_server.c:158-166 | At every moment live workers equal the sentinels queued or still to be queued |
| QueueTheorems.SocketsFirst | http_in_c/sync/worker.c:88-111 | A socket added before the first sentinel is dequeued before any worker exits |
| QueueTheorems.ShutdownCompletes | http_in_c/sync/sync_server.c:142-166 | When nothing can move, every worker has exited, every sentinel is taken, and only sockets behind the last sentinel are unserved |
| QueueTheorems.EveryWorkerCanExit | http_in_c/sync/worker.c:88-111 | From every reachable state some boundedly many turns bring every worker to exit |
| QueueTheorems.ShutdownInevitable | http_in_c/sync/sync_server.c:142-166 | Every schedule that takes a turn whenever one is possible and has finitely many spurious wake-ups reaches a state that never changes again, with every worker exited |
| QueueListener.ListenerStrandedIff | http_in_c/sync/sync_server.c:125-140 | Some schedule leaves the listener asleep for ever iff it accepts more sockets than the queue holds |
| BlockingQueueObject.Queue.IndexTests | http_in_c/common/queue.c:43-50 | The index tests for full and empty say what the contents say |
| BlockingQueueObject.Queue.AddOnce | http_in_c/common/queue.c:145-171 | One pass of Queue_add on the ring is the machine's pass on the FIFO, with its broadcast and its index assertion |
| BlockingQueueObject.Queue.RemoveOnce | http_in_c/common/queue.c:111-143 | One pass of Queue_remove on the ring is the machine's pass on the FIFO, with its broadcast and its index assertion |
| HeaderAssembly.DeliversAssembled | http_in_c/http/parser.c:195-398 | For any cuts of any number of messages and any earlier state, each message delivered depends on its own concatenated pieces only |
| HeaderAssembly.RunsIff | http_in_c/http/parser.c:375-387 | The callbacks run without a failed assertion iff no body piece is empty |
| HeaderAssembly.ExactIff | http_in_c/http/parser.c:278-374 | The delivered messages are the ones sent iff every header but a message's last has a value piece, there are no trailers and no target holds a NUL |
| HeaderAssembly.NamesMerge | http_in_c/http/parser.c:291-292 | Two headers delivered as one, because the first had no value piece |
| HeaderAssembly.TrailerDropped | http_in_c/http/parser.c:389-398 | A message whose last trailer is not delivered |
| HeaderAssembly.TargetCut | http_in_c/http/message.c:260-266 | A target delivered only up to its NUL |
| HeaderAssembly.CStringIff | http_in_c/http/message.c:260-266 | Copying as a C string keeps the whole string iff it holds no NUL |
| HeaderAssembly.NewPair | http_in_c/http/kvpair.c:36-65 | The copying loop upper-cases the whole label and keeps the value |
| HeaderAssembly.UpperByCode | http_in_c/http/kvpair.c:36-65 | Exactly the codes 97 to 122 change, by 32 |
| HeaderAssembly.HttpParser.HeaderFieldData | http_in_c/http/parser.c:278-298 | The callback on the buffers takes the specified step |
| HeaderAssembly.HttpParser.OnHeadersComplete | http_in_c/http/parser.c:352-374 | The callback on the buffers takes the specified step, and the target is set only once |
| HeaderAssembly.HttpParser.Consume | http_in_c/http/parser.c:195-398 | Run over all pieces of any messages, the callbacks deliver exactly the assembled messages |

## Left out

- Sockets, epoll and pthread creation, logging, mains and clients: plumbing; the kernel appears as
  nondeterministic outcomes. accept() failing with anything but EAGAIN, which the source answers with an
  assertion, is not a step of the machine.
- llhttp: not part of this model; it is a source of callbacks here, and in the asynchronous server a call
  that may complete messages.
- ReactorProgram.AsyncServer.Run: it ends when the given reports are used up; during a drain input arrives
  before finitely many turns only, as the loop need not end otherwise; the exit for a registered
  cross-thread queue is absent.
- Message_serialize and the keep-alive header of async_handler_handle_response: a response is an opaque
  non-empty byte sequence, put into a buffer of exactly its size.
- The reactor's cross-thread queue, timers and closing: they do not touch the connection protocol.
- UrlTheorems.AcceptedLanguage: when the host segment ends beyond 65535 characters the parser looks for
  the host in the wrong place; LongNameAccepted says what comes of a plain host name, and other hosts of
  that length are not described.
- UrlTheorems.AcceptedFields: order and disjointness are for at most 65535 characters, beyond which
  offsets are reduced modulo 65536; ReportedInFull is for any length.
- Print-after-parse for URLs: an empty userinfo, a trailing `?` and repeated `#` are accepted but not
  recorded in the field table.
- The non-strict configuration of the URL parser: a build option that only widens two character classes.
- The demo connection and handler: their write path compares where it should assign.
- BufferChain_add_front, BufferChain_remove_iter and BufferChain_eq_cstr: the first two do not maintain
  the size, the third is a prefix test.
- The workers' message loop and the sync connection: serving a socket is one opaque turn.
- BlockingQueueObject.Queue.AddOnce: the waiting loop and the mutex are steps of QueueMachine, not of the
  object.
- Cbuffer's growth and its limit of one mebibyte: buffers in HeaderAssembly are unbounded strings.
- Status, method and version callbacks: the method and version callbacks return at once; version and
  method numbers are copied into the message and read by nothing modelled; the status callback serves
  responses only and puts the reason phrase into the message, which asserts that it was not there yet, so
  that a phrase in two non-empty pieces ends the program. No header, body or target depends on them.
- Allocation failure and tag checks: both end the process at once; every object here is live and of its
  class, which is what the tag checks confirm.
