/**
 * The demo framing protocol: SOH, an opcode, STX, a printable body, ETX, an LRC byte; EOT and other
 * bytes between frames are skipped.  The parser keeps its state across buffers and stops after each
 * message, so a buffer is presented again until it is empty.
 */
module DemoProtocol {
  import opened Common
  import opened IoBufferObject

  datatype ParserState = Idle | Opcode | StxWait | Body | Lrc | ErrorRecovery
  datatype DemoMessage = DemoMessage(isRequest: bool, body: Bytes, lrc: Byte)

  /** What the parser tells its owner: a message, or that a framing error ended a buffer. */
  datatype Event = Delivered(message: DemoMessage) | FramingError

  datatype Parser = Parser(state: ParserState, current: Option<DemoMessage>)

  const SOH: Byte := 1
  const STX: Byte := 2
  const ETX: Byte := 3
  const EOT: Byte := 4

  const NewMessage := DemoMessage(false, [], 0)
  const NewParser := Parser(Idle, None)

  /** isprint() on a signed char: bytes from 128 on are negative and not printable. */
  predicate IsPrint(ch: Byte) { 32 <= ch <= 126 }

  /** One byte; `last` tells whether it is the last one of the buffer.  An event makes the parser return. */
  function ParseByte(p: Parser, ch: Byte, last: bool): (Parser, Option<Event>) {
    match p.state
    case Idle =>
      (Parser(if ch == SOH then Opcode else Idle, if p.current.None? then Some(NewMessage) else p.current), None)
    case Opcode =>
      if (ch == 'R' as int || ch == 'Q' as int) && p.current.Some?
      then (Parser(StxWait, Some(p.current.value.(isRequest := ch == 'Q' as int))), None)
      else (p.(state := ErrorRecovery), None)
    case StxWait => (p.(state := if ch == STX then Body else ErrorRecovery), None)
    case Body =>
      if IsPrint(ch) && p.current.Some?
      then (p.(current := Some(p.current.value.(body := p.current.value.body + [ch]))), None)
      else (p.(state := if ch == ETX then Lrc else ErrorRecovery), None)
    case Lrc =>
      (Parser(Idle, Some(NewMessage)),
       if p.current.Some? then Some(Delivered(p.current.value.(lrc := ch))) else None)
    case ErrorRecovery =>
      if last then (p.(current := Some(NewMessage)), Some(FramingError))
      else (p.(state := if ch == SOH then Opcode else ErrorRecovery), None)
  }

  /** Past Idle there is a current message, so the source never follows a null one. */
  predicate Ready(p: Parser) { p.state == Idle || p.current.Some? }

  datatype Consumed = Consumed(parser: Parser, event: Option<Event>, count: nat)

  /** DemoParser_consume on the unread bytes of a buffer. */
  function Consume(p: Parser, buf: Bytes): (r: Consumed)
    ensures r.count <= |buf| && (buf != [] ==> r.count > 0)
    ensures r.event.None? ==> r.count == |buf|
    decreases |buf|
  {
    if buf == [] then Consumed(p, None, 0)
    else
      var (q, e) := ParseByte(p, buf[0], |buf| == 1);
      if e.Some? then Consumed(q, e, 1)
      else
        var r := Consume(q, buf[1..]);
        r.(count := r.count + 1)
  }

  function ToSeq(e: Option<Event>): seq<Event> { if e.Some? then [e.value] else [] }

  /** A parser and everything it has told its owner. */
  datatype Progress = Progress(parser: Parser, events: seq<Event>)

  /** One buffer, presented again until it is empty. */
  function Present(g: Progress, buf: Bytes): Progress
    decreases |buf|
  {
    if buf == [] then g
    else
      var r := Consume(g.parser, buf);
      Present(Progress(r.parser, g.events + ToSeq(r.event)), buf[r.count..])
  }

  /** Buffer after buffer. */
  function PresentAll(g: Progress, chunks: seq<Bytes>): Progress
    decreases |chunks|
  {
    if chunks == [] then g else PresentAll(Present(g, chunks[0]), chunks[1..])
  }

  function Concat(chunks: seq<Bytes>): Bytes {
    if chunks == [] then [] else chunks[0] + Concat(chunks[1..])
  }

  /** `chunks` is one way to cut the stream `s` into non-empty buffers. */
  predicate Cuts(chunks: seq<Bytes>, s: Bytes) {
    (forall i :: 0 <= i < |chunks| ==> chunks[i] != []) && Concat(chunks) == s
  }

  // ---------------------------------------------------------------- byte by byte

  function Step(g: Progress, ch: Byte, last: bool): Progress {
    var (q, e) := ParseByte(g.parser, ch, last);
    Progress(q, g.events + ToSeq(e))
  }

  /** One buffer byte by byte, without the returns in between. */
  function Fold(g: Progress, buf: Bytes): Progress
    decreases |buf|
  {
    if buf == [] then g else Fold(Step(g, buf[0], |buf| == 1), buf[1..])
  }

  lemma {:induction false} ConsumeIsFold(g: Progress, buf: Bytes)
    requires buf != []
    ensures var r := Consume(g.parser, buf);
      Fold(g, buf) == Fold(Progress(r.parser, g.events + ToSeq(r.event)), buf[r.count..])
    decreases |buf|
  {
    hide ParseByte;
    var g1 := Step(g, buf[0], |buf| == 1);
    var (q, e) := ParseByte(g.parser, buf[0], |buf| == 1);
    var r := Consume(g.parser, buf);
    if e.None? {
      assert g.events + ToSeq(e) == g.events;
      if |buf| == 1 {
        assert g1.events + ToSeq(r.event) == g1.events;
        assert buf[r.count..] == buf[1..];
      } else {
        ConsumeIsFold(g1, buf[1..]);
        assert buf[1..][r.count - 1..] == buf[r.count..];
      }
    }
  }

  /** Returning after each message and presenting the rest again loses and repeats nothing. */
  lemma {:induction false} PresentIsFold(g: Progress, buf: Bytes)
    ensures Present(g, buf) == Fold(g, buf)
    decreases |buf|
  {
    hide ParseByte;
    if buf != [] {
      var r := Consume(g.parser, buf);
      ConsumeIsFold(g, buf);
      PresentIsFold(Progress(r.parser, g.events + ToSeq(r.event)), buf[r.count..]);
    }
  }

  // ---------------------------------------------------------------- chunking

  /** How many bytes of the stream are left when the parser first enters error recovery. */
  function LeftInRecovery(p: Parser, s: Bytes): nat
    decreases |s|
  {
    if s == [] then 0
    else if p.state == ErrorRecovery then |s|
    else LeftInRecovery(ParseByte(p, s[0], false).0, s[1..])
  }

  /** Outside error recovery, where the buffer ends does not matter. */
  lemma {:induction false} LastIrrelevant(g: Progress, ch: Byte)
    requires g.parser.state != ErrorRecovery
    ensures Step(g, ch, true) == Step(g, ch, false)
  {
  }

  lemma {:induction false} FoldSplit(g: Progress, a: Bytes, b: Bytes)
    requires b != [] && LeftInRecovery(g.parser, a + b) <= 1
    ensures Fold(g, a + b) == Fold(Fold(g, a), b)
    ensures LeftInRecovery(Fold(g, a).parser, b) <= 1
    decreases |a|
  {
    if a == [] {
      assert a + b == b;
    } else {
      assert (a + b)[1..] == a[1..] + b;
      LastIrrelevant(g, a[0]);
      FoldSplit(Step(g, a[0], false), a[1..], b);
    }
  }

  lemma {:induction false} ConcatNonEmpty(chunks: seq<Bytes>)
    requires chunks != [] && chunks[0] != []
    ensures Concat(chunks) != []
  {
  }

  lemma {:induction false} ChunksAreFold(g: Progress, chunks: seq<Bytes>)
    requires Cuts(chunks, Concat(chunks)) && LeftInRecovery(g.parser, Concat(chunks)) <= 1
    ensures PresentAll(g, chunks) == Fold(g, Concat(chunks))
    decreases |chunks|
  {
    if chunks != [] {
      PresentIsFold(g, chunks[0]);
      var rest := chunks[1..];
      if rest == [] {
        assert chunks[0] + Concat(rest) == chunks[0];
      } else {
        ConcatNonEmpty(rest);
        FoldSplit(g, chunks[0], Concat(rest));
        ChunksAreFold(Fold(g, chunks[0]), rest);
      }
    }
  }

  /** Every byte in a buffer of its own. */
  function Singles(s: Bytes): seq<Bytes> {
    if s == [] then [] else [[s[0]]] + Singles(s[1..])
  }

  lemma {:induction false} SinglesCut(s: Bytes)
    ensures Cuts(Singles(s), s)
    decreases |s|
  {
    if s != [] {
      SinglesCut(s[1..]);
      assert Singles(s)[1..] == Singles(s[1..]);
    }
  }

  lemma {:induction false} PresentOne(g: Progress, s: Bytes)
    requires s != []
    ensures PresentAll(g, Singles(s)) == PresentAll(Step(g, s[0], true), Singles(s[1..]))
  {
    hide ParseByte;
    PresentIsFold(g, [s[0]]);
    assert Singles(s)[1..] == Singles(s[1..]);
    assert Fold(g, [s[0]]) == Fold(Step(g, s[0], true), []);
  }

  /** In error recovery, a buffer of one byte always reports an error and stays there. */
  lemma {:induction false} SinglesReportEach(g: Progress, s: Bytes)
    requires g.parser.state == ErrorRecovery
    ensures |PresentAll(g, Singles(s)).events| == |g.events| + |s|
    decreases |s|
  {
    if s != [] {
      PresentOne(g, s);
      SinglesReportEach(Step(g, s[0], true), s[1..]);
    }
  }

  lemma {:induction false} FoldReportsAtMost(g: Progress, s: Bytes)
    ensures |Fold(g, s).events| <= |g.events| + |s|
    decreases |s|
  {
    hide ParseByte;
    if s != [] { FoldReportsAtMost(Step(g, s[0], |s| == 1), s[1..]); }
  }

  lemma {:induction false} ChunkingMatters(g: Progress, s: Bytes)
    requires LeftInRecovery(g.parser, s) >= 2
    ensures |Fold(g, s).events| < |PresentAll(g, Singles(s)).events|
    decreases |s|
  {
    if g.parser.state == ErrorRecovery {
      SinglesReportEach(g, s);
      FoldReportsAtMost(Step(g, s[0], false), s[1..]);
      assert Step(g, s[0], false).events == g.events;
    } else {
      PresentOne(g, s);
      LastIrrelevant(g, s[0]);
      ChunkingMatters(Step(g, s[0], |s| == 1), s[1..]);
    }
  }

  ghost predicate ChunkingIndependent(g: Progress, s: Bytes) {
    forall a, b :: Cuts(a, s) && Cuts(b, s) ==> PresentAll(g, a) == PresentAll(g, b)
  }

  /**
   * All ways to cut a stream into buffers give the same events and the same parser exactly when at
   * most one byte follows the first framing error.
   */
  lemma {:induction false} ChunkingTheorem(g: Progress, s: Bytes)
    ensures ChunkingIndependent(g, s) <==> LeftInRecovery(g.parser, s) <= 1
  {
    hide Fold, PresentAll, LeftInRecovery;
    if LeftInRecovery(g.parser, s) <= 1 {
      forall a, b | Cuts(a, s) && Cuts(b, s) ensures PresentAll(g, a) == PresentAll(g, b) {
        ChunksAreFold(g, a);
        ChunksAreFold(g, b);
      }
    } else {
      SinglesCut(s);
      ChunkingMatters(g, s);
      WholeCut(g, s);
      assert Cuts([s], s) && PresentAll(g, [s]) != PresentAll(g, Singles(s));
    }
  }

  /** A frame with a bad opcode, followed by two bytes. */
  const BadFrame: Bytes := [SOH, 'X' as int, 0, 0]

  /** From a new parser: one error if the stream comes as a whole, two if it comes byte by byte. */
  lemma {:induction false} ChunkingExample()
    ensures LeftInRecovery(NewParser, BadFrame) == 2
    ensures PresentAll(Progress(NewParser, []), [BadFrame]).events == [FramingError]
    ensures PresentAll(Progress(NewParser, []), Singles(BadFrame)).events == [FramingError, FramingError]
  {
    hide PresentAll, ParseByte;
    var g := Progress(NewParser, []);
    var s1, s2, s3: Bytes := BadFrame[1..], [0, 0], [0];
    assert s1 == ['X' as int, 0, 0] && s1[1..] == s2 && s2[1..] == s3 && s3[1..] == [];
    BadFrameSteps();
    var g2 := Step(Step(g, SOH, false), 'X' as int, false);
    WholeCut(g, BadFrame);
    assert Fold(g, BadFrame) == Fold(g2, s2) == Fold(Step(g2, 0, false), s3) == Fold(Step(Step(g2, 0, false), 0, true), []);
    PresentOne(g, BadFrame);
    PresentOne(Step(g, SOH, true), s1);
    PresentOne(g2, s2);
    PresentOne(Step(g2, 0, true), s3);
    PresentNone(Step(Step(g2, 0, true), 0, true));
  }

  lemma {:induction false} PresentNone(g: Progress)
    ensures PresentAll(g, Singles([])) == g
  {
  }

  lemma {:induction false} BadFrameSteps()
    ensures var g := Progress(NewParser, []);
      var g2 := Step(Step(g, SOH, false), 'X' as int, false);
      && g2 == Step(Step(g, SOH, true), 'X' as int, true)
      && Step(Step(g2, 0, false), 0, true).events == [FramingError]
      && Step(Step(g2, 0, true), 0, true).events == [FramingError, FramingError]
      && LeftInRecovery(NewParser, BadFrame) == 2
  {
    var g := Progress(NewParser, []);
    var g1, g2 := Step(g, SOH, false), Step(Step(g, SOH, false), 'X' as int, false);
    var s1, s2: Bytes := BadFrame[1..], [0, 0];
    assert s1 == ['X' as int, 0, 0] && s1[1..] == s2;
    assert LeftInRecovery(NewParser, BadFrame) == LeftInRecovery(g1.parser, s1) == LeftInRecovery(g2.parser, s2);
  }

  lemma {:induction false} WholeCut(g: Progress, s: Bytes)
    requires LeftInRecovery(g.parser, s) > 1
    ensures Cuts([s], s) && PresentAll(g, [s]) == Fold(g, s)
  {
    PresentIsFold(g, s);
    assert [s][1..] == [] && s + [] == s;
    assert PresentAll(Present(g, s), []) == Present(g, s);
  }

  // ---------------------------------------------------------------- round trip

  function Serialize(m: DemoMessage): Bytes {
    [SOH, if m.isRequest then 'Q' as int else 'R' as int, STX] + (m.body + [ETX, 'L' as int, EOT])
  }

  function SerializeAll(ms: seq<DemoMessage>): Bytes {
    if ms == [] then [] else Serialize(ms[0]) + SerializeAll(ms[1..])
  }

  predicate Printable(m: DemoMessage) { forall c :: c in m.body ==> IsPrint(c) }

  /** Serialization fixes the LRC byte. */
  function Received(m: DemoMessage): Event { Delivered(m.(lrc := 'L' as int)) }

  function ReceivedAll(ms: seq<DemoMessage>): seq<Event> {
    if ms == [] then [] else [Received(ms[0])] + ReceivedAll(ms[1..])
  }

  /** Between frames: idle, with no message begun. */
  predicate AtRest(p: Parser) { p.state == Idle && (p.current.None? || p.current.value == NewMessage) }

  /** A clean run over `s`: no error recovery, and the same result wherever the buffer ends. */
  predicate CleanRun(g: Progress, s: Bytes, h: Progress)
    decreases |s|
  {
    if s == [] then g == h
    else g.parser.state != ErrorRecovery && CleanRun(Step(g, s[0], false), s[1..], h)
  }

  lemma {:induction false} CleanConcat(g: Progress, a: Bytes, h: Progress, b: Bytes, k: Progress)
    requires CleanRun(g, a, h) && CleanRun(h, b, k)
    ensures CleanRun(g, a + b, k)
    decreases |a|
  {
    hide ParseByte;
    if a == [] {
      assert a + b == b;
    } else {
      assert (a + b)[1..] == a[1..] + b;
      CleanConcat(Step(g, a[0], false), a[1..], h, b, k);
    }
  }

  lemma {:induction false} CleanIsFold(g: Progress, s: Bytes, h: Progress)
    requires CleanRun(g, s, h)
    ensures Fold(g, s) == h && LeftInRecovery(g.parser, s) == 0
    decreases |s|
  {
    if s != [] {
      LastIrrelevant(g, s[0]);
      CleanIsFold(Step(g, s[0], false), s[1..], h);
    }
  }

  lemma {:induction false} BodyRun(g: Progress, body: Bytes, m: DemoMessage)
    requires g.parser == Parser(Body, Some(m)) && forall c :: c in body ==> IsPrint(c)
    ensures CleanRun(g, body, g.(parser := Parser(Body, Some(m.(body := m.body + body)))))
    decreases |body|
  {
    if body == [] {
      assert m.body + body == m.body;
    } else {
      assert body[0] in body && forall c :: c in body[1..] ==> c in body;
      var m1 := m.(body := m.body + [body[0]]);
      var g1 := Step(g, body[0], false);
      assert g1 == g.(parser := Parser(Body, Some(m1)));
      BodyRun(g1, body[1..], m1);
      assert m1.body + body[1..] == m.body + body;
    }
  }

  lemma {:induction false} CleanStep(g: Progress, ch: Byte, h: Progress)
    requires g.parser.state != ErrorRecovery && Step(g, ch, false) == h
    ensures CleanRun(g, [ch], h)
  {
    hide ParseByte;
    assert CleanRun(h, [], h);
  }

  lemma {:induction false} HeadRun(g: Progress, isRequest: bool)
    requires AtRest(g.parser)
    ensures CleanRun(g, [SOH, if isRequest then 'Q' as int else 'R' as int, STX],
                     g.(parser := Parser(Body, Some(NewMessage.(isRequest := isRequest)))))
  {
    var op: Byte := if isRequest then 'Q' as int else 'R' as int;
    var m := NewMessage.(isRequest := isRequest);
    var g1, g2, g3 := g.(parser := Parser(Opcode, Some(NewMessage))), g.(parser := Parser(StxWait, Some(m))), g.(parser := Parser(Body, Some(m)));
    CleanStep(g, SOH, g1);
    CleanStep(g1, op, g2);
    CleanStep(g2, STX, g3);
    CleanConcat(g, [SOH], g1, [op], g2);
    CleanConcat(g, [SOH] + [op], g2, [STX], g3);
    assert [SOH] + [op] + [STX] == [SOH, op, STX];
  }

  lemma {:induction false} FootRun(g: Progress, m: DemoMessage)
    requires g.parser == Parser(Body, Some(m))
    ensures CleanRun(g, [ETX, 'L' as int, EOT], Progress(Parser(Idle, Some(NewMessage)), g.events + [Received(m)]))
  {
    var g1 := g.(parser := Parser(Lrc, Some(m)));
    var g2 := Progress(Parser(Idle, Some(NewMessage)), g.events + [Received(m)]);
    CleanStep(g, ETX, g1);
    CleanStep(g1, 'L' as int, g2);
    CleanStep(g2, EOT, g2);
    CleanConcat(g, [ETX], g1, ['L' as int], g2);
    CleanConcat(g, [ETX] + ['L' as int], g2, [EOT], g2);
    assert [ETX] + ['L' as int] + [EOT] == [ETX, 'L' as int, EOT];
  }

  lemma {:induction false} FrameRun(g: Progress, m: DemoMessage)
    requires AtRest(g.parser) && Printable(m)
    ensures CleanRun(g, Serialize(m), Progress(Parser(Idle, Some(NewMessage)), g.events + [Received(m)]))
  {
    hide CleanRun;
    var m0 := NewMessage.(isRequest := m.isRequest);
    var g1 := g.(parser := Parser(Body, Some(m0)));
    var m1 := m0.(body := m0.body + m.body);
    var g2 := g.(parser := Parser(Body, Some(m1)));
    HeadRun(g, m.isRequest);
    BodyRun(g1, m.body, m0);
    FootRun(g2, m1);
    assert m0.body + m.body == m.body;
    assert Received(m1) == Received(m);
    var h := Progress(Parser(Idle, Some(NewMessage)), g.events + [Received(m)]);
    CleanConcat(g1, m.body, g2, [ETX, 'L' as int, EOT], h);
    CleanConcat(g, [SOH, if m.isRequest then 'Q' as int else 'R' as int, STX], g1, m.body + [ETX, 'L' as int, EOT], h);
  }

  lemma {:induction false} CleanNothing(g: Progress)
    ensures CleanRun(g, [], g)
  {
  }

  lemma {:induction false} StreamRun(g: Progress, ms: seq<DemoMessage>) returns (h: Progress)
    requires AtRest(g.parser) && forall i :: 0 <= i < |ms| ==> Printable(ms[i])
    ensures CleanRun(g, SerializeAll(ms), h) && AtRest(h.parser) && h.events == g.events + ReceivedAll(ms)
    decreases |ms|
  {
    hide CleanRun, Serialize, Printable;
    if ms == [] {
      h := g;
      CleanNothing(g);
      assert g.events + [] == g.events;
    } else {
      FrameRun(g, ms[0]);
      var g1 := Progress(Parser(Idle, Some(NewMessage)), g.events + [Received(ms[0])]);
      h := StreamRun(g1, ms[1..]);
      CleanConcat(g, Serialize(ms[0]), g1, SerializeAll(ms[1..]), h);
      assert h.events == g.events + ([Received(ms[0])] + ReceivedAll(ms[1..]));
    }
  }

  /**
   * Any messages with printable bodies, serialized one after the other and cut into buffers in any
   * way, are delivered exactly once, in order, with opcode and body intact, and nothing else is.
   */
  lemma {:induction false} RoundTrip(p: Parser, ms: seq<DemoMessage>, chunks: seq<Bytes>)
    requires AtRest(p) && (forall i :: 0 <= i < |ms| ==> Printable(ms[i])) && Cuts(chunks, SerializeAll(ms))
    ensures var r := PresentAll(Progress(p, []), chunks);
      r.events == ReceivedAll(ms) && AtRest(r.parser)
  {
    hide CleanRun, PresentAll, Fold;
    var g := Progress(p, []);
    var h := StreamRun(g, ms);
    CleanIsFold(g, SerializeAll(ms), h);
    ChunksAreFold(g, chunks);
  }

  // ---------------------------------------------------------------- the program

  /** The result of a call whose loop has reached position `i` without an event. */
  function ConsumeFrom(p: Parser, buf: Bytes, i: nat): Consumed
    requires i <= |buf|
  {
    var r := Consume(p, buf[i..]);
    r.(count := r.count + i)
  }

  lemma {:induction false} ConsumeStart(p: Parser, buf: Bytes)
    ensures ConsumeFrom(p, buf, 0) == Consume(p, buf)
  {
    assert buf[0..] == buf;
  }

  lemma {:induction false} ConsumeNext(p: Parser, buf: Bytes, i: nat)
    requires i < |buf|
    ensures var (q, e) := ParseByte(p, buf[i], i == |buf| - 1);
      ConsumeFrom(p, buf, i) == if e.Some? then Consumed(q, e, i + 1) else ConsumeFrom(q, buf, i + 1)
  {
    hide ParseByte;
    assert buf[i..][1..] == buf[i + 1..];
  }

  lemma {:induction false} ConsumeEnd(p: Parser, buf: Bytes)
    ensures ConsumeFrom(p, buf, |buf|) == Consumed(p, None, |buf|)
  {
    assert buf[|buf|..] == [];
  }

  class DemoParser {
    var state: ParserState
    var current: Option<DemoMessage>
    var events: seq<Event>            // calls of on_message_complete, oldest first

    ghost function View(): Parser
      reads this
    {
      Parser(state, current)
    }

    constructor ()
      ensures View() == NewParser && events == []
    {
      state, current, events := Idle, None, [];
    }

    /** The switch in the byte loop; `done` means that the parser returns to its owner. */
    method TakeByte(ch: Byte, last: bool) returns (done: bool)
      requires Ready(View())
      modifies this
      ensures Ready(View()) && View() == ParseByte(old(View()), ch, last).0
      ensures var e := ParseByte(old(View()), ch, last).1; done == e.Some? && events == old(events) + ToSeq(e)
    {
      done := false;
      match state {
        case Idle =>
          if current.None? {
            current := Some(NewMessage);
          }
          if ch == SOH {
            state := Opcode;
          }
        case Opcode =>
          if ch == 'R' as int || ch == 'Q' as int {
            current := Some(current.value.(isRequest := ch == 'Q' as int));
            state := StxWait;
          } else {
            state := ErrorRecovery;
          }
        case StxWait =>
          state := if ch == STX then Body else ErrorRecovery;
        case Body =>
          if IsPrint(ch) {
            current := Some(current.value.(body := current.value.body + [ch]));
          } else if ch == ETX {
            state := Lrc;
          } else {
            state := ErrorRecovery;
          }
        case Lrc =>
          state := Idle;
          events := events + [Delivered(current.value.(lrc := ch))];
          current := Some(NewMessage);
          done := true;
        case ErrorRecovery =>
          if ch == SOH && !last {
            state := Opcode;
          } else if last {
            events := events + [FramingError];
            current := Some(NewMessage);
            done := true;
          }
      }
    }

    /** One pass over the unread bytes of a buffer, up to the first message or the end. */
    method ConsumeBuffer(iob: IOBuffer)
      requires Ready(View()) && iob.Valid()
      modifies this, iob`ptr, iob`remaining
      ensures Ready(View()) && iob.Valid()
      ensures var r := Consume(old(View()), old(iob.Data()));
        View() == r.parser && events == old(events) + ToSeq(r.event) && iob.Data() == old(iob.Data())[r.count..]
    {
      hide ParseByte, Ready, Consume, ConsumeFrom;
      var length := iob.remaining;
      var buf := iob.mem[iob.ptr..iob.ptr + length];
      ghost var r := Consume(View(), buf);
      ConsumeStart(View(), buf);
      for i := 0 to length
        modifies this, iob`ptr, iob`remaining
        invariant Ready(View()) && events == old(events)
        invariant iob.ptr == old(iob.ptr) && iob.remaining == old(iob.remaining)
        invariant ConsumeFrom(View(), buf, i) == r
      {
        ConsumeNext(View(), buf, i);
        var done := TakeByte(buf[i], i == length - 1);
        if done {
          iob.Consume(i + 1);
          return;
        }
      }
      ConsumeEnd(View(), buf);
      iob.Consume(length);
    }

    /** The owner's side: present the buffer again until nothing is left in it. */
    method ConsumeAll(iob: IOBuffer)
      requires Ready(View()) && iob.Valid()
      modifies this, iob`ptr, iob`remaining
      ensures Ready(View()) && iob.Valid() && iob.Data() == []
      ensures Progress(View(), events) == Present(old(Progress(View(), events)), old(iob.Data()))
    {
      while iob.remaining > 0
        modifies this, iob`ptr, iob`remaining
        invariant Ready(View()) && iob.Valid()
        invariant Present(Progress(View(), events), iob.Data()) == Present(old(Progress(View(), events)), old(iob.Data()))
        decreases iob.remaining
      {
        ConsumeBuffer(iob);
      }
    }
  }
}
