/**
 * http/parser.c: messages put together from the pieces the HTTP tokenizer hands to its callbacks.
 * The specification is a fold of `Step` over callback events; the theorems say which message comes out
 * of every way of cutting a message into pieces.
 */
module HeaderAssembly {
  import opened Common

  datatype HeaderState = Nothing | InField | InValue

  datatype Pair = Pair(key: string, value: string)

  datatype Message = Message(headers: seq<Pair>, target: string, body: string)

  /** `headerState` is not reset between messages; `delivered` is what the message handler was given. */
  datatype Parser = Parser(
    headerState: HeaderState, url: string, name: string, value: string, current: Option<Message>, delivered: seq<Message>)

  datatype Event = Begin | Url(s: string) | Field(s: string) | Value(s: string) | HeadersComplete | Body(s: string) | Complete

  /** What a callback leaves: a parser, or a failed assertion (or a message that is not there). */
  datatype World = Running(p: Parser) | Failed

  const NewMessage := Message([], "", "")

  function ToUpper(c: char): char {
    if 'a' <= c <= 'z' then c - 'a' + 'A' else c
  }

  function Upper(s: string): (r: string)
    ensures |r| == |s| && forall i :: 0 <= i < |s| ==> r[i] == ToUpper(s[i])
  {
    seq(|s|, i requires 0 <= i < |s| => ToUpper(s[i]))
  }

  /** toupper() in the C locale, by code points: 97 to 122 lose 32, nothing else changes. */
  lemma {:induction false} UpperByCode(c: char)
    ensures ToUpper(c) as int == if 97 <= c as int <= 122 then c as int - 32 else c as int
  {
  }

  /** A C string ends at its first NUL. */
  function CString(s: string): string {
    if s == "" || s[0] == '\0' then "" else [s[0]] + CString(s[1..])
  }

  function Flush(p: Parser): Parser {
    if p.name != "" && p.current.Some? then
      p.(name := "", value := "",
         current := Some(p.current.value.(headers := p.current.value.headers + [Pair(Upper(p.name), p.value)])))
    else p
  }

  function Step(p: Parser, e: Event): World {
    if e.Begin? then
      Running(p.(url := "", name := "", value := "", current := Some(NewMessage)))
    else if p.current.None? then Failed
    else match e
      case Url(s) => Running(p.(url := p.url + s))
      case Field(s) =>
        var f := if p.headerState == InField then p else Flush(p);
        Running(f.(name := f.name + s, headerState := InField))
      case Value(s) =>
        if p.headerState == Nothing then Failed
        else Running(p.(value := if p.headerState == InField then s else p.value + s, headerState := InValue))
      case HeadersComplete =>
        var f := Flush(p);
        if f.url == "" then Running(f)
        else if f.current.value.target != "" then Failed
        else Running(f.(current := Some(f.current.value.(target := CString(f.url)))))
      case Body(s) =>
        if s == "" then Failed                             // IOBuffer_commit asserts a positive count
        else Running(p.(current := Some(p.current.value.(body := p.current.value.body + s))))
      case Complete => Running(p.(current := Some(NewMessage), delivered := p.delivered + [p.current.value]))
  }

  function Feed(w: World, es: seq<Event>): World
    decreases |es|
  {
    if es == [] || w.Failed? then w else Feed(Step(w.p, es[0]), es[1..])
  }

  // ---- messages cut into pieces ------------------------------------------------------------------

  /** One header line: the pieces of its name and of its value. */
  datatype Header = Header(names: seq<string>, values: seq<string>)

  datatype Wire = Wire(url: seq<string>, headers: seq<Header>, body: seq<string>, trailers: seq<Header>)

  function Concat(pieces: seq<string>): string {
    if pieces == [] then "" else pieces[0] + Concat(pieces[1..])
  }

  function FieldEvents(pieces: seq<string>): seq<Event> {
    seq(|pieces|, i requires 0 <= i < |pieces| => Field(pieces[i]))
  }

  function ValueEvents(pieces: seq<string>): seq<Event> {
    seq(|pieces|, i requires 0 <= i < |pieces| => Value(pieces[i]))
  }

  function UrlEvents(pieces: seq<string>): seq<Event> {
    seq(|pieces|, i requires 0 <= i < |pieces| => Url(pieces[i]))
  }

  function BodyEvents(pieces: seq<string>): seq<Event> {
    seq(|pieces|, i requires 0 <= i < |pieces| => Body(pieces[i]))
  }

  function HeaderEvents(hs: seq<Header>): seq<Event> {
    if hs == [] then [] else FieldEvents(hs[0].names) + ValueEvents(hs[0].values) + HeaderEvents(hs[1..])
  }

  function Events(w: Wire): seq<Event> {
    [Begin] + UrlEvents(w.url) + HeaderEvents(w.headers) + [HeadersComplete] + BodyEvents(w.body)
    + HeaderEvents(w.trailers) + [Complete]
  }

  function AllEvents(ws: seq<Wire>): seq<Event> {
    if ws == [] then [] else Events(ws[0]) + AllEvents(ws[1..])
  }

  /** Header names are not empty; their pieces may be. */
  predicate Named(hs: seq<Header>) {
    forall i :: 0 <= i < |hs| ==> Concat(hs[i].names) != ""
  }

  predicate WellNamed(ws: seq<Wire>) {
    forall i :: 0 <= i < |ws| ==> Named(ws[i].headers) && Named(ws[i].trailers)
  }

  predicate NoEmptyPiece(pieces: seq<string>) {
    forall i :: 0 <= i < |pieces| ==> pieces[i] != ""
  }

  /** No body piece is empty. */
  predicate BodiesCut(ws: seq<Wire>) {
    forall i :: 0 <= i < |ws| ==> NoEmptyPiece(ws[i].body)
  }

  /** The header lines that were sent. */
  function Pairs(hs: seq<Header>): (r: seq<Pair>)
    ensures |r| == |hs|
  {
    seq(|hs|, i requires 0 <= i < |hs| => Pair(Upper(Concat(hs[i].names)), Concat(hs[i].values)))
  }

  /** A header without any value piece runs into the one after it. */
  function Merged(hs: seq<Header>): (r: seq<Header>)
    ensures |r| <= |hs| && (hs != [] ==> r != [])
    decreases |hs|
  {
    if |hs| <= 1 then hs
    else if hs[0].values == [] then Merged([Header(hs[0].names + hs[1].names, hs[1].values)] + hs[2..])
    else [hs[0]] + Merged(hs[1..])
  }

  function ButLast<T>(s: seq<T>): seq<T> {
    if s == [] then [] else s[..|s| - 1]
  }

  /** The message the parser makes of a wire: see DeliversAssembled. */
  function Assembled(w: Wire): Message {
    Message(Pairs(Merged(w.headers)) + ButLast(Pairs(Merged(w.trailers))), CString(Concat(w.url)), Concat(w.body))
  }

  /** The message that was sent. */
  function Sent(w: Wire): Message {
    Message(Pairs(w.headers) + Pairs(w.trailers), Concat(w.url), Concat(w.body))
  }

  // ---- feeding in parts ------------------------------------------------------------------------

  lemma {:induction false} FeedAppend(w: World, es: seq<Event>, fs: seq<Event>)
    ensures Feed(w, es + fs) == Feed(Feed(w, es), fs)
    decreases |es|
  {
    hide Step;
    if es == [] {
      assert es + fs == fs;
    } else if w.Running? {
      FeedAppend(Step(w.p, es[0]), es[1..], fs);
      assert (es + fs)[1..] == es[1..] + fs;
    }
  }

  lemma {:induction false} FeedNone(w: World)
    ensures Feed(w, []) == w
  {
  }

  lemma {:induction false} FeedOne(p: Parser, es: seq<Event>)
    requires es != []
    ensures Feed(Running(p), es) == Feed(Step(p, es[0]), es[1..])
  {
    hide Step;
  }

  lemma {:induction false} ConcatAppend(a: seq<string>, b: seq<string>)
    ensures Concat(a + b) == Concat(a) + Concat(b)
    decreases |a|
  {
    if a == [] {
      assert a + b == b;
    } else {
      ConcatAppend(a[1..], b);
      assert (a + b)[1..] == a[1..] + b;
    }
  }

  lemma {:induction false} FeedUrl(p: Parser, pieces: seq<string>)
    requires p.current.Some?
    ensures Feed(Running(p), UrlEvents(pieces)) == Running(p.(url := p.url + Concat(pieces)))
    decreases |pieces|
  {
    hide Feed, Flush;
    if pieces == [] {
      FeedNone(Running(p));
      assert p.url + "" == p.url;
    } else {
      var q := p.(url := p.url + pieces[0]);
      FeedUrl(q, pieces[1..]);
      FeedOne(p, UrlEvents(pieces));
      assert UrlEvents(pieces)[1..] == UrlEvents(pieces[1..]);
      assert q.url + Concat(pieces[1..]) == p.url + Concat(pieces);
    }
  }

  lemma {:induction false} FeedBody(p: Parser, pieces: seq<string>)
    requires p.current.Some? && NoEmptyPiece(pieces)
    ensures Feed(Running(p), BodyEvents(pieces))
         == Running(p.(current := Some(p.current.value.(body := p.current.value.body + Concat(pieces)))))
    decreases |pieces|
  {
    hide Feed, Flush;
    if pieces == [] {
      FeedNone(Running(p));
      assert p.current.value.body + "" == p.current.value.body;
    } else {
      var q := p.(current := Some(p.current.value.(body := p.current.value.body + pieces[0])));
      FeedBody(q, pieces[1..]);
      FeedOne(p, BodyEvents(pieces));
      assert BodyEvents(pieces)[1..] == BodyEvents(pieces[1..]);
      assert q.current.value.body + Concat(pieces[1..]) == p.current.value.body + Concat(pieces);
    }
  }

  lemma {:induction false} FeedFailed(es: seq<Event>)
    ensures Feed(Failed, es) == Failed
  {
  }

  /** An empty body piece is fatal, wherever it comes. */
  lemma {:induction false} FeedEmptyPiece(p: Parser, pieces: seq<string>)
    requires p.current.Some? && !NoEmptyPiece(pieces)
    ensures Feed(Running(p), BodyEvents(pieces)) == Failed
    decreases |pieces|
  {
    hide Feed, Flush;
    FeedOne(p, BodyEvents(pieces));
    assert BodyEvents(pieces)[1..] == BodyEvents(pieces[1..]);
    if pieces[0] == "" {
      FeedFailed(BodyEvents(pieces[1..]));
    } else {
      FeedEmptyPiece(p.(current := Some(p.current.value.(body := p.current.value.body + pieces[0]))), pieces[1..]);
    }
  }

  /** Name pieces after the first simply accumulate. */
  lemma {:induction false} FeedMoreName(p: Parser, pieces: seq<string>)
    requires p.current.Some? && p.headerState == InField
    ensures Feed(Running(p), FieldEvents(pieces)) == Running(p.(name := p.name + Concat(pieces)))
    decreases |pieces|
  {
    hide Feed, Flush;
    if pieces == [] {
      FeedNone(Running(p));
      assert p.name + "" == p.name;
    } else {
      var q := p.(name := p.name + pieces[0]);
      FeedMoreName(q, pieces[1..]);
      FeedOne(p, FieldEvents(pieces));
      assert FieldEvents(pieces)[1..] == FieldEvents(pieces[1..]);
      assert q.name + Concat(pieces[1..]) == p.name + Concat(pieces);
    }
  }

  lemma {:induction false} FeedMoreValue(p: Parser, pieces: seq<string>)
    requires p.current.Some? && p.headerState == InValue
    ensures Feed(Running(p), ValueEvents(pieces)) == Running(p.(value := p.value + Concat(pieces)))
    decreases |pieces|
  {
    hide Feed, Flush;
    if pieces == [] {
      FeedNone(Running(p));
      assert p.value + "" == p.value;
    } else {
      var q := p.(value := p.value + pieces[0]);
      FeedMoreValue(q, pieces[1..]);
      FeedOne(p, ValueEvents(pieces));
      assert ValueEvents(pieces)[1..] == ValueEvents(pieces[1..]);
      assert q.value + Concat(pieces[1..]) == p.value + Concat(pieces);
    }
  }

  // ---- one header, however it is cut -------------------------------------------------------------

  function AbsorbName(p: Parser, name: string): Parser {
    var f := if p.headerState == InField then p else Flush(p);
    f.(name := f.name + name, headerState := InField)
  }

  function AbsorbValue(p: Parser, values: seq<string>): Parser {
    if values == [] then p else p.(value := Concat(values), headerState := InValue)
  }

  /** The effect of a whole header on the parser. */
  function Absorb(p: Parser, h: Header): Parser {
    AbsorbValue(AbsorbName(p, Concat(h.names)), h.values)
  }

  lemma {:induction false} FlushKeeps(p: Parser)
    ensures Flush(p).current.Some? == p.current.Some?
  {
  }

  lemma {:induction false} FeedName(p: Parser, names: seq<string>)
    requires p.current.Some? && names != []
    ensures Feed(Running(p), FieldEvents(names)) == Running(AbsorbName(p, Concat(names)))
  {
    hide Feed, Flush, Step, AbsorbName, Concat;
    var q := AbsorbName(p, names[0]);
    FeedOne(p, FieldEvents(names));
    StepField(p, names[0]);
    FeedMoreName(q, names[1..]);
    assert FieldEvents(names)[1..] == FieldEvents(names[1..]);
    MoreName(p, names);
  }

  lemma {:induction false} StepField(p: Parser, s: string)
    requires p.current.Some?
    ensures Step(p, Field(s)) == Running(AbsorbName(p, s))
    ensures AbsorbName(p, s).headerState == InField && AbsorbName(p, s).current.Some?
  {
    hide Flush;
    FlushKeeps(p);
  }

  lemma {:induction false} MoreName(p: Parser, names: seq<string>)
    requires names != []
    ensures var q := AbsorbName(p, names[0]); q.(name := q.name + Concat(names[1..])) == AbsorbName(p, Concat(names))
  {
    hide Flush;
    var f := if p.headerState == InField then p else Flush(p);
    assert f.name + (names[0] + Concat(names[1..])) == (f.name + names[0]) + Concat(names[1..]);
  }

  lemma {:induction false} FeedValue(p: Parser, values: seq<string>)
    requires p.current.Some? && p.headerState == InField
    ensures Feed(Running(p), ValueEvents(values)) == Running(AbsorbValue(p, values))
  {
    hide Feed, Flush;
    if values == [] {
      FeedNone(Running(p));
    } else {
      FeedOne(p, ValueEvents(values));
      FeedMoreValue(p.(value := values[0], headerState := InValue), values[1..]);
      assert ValueEvents(values)[1..] == ValueEvents(values[1..]);
    }
  }

  lemma {:induction false} FeedHeader(p: Parser, h: Header)
    requires p.current.Some? && Concat(h.names) != ""
    ensures Feed(Running(p), FieldEvents(h.names) + ValueEvents(h.values)) == Running(Absorb(p, h))
    ensures Absorb(p, h).current.Some?
  {
    hide Step, Feed;
    FeedAppend(Running(p), FieldEvents(h.names), ValueEvents(h.values));
    FeedName(p, h.names);
    FeedValue(AbsorbName(p, Concat(h.names)), h.values);
  }

  function AbsorbAll(p: Parser, hs: seq<Header>): Parser
    decreases |hs|
  {
    if hs == [] then p else AbsorbAll(Absorb(p, hs[0]), hs[1..])
  }

  lemma {:induction false} FeedHeaders(p: Parser, hs: seq<Header>)
    requires p.current.Some? && Named(hs)
    ensures Feed(Running(p), HeaderEvents(hs)) == Running(AbsorbAll(p, hs))
    decreases |hs|
  {
    hide Step, Absorb, FieldEvents, ValueEvents;
    if hs != [] {
      var first := FieldEvents(hs[0].names) + ValueEvents(hs[0].values);
      FeedAppend(Running(p), first, HeaderEvents(hs[1..]));
      FeedHeader(p, hs[0]);
      FeedHeaders(Absorb(p, hs[0]), hs[1..]);
    }
  }

  // ---- a list of headers -------------------------------------------------------------------------

  /** Between headers: nothing is pending, or a complete header is. */
  predicate AtBoundary(p: Parser) {
    p.current.Some? && (if p.name == "" then p.value == "" else p.headerState == InValue)
  }

  /** A header without value pieces and its successor act as one header. */
  lemma {:induction false} AbsorbMerges(p: Parser, h: Header, g: Header)
    requires h.values == []
    ensures Absorb(Absorb(p, h), g) == Absorb(p, Header(h.names + g.names, g.values))
  {
    ConcatAppend(h.names, g.names);
    var f := if p.headerState == InField then p else Flush(p);
    assert f.name + (Concat(h.names) + Concat(g.names)) == (f.name + Concat(h.names)) + Concat(g.names);
  }

  function Pending(p: Parser): seq<Pair> {
    if p.name == "" then [] else [Pair(Upper(p.name), p.value)]
  }

  /** What absorbing headers does: all but the last merged header are in the message, the last is pending. */
  predicate Took(p: Parser, hs: seq<Header>, z: Parser) {
    && p.current.Some? && z.current.Some?
    && z.url == p.url && z.delivered == p.delivered && z.current.value == p.current.value.(headers := z.current.value.headers)
    && z.current.value.headers + Pending(z) == p.current.value.headers + Pending(p) + Pairs(Merged(hs))
    && (z.name == "" ==> z.value == "")
    && (z.name == "" <==> p.name == "" && hs == [])
  }

  /** One header at a boundary. */
  lemma {:induction false} AbsorbOne(p: Parser, h: Header)
    requires AtBoundary(p) && Concat(h.names) != ""
    ensures Took(p, [h], Absorb(p, h)) && (h.values != [] ==> AtBoundary(Absorb(p, h)))
  {
    var z := Absorb(p, h);
    assert Pairs(Merged([h])) == [Pair(Upper(Concat(h.names)), Concat(h.values))];
    if p.name == "" {
      assert "" + Concat(h.names) == Concat(h.names);
      assert p.current.value.headers + [] == p.current.value.headers;
    } else {
      assert "" + Concat(h.names) == Concat(h.names);
      assert Pending(p) == [Pair(Upper(p.name), p.value)];
    }
  }

  lemma {:induction false} TookThen(p: Parser, h: Header, q: Parser, hs: seq<Header>, z: Parser)
    requires Took(p, [h], q) && Took(q, hs, z) && hs != [] && h.values != []
    ensures Took(p, [h] + hs, z)
  {
    var all := [h] + hs;
    assert all[1..] == hs;
    assert Merged(all) == [h] + Merged(hs);
    assert Merged([h]) == [h];
    assert Pairs(Merged(all)) == Pairs([h]) + Pairs(Merged(hs));
  }

  lemma {:induction false} NamedMerge(hs: seq<Header>)
    requires Named(hs) && |hs| > 1
    ensures Named([Header(hs[0].names + hs[1].names, hs[1].values)] + hs[2..])
  {
    ConcatAppend(hs[0].names, hs[1].names);
  }

  lemma {:induction false} AbsorbHeaders(p: Parser, hs: seq<Header>)
    requires AtBoundary(p) && Named(hs)
    ensures Took(p, hs, AbsorbAll(p, hs))
    decreases |hs|
  {
    hide Absorb, Named, Took;
    if hs == [] {
      TookNothing(p);
    } else if |hs| == 1 {
      assert hs == [hs[0]] && Concat(hs[0].names) != "" by { NamedAt(hs); }
      AbsorbOne(p, hs[0]);
      assert AbsorbAll(p, hs) == Absorb(p, hs[0]);
    } else if hs[0].values == [] {
      var g := [Header(hs[0].names + hs[1].names, hs[1].values)] + hs[2..];
      NamedMerge(hs);
      AbsorbHeaders(p, g);
      AbsorbMerges(p, hs[0], hs[1]);
      assert g[1..] == hs[2..] && hs[1..][1..] == hs[2..];
      assert AbsorbAll(p, g) == AbsorbAll(p, hs);
      SameMerged(p, hs, g, AbsorbAll(p, hs));
    } else {
      NamedAt(hs);
      AbsorbOne(p, hs[0]);
      AbsorbHeaders(Absorb(p, hs[0]), hs[1..]);
      TookThen(p, hs[0], Absorb(p, hs[0]), hs[1..], AbsorbAll(p, hs));
      assert [hs[0]] + hs[1..] == hs;
    }
  }

  lemma {:induction false} NamedAt(hs: seq<Header>)
    requires Named(hs) && hs != []
    ensures Concat(hs[0].names) != "" && Named(hs[1..])
  {
  }

  lemma {:induction false} TookNothing(p: Parser)
    requires AtBoundary(p)
    ensures Took(p, [], p)
  {
    assert Pairs(Merged([])) == [];
  }

  lemma {:induction false} SameMerged(p: Parser, hs: seq<Header>, g: seq<Header>, z: Parser)
    requires hs != [] && g != [] && Merged(hs) == Merged(g) && Took(p, g, z)
    ensures Took(p, hs, z)
  {
  }

  // ---- whole messages ----------------------------------------------------------------------------

  /** From Begin to HeadersComplete, whatever an earlier message left behind. */
  lemma {:induction false} HeadPart(p: Parser, w: Wire) returns (z: Parser)
    requires Named(w.headers)
    ensures Feed(Running(p), [Begin] + UrlEvents(w.url) + HeaderEvents(w.headers) + [HeadersComplete]) == Running(z)
    ensures z.name == "" && z.value == "" && z.delivered == p.delivered
    ensures z.current == Some(Message(Pairs(Merged(w.headers)), CString(Concat(w.url)), ""))
  {
    hide Feed, HeaderEvents, UrlEvents, AbsorbAll, Merged, Pairs, Named, CString, Concat, Upper;
    var a := p.(url := "", name := "", value := "", current := Some(NewMessage));
    FeedSingle(p, Begin);
    FeedUrl(a, w.url);
    assert "" + Concat(w.url) == Concat(w.url);
    var b := a.(url := Concat(w.url));
    FeedHeaders(b, w.headers);
    AbsorbHeaders(b, w.headers);
    var c := AbsorbAll(b, w.headers);
    FeedSingle(c, HeadersComplete);
    z := HeadersDone(b, w, c);
    FeedAppend(Running(p), [Begin], UrlEvents(w.url));
    FeedAppend(Running(p), [Begin] + UrlEvents(w.url), HeaderEvents(w.headers));
    FeedAppend(Running(p), [Begin] + UrlEvents(w.url) + HeaderEvents(w.headers), [HeadersComplete]);
  }

  lemma {:induction false} FeedSingle(p: Parser, e: Event)
    ensures Feed(Running(p), [e]) == Step(p, e)
  {
    hide Step;
    FeedOne(p, [e]);
  }

  lemma {:induction false} HeadersDone(b: Parser, w: Wire, c: Parser) returns (z: Parser)
    requires Took(b, w.headers, c) && b.current == Some(NewMessage) && b.name == "" && b.url == Concat(w.url)
    ensures Step(c, HeadersComplete) == Running(z)
    ensures z.name == "" && z.value == "" && z.delivered == b.delivered
    ensures z.current == Some(Message(Pairs(Merged(w.headers)), CString(Concat(w.url)), ""))
  {
    hide Merged, Concat, Upper;
    assert [] + [] + Pairs(Merged(w.headers)) == Pairs(Merged(w.headers));
    assert c.name == "" ==> c.current.value.headers + [] == c.current.value.headers;
    z := Step(c, HeadersComplete).p;
  }

  /** From the body to Complete: the last trailer is still pending and goes with the message's buffers. */
  lemma {:induction false} TailPart(z: Parser, w: Wire) returns (y: Parser)
    requires Named(w.trailers) && NoEmptyPiece(w.body) && z.current.Some? && z.name == "" && z.value == ""
    ensures Feed(Running(z), BodyEvents(w.body) + HeaderEvents(w.trailers) + [Complete]) == Running(y)
    ensures var m := z.current.value;
      y.delivered == z.delivered + [m.(headers := m.headers + ButLast(Pairs(Merged(w.trailers))), body := m.body + Concat(w.body))]
  {
    hide Feed, HeaderEvents, BodyEvents, AbsorbAll, Merged, Pairs, Named, Concat, Upper;
    var m := z.current.value;
    var a := z.(current := Some(m.(body := m.body + Concat(w.body))));
    FeedBody(z, w.body);
    FeedHeaders(a, w.trailers);
    AbsorbHeaders(a, w.trailers);
    var c := AbsorbAll(a, w.trailers);
    FeedSingle(c, Complete);
    y := Step(c, Complete).p;
    TrailersDone(a, w.trailers, c);
    FeedAppend(Running(z), BodyEvents(w.body), HeaderEvents(w.trailers));
    FeedAppend(Running(z), BodyEvents(w.body) + HeaderEvents(w.trailers), [Complete]);
  }

  lemma {:induction false} TrailersDone(a: Parser, trailers: seq<Header>, c: Parser)
    requires Took(a, trailers, c) && a.name == ""
    ensures c.current.value.headers == a.current.value.headers + ButLast(Pairs(Merged(trailers)))
  {
    hide Merged, Concat, Upper;
    var before, all, after := a.current.value.headers, Pairs(Merged(trailers)), c.current.value.headers;
    assert before + [] + all == before + all;
    if trailers == [] {
      MergedNone();
      assert all == [] && after + Pending(c) == after;
    } else {
      assert after == (after + Pending(c))[..|before + all| - 1];
      assert (before + all)[..|before + all| - 1] == before + all[..|all| - 1];
    }
  }

  lemma {:induction false} MergedNone()
    ensures Merged([]) == []
  {
  }

  lemma {:induction false} FailsOne(p: Parser, w: Wire)
    requires Named(w.headers) && !NoEmptyPiece(w.body)
    ensures Feed(Running(p), Events(w)) == Failed
  {
    hide Feed, HeaderEvents, BodyEvents, UrlEvents, Merged, Pairs, Named, Concat, Upper, CString, Step, NoEmptyPiece;
    var head := [Begin] + UrlEvents(w.url) + HeaderEvents(w.headers) + [HeadersComplete];
    var rest := HeaderEvents(w.trailers) + [Complete];
    var z := HeadPart(p, w);
    FeedEmptyPiece(z, w.body);
    FeedFailed(rest);
    assert Events(w) == head + (BodyEvents(w.body) + rest);
    FeedAppend(Running(p), head, BodyEvents(w.body) + rest);
    FeedAppend(Running(z), BodyEvents(w.body), rest);
  }

  lemma {:induction false} DeliversOne(p: Parser, w: Wire) returns (y: Parser)
    requires Named(w.headers) && Named(w.trailers) && NoEmptyPiece(w.body)
    ensures Feed(Running(p), Events(w)) == Running(y) && y.delivered == p.delivered + [Assembled(w)]
  {
    hide Feed, HeaderEvents, BodyEvents, UrlEvents, Merged, Pairs, Named, Concat, Upper, CString, Step;
    var head := [Begin] + UrlEvents(w.url) + HeaderEvents(w.headers) + [HeadersComplete];
    var tail := BodyEvents(w.body) + HeaderEvents(w.trailers) + [Complete];
    var z := HeadPart(p, w);
    y := TailPart(z, w);
    assert Events(w) == head + tail;
    FeedAppend(Running(p), head, tail);
    assert "" + Concat(w.body) == Concat(w.body);
  }

  function AssembledAll(ws: seq<Wire>): (r: seq<Message>)
    ensures |r| == |ws|
  {
    seq(|ws|, i requires 0 <= i < |ws| => Assembled(ws[i]))
  }

  function SentAll(ws: seq<Wire>): (r: seq<Message>)
    ensures |r| == |ws|
  {
    seq(|ws|, i requires 0 <= i < |ws| => Sent(ws[i]))
  }

  /**
   * Any number of consecutive messages, each cut into pieces in any way, with the parser in any state
   * beforehand: no assertion fails, and one message is delivered for each, a function of that message's
   * own concatenated pieces alone.
   */
  lemma {:induction false} DeliversAssembled(p: Parser, ws: seq<Wire>) returns (y: Parser)
    requires WellNamed(ws) && BodiesCut(ws)
    ensures Feed(Running(p), AllEvents(ws)) == Running(y) && y.delivered == p.delivered + AssembledAll(ws)
    decreases |ws|
  {
    hide Step, Events, Named, Assembled, Feed, NoEmptyPiece;
    if ws == [] {
      y := p;
      FeedNone(Running(p));
    } else {
      var z := DeliversOne(p, ws[0]);
      y := DeliversAssembled(z, ws[1..]);
      FeedAppend(Running(p), Events(ws[0]), AllEvents(ws[1..]));
      assert AssembledAll(ws) == [Assembled(ws[0])] + AssembledAll(ws[1..]);
    }
  }

  /** The callbacks run without a failed assertion exactly when no body piece is empty. */
  lemma {:induction false} RunsIff(p: Parser, ws: seq<Wire>)
    requires WellNamed(ws)
    ensures Feed(Running(p), AllEvents(ws)).Running? <==> BodiesCut(ws)
    decreases |ws|
  {
    hide Step, Events, Named, Assembled, Feed, NoEmptyPiece;
    if ws == [] {
      FeedNone(Running(p));
    } else {
      FeedAppend(Running(p), Events(ws[0]), AllEvents(ws[1..]));
      if NoEmptyPiece(ws[0].body) {
        var z := DeliversOne(p, ws[0]);
        RunsIff(z, ws[1..]);
        assert BodiesCut(ws) <==> BodiesCut(ws[1..]) by {
          assert ws == [ws[0]] + ws[1..];
        }
      } else {
        FailsOne(p, ws[0]);
        FeedFailed(AllEvents(ws[1..]));
      }
    }
  }

  /** Every header but the last came with at least one value piece. */
  predicate ValuesPresent(hs: seq<Header>) {
    forall i :: 0 <= i < |hs| - 1 ==> hs[i].values != []
  }

  lemma {:induction false} MergedIff(hs: seq<Header>)
    ensures |Merged(hs)| == |hs| <==> ValuesPresent(hs)
    ensures ValuesPresent(hs) ==> Merged(hs) == hs
    decreases |hs|
  {
    if |hs| > 1 && hs[0].values != [] {
      MergedIff(hs[1..]);
      if ValuesPresent(hs[1..]) {
        forall i | 0 <= i < |hs| - 1 ensures hs[i].values != [] {
          assert i > 0 ==> hs[i] == hs[1..][i - 1];
        }
      }
    }
  }

  /** A C string is the whole string exactly when no NUL is in it. */
  lemma {:induction false} CStringIff(s: string)
    ensures CString(s) == s <==> '\0' !in s
    ensures |CString(s)| <= |s|
    decreases |s|
  {
    if s != "" {
      CStringIff(s[1..]);
      assert s == [s[0]] + s[1..];
      if s[0] != '\0' && CString(s) == s {
        assert CString(s)[1..] == CString(s[1..]);
      }
    }
  }

  /** What the parser reproduces exactly: no trailers, a value for all headers but the last, no NUL in the target. */
  predicate Reproducible(w: Wire) {
    w.trailers == [] && ValuesPresent(w.headers) && '\0' !in Concat(w.url)
  }

  lemma {:induction false} ExactOne(w: Wire)
    ensures Assembled(w) == Sent(w) <==> Reproducible(w)
  {
    hide ValuesPresent, Concat, Upper, CString;
    CStringIff(Concat(w.url));
    MergedIff(w.headers);
    var got, sent := Assembled(w).headers, Sent(w).headers;
    assert |got| == |Merged(w.headers)| + |ButLast(Pairs(Merged(w.trailers)))|;
    if w.trailers == [] {
      assert got == Pairs(Merged(w.headers)) && sent == Pairs(w.headers);
    } else {
      assert |got| < |sent|;
    }
  }

  /**
   * Exactly when every header but a message's last has a value piece, there are no trailers and no
   * target holds a NUL, the delivered messages are the ones that were sent, whatever the cuts.
   */
  lemma {:induction false} ExactIff(p: Parser, ws: seq<Wire>) returns (y: Parser)
    requires WellNamed(ws) && BodiesCut(ws)
    ensures Feed(Running(p), AllEvents(ws)) == Running(y)
    ensures y.delivered == p.delivered + SentAll(ws) <==> forall i :: 0 <= i < |ws| ==> Reproducible(ws[i])
  {
    hide Feed, AllEvents, WellNamed, BodiesCut, Assembled, Sent, Reproducible;
    y := DeliversAssembled(p, ws);
    forall i | 0 <= i < |ws|
      ensures AssembledAll(ws)[i] == SentAll(ws)[i] <==> Reproducible(ws[i])
    {
      ExactOne(ws[i]);
    }
    assert y.delivered[|p.delivered|..] == AssembledAll(ws);
    assert (p.delivered + SentAll(ws))[|p.delivered|..] == SentAll(ws);
  }

  /** A header without value pieces lends its name to the next. */
  lemma {:induction false} NamesMerge(p: Parser) returns (y: Parser)
    ensures var w := Wire(["/"], [Header(["a"], []), Header(["b"], ["1"])], [], []);
      Feed(Running(p), Events(w)) == Running(y) && y.delivered == p.delivered + [Message([Pair("AB", "1")], "/", "")]
  {
    hide Feed, Events;
    var w := Wire(["/"], [Header(["a"], []), Header(["b"], ["1"])], [], []);
    assert Concat(["a"]) == "a" && Concat(["b"]) == "b";
    y := DeliversOne(p, w);
    var g := Header(["a"] + ["b"], ["1"]);
    assert [g] + w.headers[2..] == [g];
    assert Merged(w.headers) == [g];
    ConcatAppend(["a"], ["b"]);
    assert Concat(g.names) == "ab" && Concat(g.values) == "1" && Upper("ab") == "AB";
    assert Pairs([g])[0] == Pair("AB", "1");
    assert Assembled(w).headers == [Pair("AB", "1")];
    assert CString("/") == "/" && Concat(["/"]) == "/";
  }

  /** A NUL cuts the target short. */
  lemma {:induction false} TargetCut(p: Parser) returns (y: Parser)
    ensures var w := Wire(["/a\0b"], [], [], []);
      && Feed(Running(p), Events(w)) == Running(y) && y.delivered == p.delivered + [Message([], "/a", "")]
      && Sent(w).target == "/a\0b"
  {
    hide Feed, Events;
    var w := Wire(["/a\0b"], [], [], []);
    y := DeliversOne(p, w);
    assert Pairs(Merged(w.headers)) + ButLast(Pairs(Merged(w.trailers))) == [];
    assert w.url[1..] == [] && Concat(w.url) == w.url[0] + "" == "/a\0b";
    CutAtNul();
  }

  lemma {:induction false} CutAtNul()
    ensures CString("/a\0b") == "/a"
  {
    assert "/a\0b"[1..] == "a\0b" && "a\0b"[1..] == "\0b";
    assert CString("\0b") == "";
    assert CString("a\0b") == "a";
  }

  /** The last trailer never reaches the message. */
  lemma {:induction false} TrailerDropped(p: Parser) returns (y: Parser)
    ensures var w := Wire(["/"], [], ["x"], [Header(["t"], ["1"])]);
      Feed(Running(p), Events(w)) == Running(y) && y.delivered == p.delivered + [Message([], "/", "x")]
  {
    hide Feed, Events;
    var w := Wire(["/"], [], ["x"], [Header(["t"], ["1"])]);
    assert Concat(["t"]) == "t";
    y := DeliversOne(p, w);
    assert Pairs(Merged(w.headers)) + ButLast(Pairs(Merged(w.trailers))) == [];
    assert CString("/") == "/" && Concat(["/"]) == "/" && Concat(["x"]) == "x";
  }

  // ---- the callbacks -------------------------------------------------------------------------------

  /** KVPair_new: the label is copied character by character in upper case. */
  method NewPair(name: string, value: string) returns (kv: Pair)
    ensures kv == Pair(Upper(name), value)
  {
    var key := "";
    for i := 0 to |name|
      invariant |key| == i && forall j :: 0 <= j < i ==> key[j] == ToUpper(name[j])
    {
      key := key + [ToUpper(name[i])];
    }
    kv := Pair(key, value);
  }

  /** The parser as the source has it: buffers that the tokenizer's callbacks append to and clear. */
  class HttpParser {
    var headerState: HeaderState
    var url: string
    var name: string
    var value: string
    var current: Option<Message>
    var delivered: seq<Message>      // calls of the message handler, oldest first

    ghost function View(): Parser
      reads this
    {
      Parser(headerState, url, name, value, current, delivered)
    }

    constructor ()
      ensures View() == Parser(Nothing, "", "", "", None, [])
    {
      headerState, url, name, value, current, delivered := Nothing, "", "", "", None, [];
    }

    /** The header put together so far, if there is one, goes into the message. */
    method FlushHeader()
      requires current.Some?
      modifies this`name, this`value, this`current
      ensures View() == Flush(old(View()))
    {
      if |name| != 0 {
        var kv := NewPair(name, value);
        current := Some(current.value.(headers := current.value.headers + [kv]));
        name := "";
        value := "";
      }
    }

    method MessageBegin()
      modifies this
      ensures Step(old(View()), Begin) == Running(View())
    {
      current := Some(NewMessage);
      url := "";
      name := "";
      value := "";
    }

    method UrlData(s: string)
      requires current.Some?
      modifies this`url
      ensures Step(old(View()), Url(s)) == Running(View())
    {
      url := url + s;
    }

    method HeaderFieldData(s: string)
      requires current.Some?
      modifies this
      ensures Step(old(View()), Field(s)) == Running(View())
    {
      if headerState == Nothing || headerState == InValue {
        FlushHeader();
      }
      name := name + s;
      headerState := InField;
    }

    method HeaderValueData(s: string)
      requires current.Some? && headerState != Nothing
      modifies this`value, this`headerState
      ensures Step(old(View()), Value(s)) == Running(View())
    {
      if headerState == InField {
        value := "";
      }
      value := value + s;
      headerState := InValue;
    }

    method OnHeadersComplete()
      requires current.Some? && (url != "" ==> current.value.target == "")
      modifies this`name, this`value, this`current
      ensures Step(old(View()), HeadersComplete) == Running(View())
    {
      FlushHeader();
      if |url| != 0 {
        assert current.value.target == "";
        current := Some(current.value.(target := CString(url)));
      }
    }

    method BodyData(s: string)
      requires current.Some? && s != ""
      modifies this`current
      ensures Step(old(View()), Body(s)) == Running(View())
    {
      current := Some(current.value.(body := current.value.body + s));
    }

    method MessageComplete()
      requires current.Some?
      modifies this`current, this`delivered
      ensures Step(old(View()), Complete) == Running(View())
    {
      var message := current.value;
      current := Some(NewMessage);
      delivered := delivered + [message];
    }

    method Callback(e: Event)
      requires Step(View(), e).Running?
      modifies this
      ensures Step(old(View()), e) == Running(View())
    {
      match e {
        case Begin => MessageBegin();
        case Url(s) => UrlData(s);
        case Field(s) => HeaderFieldData(s);
        case Value(s) => HeaderValueData(s);
        case HeadersComplete => OnHeadersComplete();
        case Body(s) => BodyData(s);
        case Complete => MessageComplete();
      }
    }

    /** The tokenizer calls back for each piece of any number of messages. */
    method Consume(ws: seq<Wire>)
      requires WellNamed(ws) && BodiesCut(ws)
      modifies this
      ensures delivered == old(delivered) + AssembledAll(ws)
    {
      hide Step, AllEvents, WellNamed, BodiesCut, AssembledAll;
      var es := AllEvents(ws);
      ghost var p := View();
      ghost var goal := DeliversAssembled(p, ws);
      assert es[0..] == es;
      for i := 0 to |es|
        invariant Feed(Running(View()), es[i..]) == Running(goal)
      {
        assert es[i..][1..] == es[i + 1..];
        Callback(es[i]);
      }
    }
  }
}
