/**
 * The streams of the demo protocol, by a grammar that does not know the parser: noise and frames, and
 * at the end perhaps the beginning of one more.  From rest the parser stays out of error recovery
 * exactly on those streams and delivers exactly their frames; on any other it goes into recovery at the
 * first byte that no continuation could repair.  In recovery it looks for the next SOH of the buffer.
 */
module DemoGrammar {
  import opened Common
  import opened DemoProtocol

  datatype Frame = Frame(request: bool, body: Bytes, check: Byte)

  /** A byte between frames, or a frame. */
  datatype Item = Noise(byte: Byte) | Whole(frame: Frame)

  predicate Graphic(b: Byte) { 0x20 <= b <= 0x7E }
  predicate AllGraphic(s: Bytes) { forall b :: b in s ==> Graphic(b) }

  /** 'Q' is 81 and 'R' is 82. */
  function Text(f: Frame): Bytes { [1, if f.request then 81 else 82, 2] + f.body + [3, f.check] }

  predicate ItemOk(i: Item) {
    match i
    case Noise(b) => b != 1
    case Whole(f) => AllGraphic(f.body)
  }

  function TextOf(i: Item): Bytes { if i.Noise? then [i.byte] else Text(i.frame) }

  function Render(items: seq<Item>): Bytes {
    if items == [] then [] else Render(items[..|items| - 1]) + TextOf(items[|items| - 1])
  }

  /** What the owner is told of the items. */
  function Told(items: seq<Item>): seq<Event> {
    if items == [] then []
    else
      var i := items[|items| - 1];
      Told(items[..|items| - 1]) +
      (if i.Whole? then [Delivered(DemoMessage(i.frame.request, i.frame.body, i.frame.check))] else [])
  }

  /** A frame that is not finished: `t` and something more would be one. */
  ghost predicate Unfinished(t: Bytes) { exists f: Frame :: AllGraphic(f.body) && t <= Text(f) && t != Text(f) }

  /** A stream that can be part of noise and frames. */
  ghost predicate Viable(s: Bytes) {
    exists items, t :: (forall i :: i in items ==> ItemOk(i)) && Unfinished(t) && s == Render(items) + t
  }

  // ---------------------------------------------------------------- unfinished frames

  predicate Head(t: Bytes) { |t| >= 3 && t[0] == 1 && (t[1] == 81 || t[1] == 82) && t[2] == 2 }

  /** What an unfinished frame looks like. */
  predicate Begun(t: Bytes) {
    || t == [] || t == [1] || t == [1, 81] || t == [1, 82]
    || (Head(t) && (AllGraphic(t[3..]) || (|t| > 3 && t[|t| - 1] == 3 && AllGraphic(t[3..|t| - 1]))))
  }

  lemma {:induction false} UnfinishedIff(t: Bytes)
    ensures Unfinished(t) <==> Begun(t)
  {
    if f: Frame :| AllGraphic(f.body) && t <= Text(f) && t != Text(f) {
      PrefixBegun(f, t);
    }
    if Begun(t) {
      BegunPrefix(t);
    }
  }

  lemma {:induction false} PrefixBegun(f: Frame, t: Bytes)
    requires AllGraphic(f.body) && t <= Text(f) && t != Text(f)
    ensures Begun(t)
  {
    var s, n := Text(f), |t|;
    assert t == s[..n] && |s| == |f.body| + 5;
    if n >= 3 {
      assert t[0] == s[0] && t[1] == s[1] && t[2] == s[2];
      if n <= |f.body| + 3 {
        assert t[3..] == f.body[..n - 3];
      } else {
        assert t[n - 1] == s[n - 1] == 3 && t[3..n - 1] == f.body;
      }
    }
  }

  lemma {:induction false} BegunPrefix(t: Bytes)
    requires Begun(t)
    ensures Unfinished(t)
  {
    if |t| < 3 {
      ShortPrefix(t);
    } else if |t| > 3 && t[|t| - 1] == 3 {
      FootPrefix(t);
    } else {
      BodyPrefix(t);
    }
  }

  /** A frame of which `t` is a proper part. */
  lemma {:induction false} PartOf(t: Bytes, f: Frame)
    requires AllGraphic(f.body) && t <= Text(f) && t != Text(f)
    ensures Unfinished(t)
  {
  }

  lemma {:induction false} ShortPrefix(t: Bytes)
    requires Begun(t) && |t| < 3
    ensures Unfinished(t)
  {
    PartOf(t, Frame(|t| < 2 || t[1] == 81, [], 0));
  }

  lemma {:induction false} BodyPrefix(t: Bytes)
    requires Head(t) && AllGraphic(t[3..])
    ensures Unfinished(t)
  {
    hide Unfinished, AllGraphic;
    var f := Frame(t[1] == 81, t[3..], 0);
    assert t == t[..3] + t[3..] && t[..3] == [1, if f.request then 81 else 82, 2];
    assert Text(f) == t + [3, 0];
    PartOf(t, f);
  }

  lemma {:induction false} FootPrefix(t: Bytes)
    requires Begun(t) && Finishes(t)
    ensures Unfinished(t)
  {
    hide Unfinished;
    var f := Frame(t[1] == 81, t[3..|t| - 1], 0);
    assert AllGraphic(f.body) by { GraphicPart(t); }
    hide AllGraphic;
    assert t == t[..3] + f.body + [3] && t[..3] == [1, if f.request then 81 else 82, 2];
    assert Text(f) == t + [0];
    PartOf(t, f);
  }

  lemma {:induction false} GraphicPart(t: Bytes)
    requires Begun(t) && Finishes(t)
    ensures Head(t) && AllGraphic(t[3..|t| - 1])
  {
    assert forall b :: b in t[3..|t| - 1] ==> b in t[3..];
  }

  // ---------------------------------------------------------------- the parser on an unfinished frame

  /**
   * The parser has read `t` of a frame; `left` is the body of the message that was current when the
   * frame began.
   */
  predicate Within(p: Parser, t: Bytes, left: Bytes)
    requires Begun(t)
  {
    if t == [] then AtRest(p) && left == []
    else
      && p.current.Some? && p.current.value.lrc == 0
      && (|t| >= 2 ==> p.current.value.isRequest == (t[1] == 81))
      && if |t| == 1 then p.state == Opcode && p.current.value.body == left
         else if |t| == 2 then p.state == StxWait && p.current.value.body == left
         else if t[|t| - 1] == 3 then p.state == Lrc && p.current.value.body == left + t[3..|t| - 1]
         else p.state == Body && p.current.value.body == left + t[3..]
  }

  /** How much of a body an unfinished frame holds. */
  function BodyRead(t: Bytes): Bytes { if |t| < 3 then [] else t[3..] }

  /** The parser has given up a frame whose message holds `body` so far. */
  predicate Broken(p: Parser, body: Bytes) {
    p.state == ErrorRecovery && p.current.Some? && p.current.value.body == body && p.current.value.lrc == 0
  }

  /** One more byte finishes the frame. */
  predicate Finishes(t: Bytes) { |t| > 3 && t[|t| - 1] == 3 }

  function FrameOf(t: Bytes, b: Byte): Frame
    requires Begun(t) && Finishes(t)
  {
    Frame(t[1] == 81, t[3..|t| - 1], b)
  }

  lemma {:induction false} FinishedText(t: Bytes, b: Byte)
    requires Begun(t) && Finishes(t)
    ensures AllGraphic(FrameOf(t, b).body) && t + [b] == Text(FrameOf(t, b)) && !Begun(t + [b])
  {
    assert t == t[..3] + t[3..|t| - 1] + [3];
    var s := t + [b];
    assert Head(s) && s[|t| - 1] == 3 && s[|t| - 1] in s[3..];
    assert s[3..|s| - 1][|t| - 4] == 3 && s[3..|s| - 1][|t| - 4] in s[3..|s| - 1];
  }

  /** What is delivered of a frame that began with `left` in the current message. */
  function MessageOf(f: Frame, left: Bytes): DemoMessage { DemoMessage(f.request, left + f.body, f.check) }

  /** Outside error recovery one byte does exactly this: skip, begin or continue a frame, finish it, or break it. */
  lemma {:induction false} OneByte(p: Parser, t: Bytes, left: Bytes, b: Byte)
    requires Begun(t) && Within(p, t, left)
    ensures p.state != ErrorRecovery
    ensures var (q, e) := ParseByte(p, b, false);
      if Finishes(t) then
        Within(q, [], []) && e == Some(Delivered(MessageOf(FrameOf(t, b), left)))
      else if t == [] && b != 1 then Within(q, [], []) && e == None
      else if Begun(t + [b]) then Within(q, t + [b], left) && e == None
      else Broken(q, left + BodyRead(t)) && e == None
  {
    var s := t + [b];
    if t == [] {
      assert s == [b];
    } else if |t| == 1 {
      assert s == [1, b];
    } else if |t| == 2 {
      assert s[0] == 1 && s[1] == t[1] && s[2] == b;
      assert s[3..] == [] && left + [] == left;
    } else if !Finishes(t) {
      BodyByte(t, b);
      assert (left + t[3..]) + [b] == left + (t[3..] + [b]);
    }
  }

  lemma {:induction false} BodyByte(t: Bytes, b: Byte)
    requires Begun(t) && |t| >= 3 && !Finishes(t)
    ensures Head(t) && AllGraphic(t[3..])
    ensures Begun(t + [b]) <==> Graphic(b) || b == 3
    ensures (t + [b])[3..] == t[3..] + [b] && (t + [b])[3..|t + [b]| - 1] == t[3..]
  {
    var s := t + [b];
    assert s[3..] == t[3..] + [b] && s[3..|s| - 1] == t[3..];
    assert b in s[3..];
    assert forall x :: x in s[3..] <==> x in t[3..] || x == b;
  }

  // ---------------------------------------------------------------- streams

  lemma {:induction false} RenderMore(items: seq<Item>, i: Item)
    ensures Render(items + [i]) == Render(items) + TextOf(i)
    ensures Told(items + [i]) == Told(items) +
      (if i.Whole? then [Delivered(DemoMessage(i.frame.request, i.frame.body, i.frame.check))] else [])
  {
    assert (items + [i])[..|items|] == items;
  }

  /** The parser goes through `s` without error recovery, except that the last byte may lead there. */
  function RunOver(g: Progress, s: Bytes): Progress
    decreases |s|
  {
    if s == [] then g else Step(RunOver(g, s[..|s| - 1]), s[|s| - 1], false)
  }

  predicate Steady(g: Progress, s: Bytes)
    decreases |s|
  {
    s == [] || (Steady(g, s[..|s| - 1]) && RunOver(g, s[..|s| - 1]).parser.state != ErrorRecovery)
  }

  /** A parse of a stream: items and the beginning of a frame. */
  datatype Parse = Parse(items: seq<Item>, t: Bytes)

  predicate ParseOf(s: Bytes, x: Parse) {
    (forall i :: i in x.items ==> ItemOk(i)) && Begun(x.t) && s == Render(x.items) + x.t
  }

  lemma {:induction false} ViableIff(s: Bytes)
    ensures Viable(s) <==> exists x :: ParseOf(s, x)
  {
    hide Unfinished, Begun, Render;
    if Viable(s) {
      var items, t :| (forall i :: i in items ==> ItemOk(i)) && Unfinished(t) && s == Render(items) + t;
      UnfinishedIff(t);
      assert ParseOf(s, Parse(items, t));
    }
    if x :| ParseOf(s, x) {
      UnfinishedIff(x.t);
    }
  }

  /** The parse of a stream and one more byte, if there is one. */
  function MoreOf(x: Parse, b: Byte): Option<Parse>
    requires Begun(x.t)
  {
    if Finishes(x.t) then Some(Parse(x.items + [Whole(FrameOf(x.t, b))], []))
    else if x.t == [] && b != 1 then Some(Parse(x.items + [Noise(b)], []))
    else if Begun(x.t + [b]) then Some(x.(t := x.t + [b]))
    else None
  }

  lemma {:induction false} MoreParses(s: Bytes, x: Parse, b: Byte)
    requires ParseOf(s, x) && MoreOf(x, b).Some?
    ensures ParseOf(s + [b], MoreOf(x, b).value)
  {
    hide Begun, Render, Text, AllGraphic, Finishes, FrameOf;
    assert (Render(x.items) + x.t) + [b] == Render(x.items) + (x.t + [b]);
    if Finishes(x.t) {
      FinishedText(x.t, b);
      ItemParses(x.items, Whole(FrameOf(x.t, b)));
    } else if x.t == [] && b != 1 {
      assert x.t + [b] == [b];
      ItemParses(x.items, Noise(b));
    }
  }

  lemma {:induction false} ItemParses(items: seq<Item>, i: Item)
    requires (forall k :: k in items ==> ItemOk(k)) && ItemOk(i)
    ensures ParseOf(Render(items) + TextOf(i), Parse(items + [i], []))
  {
    hide Begun, Render, TextOf, ItemOk;
    EmptyBegun();
    RenderMore(items, i);
    assert Render(items + [i]) + [] == Render(items + [i]);
  }

  lemma {:induction false} EmptyBegun()
    ensures Begun([])
  {
  }

  /** Where a parse leads the parser: the owner has been told the frames, and the rest is being read. */
  predicate Arrived(g: Progress, s: Bytes, x: Parse) {
    Begun(x.t) && Within(RunOver(g, s).parser, x.t, []) && RunOver(g, s).events == g.events + Told(x.items)
  }

  lemma {:induction false} ArrivesMore(g: Progress, s: Bytes, x: Parse, b: Byte)
    requires Arrived(g, s, x)
    ensures RunOver(g, s).parser.state != ErrorRecovery
    ensures if MoreOf(x, b).Some? then Arrived(g, s + [b], MoreOf(x, b).value)
      else Broken(RunOver(g, s + [b]).parser, BodyRead(x.t)) && RunOver(g, s + [b]).events == g.events + Told(x.items)
  {
    hide Begun, Within, ParseByte, Told, RunOver, Broken, BodyRead, Finishes, AllGraphic;
    var h := RunOver(g, s);
    RunMore(g, s, b);
    EmptyBegun();
    OneByte(h.parser, x.t, [], b);
    if Finishes(x.t) {
      assert [] + FrameOf(x.t, b).body == FrameOf(x.t, b).body;
      RenderMore(x.items, Whole(FrameOf(x.t, b)));
    } else if x.t == [] && b != 1 {
      RenderMore(x.items, Noise(b));
    }
    assert h.events + [] == h.events && [] + BodyRead(x.t) == BodyRead(x.t);
  }

  lemma {:induction false} RunMore(g: Progress, s: Bytes, b: Byte)
    ensures RunOver(g, s + [b]) == Step(RunOver(g, s), b, false)
  {
    hide ParseByte;
    assert (s + [b])[..|s|] == s;
  }

  lemma {:induction false} BegunShorter(t: Bytes)
    requires Begun(t) && t != []
    ensures Begun(t[..|t| - 1]) && !Finishes(t[..|t| - 1]) && t[..|t| - 1] + [t[|t| - 1]] == t
    ensures |t| == 1 ==> t[0] == 1
  {
    var s := t[..|t| - 1];
    if |t| > 3 {
      assert s[3..] == t[3..|t| - 1];
      assert forall b :: b in s[3..] ==> b in t[3..];
      if |s| > 3 {
        assert s[|s| - 1] in s[3..];
      }
    } else if |t| == 3 {
      assert s == [1, t[1]];
    } else if |t| == 2 {
      assert s == [1];
    }
  }

  /** The parse of a stream without its last byte. */
  lemma {:induction false} LessOf(s: Bytes, x: Parse) returns (y: Parse)
    requires ParseOf(s, x) && s != []
    ensures ParseOf(s[..|s| - 1], y) && MoreOf(y, s[|s| - 1]) == Some(x)
  {
    if x.t != [] {
      BegunShorter(x.t);
      y := Parse(x.items, x.t[..|x.t| - 1]);
      assert x.t[|x.t| - 1] == s[|s| - 1] && s[..|s| - 1] == Render(x.items) + y.t;
    } else {
      y := LessOfItems(s, x);
    }
  }

  /** The same where the stream ends with an item. */
  lemma {:induction false} LessOfItems(s: Bytes, x: Parse) returns (y: Parse)
    requires ParseOf(s, x) && s != [] && x.t == []
    ensures ParseOf(s[..|s| - 1], y) && MoreOf(y, s[|s| - 1]) == Some(x)
  {
    var items, i := x.items[..|x.items| - 1], x.items[|x.items| - 1];
    assert i in x.items && (forall k :: k in items ==> k in x.items) && items + [i] == x.items;
    var text := TextOf(i);
    y := Parse(items, text[..|text| - 1]);
    assert s == Render(items) + text;
    hide Render, Begun, Text, AllGraphic, Finishes, FrameOf;
    assert text != [] by { ItemText(i); }
    assert s[|s| - 1] == text[|text| - 1] && s[..|s| - 1] == Render(items) + y.t;
    ItemSplit(i, items);
  }

  lemma {:induction false} ItemText(i: Item)
    ensures TextOf(i) != []
  {
  }

  lemma {:induction false} ItemSplit(i: Item, items: seq<Item>)
    requires ItemOk(i)
    ensures var text := TextOf(i);
      text != [] && Begun(text[..|text| - 1]) && MoreOf(Parse(items, text[..|text| - 1]), text[|text| - 1]) == Some(Parse(items + [i], []))
  {
    ItemText(i);
    if i.Whole? {
      hide Begun, Text, AllGraphic, Finishes, FrameOf;
      FrameSplit(i.frame);
    }
  }

  lemma {:induction false} Slices(front: Bytes, mid: Bytes, post: Bytes)
    ensures (front + mid + post)[|front|..|front| + |mid|] == mid
    ensures (front + mid + post)[..|front| + |mid|] == front + mid
  {
    assert (front + mid + post)[..|front| + |mid|] == front + mid;
    assert (front + mid)[|front|..] == mid;
  }

  lemma {:induction false} FrameSplit(f: Frame)
    requires AllGraphic(f.body)
    ensures var t := Text(f)[..|Text(f)| - 1]; Begun(t) && Finishes(t) && FrameOf(t, f.check) == f
    ensures Text(f)[|Text(f)| - 1] == f.check
  {
    hide AllGraphic;
    var front: Bytes := [1, if f.request then 81 else 82, 2];
    var t := front + f.body + [3];
    assert Text(f) == t + [f.check];
    Slices(t, [f.check], []);
    assert Text(f)[..|Text(f)| - 1] == t;
    Slices(front, f.body, [3]);
    assert t[3..|t| - 1] == f.body && t[|t| - 1] == 3 && Head(t);
  }

  /** From rest, every parse of a stream is where the parser arrives. */
  lemma {:induction false} ParseArrives(g: Progress, s: Bytes, x: Parse)
    requires AtRest(g.parser) && ParseOf(s, x)
    ensures Arrived(g, s, x) && Steady(g, s)
    decreases |s|
  {
    hide ParseOf, Arrived, Steady, RunOver, MoreOf;
    if s == [] {
      ArrivesNothing(g, x);
    } else {
      var front, b := s[..|s| - 1], s[|s| - 1];
      assert front + [b] == s;
      var y := LessOf(s, x);
      ParseArrives(g, front, y);
      ArrivesMore(g, front, y, b);
      SteadyMore(g, front, b);
    }
  }

  lemma {:induction false} ArrivesNothing(g: Progress, x: Parse)
    requires AtRest(g.parser) && ParseOf([], x)
    ensures Arrived(g, [], x) && Steady(g, [])
  {
    hide Begun, Within, Told, Render;
    NothingParsed(x);
    AtRestWithin(g.parser);
    assert g.events + [] == g.events;
  }

  lemma {:induction false} NothingParsed(x: Parse)
    requires ParseOf([], x)
    ensures x == Parse([], []) && Told([]) == []
  {
    RenderedSome(x.items);
  }

  lemma {:induction false} RenderedSome(items: seq<Item>)
    ensures items != [] ==> Render(items) != []
  {
  }

  lemma {:induction false} AtRestWithin(p: Parser)
    requires AtRest(p)
    ensures Begun([]) && Within(p, [], [])
  {
  }

  // ---------------------------------------------------------------- the theorems

  /** A steady run is the fold of one buffer, whatever follows in it. */
  lemma {:induction false} FoldOver(g: Progress, a: Bytes, rest: Bytes)
    requires Steady(g, a)
    ensures Fold(g, a + rest) == Fold(RunOver(g, a), rest)
    ensures LeftInRecovery(g.parser, a + rest) == LeftInRecovery(RunOver(g, a).parser, rest)
    decreases |a|
  {
    hide ParseByte;
    if a == [] {
      assert a + rest == rest;
    } else {
      var front, c := a[..|a| - 1], a[|a| - 1];
      assert a + rest == front + ([c] + rest);
      FoldOver(g, front, [c] + rest);
      var h := RunOver(g, front);
      LastIrrelevant(h, c);
      assert ([c] + rest)[1..] == rest;
    }
  }

  /** Noise and frames, however cut into buffers: exactly the frames are delivered, and nothing is recovered. */
  lemma {:induction false} StreamDelivered(g: Progress, s: Bytes, x: Parse, chunks: seq<Bytes>)
    requires AtRest(g.parser) && ParseOf(s, x) && Cuts(chunks, s)
    ensures LeftInRecovery(g.parser, s) == 0
    ensures PresentAll(g, chunks).events == g.events + Told(x.items)
    ensures Within(PresentAll(g, chunks).parser, x.t, [])
  {
    hide Begun, Within, RunOver, Fold, PresentAll, Render, Told;
    ParseArrives(g, s, x);
    assert s + [] == s;
    FoldOver(g, s, []);
    FoldNothing(RunOver(g, s));
    ChunksAreFold(g, chunks);
  }

  lemma {:induction false} FoldNothing(g: Progress)
    ensures Fold(g, []) == g && LeftInRecovery(g.parser, []) == 0
  {
  }

  /**
   * A byte that no continuation of the stream could repair breaks its frame: what was complete before it
   * has been delivered, and the parser goes into error recovery there and not earlier.
   */
  lemma {:induction false} BreaksThere(g: Progress, a: Bytes, x: Parse, b: Byte, rest: Bytes) returns (h: Progress)
    requires AtRest(g.parser) && ParseOf(a, x) && !Viable(a + [b])
    ensures Broken(h.parser, BodyRead(x.t)) && h.events == g.events + Told(x.items)
    ensures Fold(g, a + [b] + rest) == Fold(h, rest) && LeftInRecovery(g.parser, a + [b] + rest) == |rest|
  {
    hide Begun, Within, ParseByte, Told, Render, Fold, MoreOf, Viable, RunOver, Steady, LeftInRecovery;
    if MoreOf(x, b).Some? {
      MoreParses(a, x, b);
      ViableIff(a + [b]);
      assert false;
    }
    h := BreaksHere(g, a, x, b, rest);
  }

  lemma {:induction false} BreaksHere(g: Progress, a: Bytes, x: Parse, b: Byte, rest: Bytes) returns (h: Progress)
    requires AtRest(g.parser) && ParseOf(a, x) && MoreOf(x, b).None?
    ensures Broken(h.parser, BodyRead(x.t)) && h.events == g.events + Told(x.items)
    ensures Fold(g, a + [b] + rest) == Fold(h, rest) && LeftInRecovery(g.parser, a + [b] + rest) == |rest|
  {
    hide Begun, Within, ParseByte, Told, Render, Fold, MoreOf, RunOver, Steady, LeftInRecovery;
    ParseArrives(g, a, x);
    ArrivesMore(g, a, x, b);
    h := RunOver(g, a + [b]);
    SteadyMore(g, a, b);
    FoldOver(g, a + [b], rest);
    LeftAll(h.parser, rest);
  }

  lemma {:induction false} SteadyMore(g: Progress, a: Bytes, b: Byte)
    requires Steady(g, a) && RunOver(g, a).parser.state != ErrorRecovery
    ensures Steady(g, a + [b])
  {
    hide RunOver;
    assert (a + [b])[..|a|] == a;
  }

  lemma {:induction false} LeftAll(p: Parser, rest: Bytes)
    requires p.state == ErrorRecovery
    ensures LeftInRecovery(p, rest) == |rest|
  {
  }

  /**
   * From rest, a stream keeps the parser out of error recovery exactly when it is noise and frames and
   * perhaps the beginning of one, or becomes so without its last byte.
   */
  lemma {:induction false} Framing(g: Progress, s: Bytes)
    requires AtRest(g.parser)
    ensures LeftInRecovery(g.parser, s) == 0 <==> Viable(s) || (s != [] && Viable(s[..|s| - 1]))
  {
    hide Begun, Within, RunOver, Fold, PresentAll, LeftInRecovery, Viable, ParseByte;
    if Viable(s) {
      ViableIff(s);
      var x :| ParseOf(s, x);
      WholeCovers(s);
      StreamDelivered(g, s, x, if s == [] then [] else [s]);
    } else {
      FramingBroken(g, s);
    }
  }

  lemma {:induction false} FramingBroken(g: Progress, s: Bytes)
    requires AtRest(g.parser) && !Viable(s)
    ensures s != [] && (LeftInRecovery(g.parser, s) == 0 <==> Viable(s[..|s| - 1]))
  {
    hide Begun, Within, RunOver, Fold, LeftInRecovery, Viable, ParseByte, ParseOf, AtRest, BodyRead, Told, Broken;
    var a := LongestViable(s);
    ViableIff(a);
    var x :| ParseOf(a, x);
    var n := |a| + 1;
    assert a + [s[|a|]] == s[..n] && s[..n] + s[n..] == s;
    var h := BreaksThere(g, a, x, s[|a|], s[n..]);
    if n == |s| {
      assert s[..|s| - 1] == a;
    } else {
      assert s[..|s| - 1][..n] == s[..n];
      if Viable(s[..|s| - 1]) { ViableShorter(s[..|s| - 1], n); }
    }
  }

  lemma {:induction false} WholeCovers(s: Bytes)
    ensures Cuts(if s == [] then [] else [s], s)
  {
    if s != [] {
      assert [s][1..] == [] && Concat([]) == [] && s + [] == s;
      assert Concat([s]) == s + Concat([s][1..]);
    }
  }

  lemma {:induction false} EmptyViable()
    ensures Viable([])
  {
    assert ParseOf([], Parse([], []));
    ViableIff([]);
  }

  /** What comes before in a viable stream is viable. */
  lemma {:induction false} ViableShorter(s: Bytes, n: nat)
    requires Viable(s)
    ensures n <= |s| ==> Viable(s[..n])
    decreases |s|
  {
    hide Viable, ParseOf, MoreOf;
    if n < |s| {
      ViableIff(s);
      var x :| ParseOf(s, x);
      var y := LessOf(s, x);
      ViableIff(s[..|s| - 1]);
      ViableShorter(s[..|s| - 1], n);
      assert s[..|s| - 1][..n] == s[..n];
    } else if n == |s| {
      assert s[..n] == s;
    }
  }

  lemma {:induction false} LongestViable(s: Bytes) returns (a: Bytes)
    requires !Viable(s)
    ensures |a| < |s| && a == s[..|a|] && Viable(a) && !Viable(s[..|a| + 1])
    decreases |s|
  {
    hide Viable;
    EmptyViable();
    var front := s[..|s| - 1];
    if Viable(front) {
      a := front;
      assert s[..|s|] == s;
    } else {
      a := LongestViable(front);
      assert front[..|a|] == s[..|a|] && front[..|a| + 1] == s[..|a| + 1];
    }
  }

  // ---------------------------------------------------------------- in error recovery

  /** Without another SOH before its last byte, a buffer ends with an error, and the parser stays in recovery. */
  lemma {:induction false} NotResumed(g: Progress, s: Bytes)
    requires g.parser.state == ErrorRecovery && s != [] && forall i :: 0 <= i < |s| - 1 ==> s[i] != 1
    ensures Fold(g, s) == Progress(Parser(ErrorRecovery, Some(NewMessage)), g.events + [FramingError])
    decreases |s|
  {
    var h := Step(g, s[0], |s| == 1);
    if |s| == 1 {
      FoldNothing(h);
    } else {
      assert s[0] != 1 && h == g by { assert g.events + [] == g.events; }
      NotResumed(h, s[1..]);
    }
  }

  /** At the first SOH that does not end the buffer a frame begins, with what is left of the broken message. */
  lemma {:induction false} Resumed(g: Progress, s: Bytes, i: nat, left: Bytes)
    requires Broken(g.parser, left) && i < |s| - 1 && s[i] == 1 && forall k :: 0 <= k < i ==> s[k] != 1
    ensures var h := g.(parser := g.parser.(state := Opcode));
      Begun([1]) && Within(h.parser, [1], left) && Fold(g, s) == Fold(h, s[i + 1..])
    decreases i
  {
    var h := Step(g, s[0], false);
    assert g.events + [] == g.events;
    if i > 0 {
      assert h == g;
      Resumed(g, s[1..], i - 1, left);
      assert s[1..][i..] == s[i + 1..];
    }
  }

  /** The rest of a frame, after `t` of it. */
  lemma {:induction false} FrameContinues(g: Progress, t: Bytes, left: Bytes, f: Frame, rest: Bytes)
    requires Begun(t) && t != [] && Within(g.parser, t, left) && AllGraphic(f.body) && t + rest == Text(f)
    ensures var h := RunOver(g, rest);
      && Steady(g, rest) && AtRest(h.parser)
      && h.events == g.events + [Delivered(MessageOf(f, left))]
    decreases |rest|
  {
    hide ParseByte;
    FrameNotBegun(f);
    assert rest != [] by { assert t + [] == t; }
    FrameContinuesBack(g, t, left, f, rest, |rest|);
    assert rest[..|rest|] == rest;
  }

  lemma {:induction false} FrameNotBegun(f: Frame)
    requires AllGraphic(f.body)
    ensures !Begun(Text(f))
  {
    FrameSplit(f);
    var t := Text(f)[..|Text(f)| - 1];
    FinishedText(t, f.check);
    assert t + [f.check] == Text(f);
  }

  /** After `n` more bytes of the frame. */
  lemma {:induction false} FrameContinuesBack(g: Progress, t: Bytes, left: Bytes, f: Frame, rest: Bytes, n: nat)
    requires Begun(t) && t != [] && Within(g.parser, t, left) && AllGraphic(f.body) && t + rest == Text(f) && n <= |rest|
    ensures Steady(g, rest[..n])
    ensures var h := RunOver(g, rest[..n]);
      if n < |rest| then Begun(t + rest[..n]) && Within(h.parser, t + rest[..n], left) && h.events == g.events
      else AtRest(h.parser) && h.events == g.events + [Delivered(MessageOf(f, left))]
    decreases n
  {
    hide Begun, Within, ParseByte, Text, AllGraphic, FrameOf, Finishes, MessageOf;
    assert rest[..|rest|] == rest;
    if n == 0 {
      assert t + rest[..0] == t;
      FrameNotBegun(f);
      assert rest != [] by { assert t + [] == t; }
    } else {
      FrameContinuesBack(g, t, left, f, rest, n - 1);
      var s, b := t + rest[..n - 1], rest[n - 1];
      var h := RunOver(g, rest[..n - 1]);
      assert rest[..n][..n - 1] == rest[..n - 1];
      assert s + [b] == t + rest[..n] == Text(f)[..|t| + n];
      OneByte(h.parser, s, left, b);
      assert h.events + [] == h.events;
      FrameProgress(f, |t| + n - 1);
      if n < |rest| { FrameProgress(f, |t| + n); }
      assert s == Text(f)[..|t| + n - 1] && b == Text(f)[|t| + n - 1];
      AtRestOnly(Step(h, b, false).parser);
    }
  }

  lemma {:induction false} AtRestOnly(p: Parser)
    ensures Begun([]) && (Within(p, [], []) ==> AtRest(p))
  {
  }

  /** Of a frame, every proper part is begun, and only the one that lacks a byte is about to finish. */
  lemma {:induction false} FrameProgress(f: Frame, n: nat)
    requires AllGraphic(f.body) && 0 < n < |Text(f)|
    ensures var t := Text(f)[..n];
      && Begun(t) && t != [] && (Finishes(t) <==> n == |Text(f)| - 1)
      && (Finishes(t) ==> FrameOf(t, Text(f)[n]) == f)
  {
    var t := Text(f)[..n];
    PrefixBegun(f, t);
    if n == |Text(f)| - 1 {
      FrameSplit(f);
    } else if |t| > 3 {
      assert t[n - 1] == f.body[n - 4] && f.body[n - 4] in f.body;
    }
  }

  /**
   * After a framing error the next frame in the same buffer is taken up, but its body is delivered behind
   * what had been read of the broken one: it is delivered as sent exactly when that was nothing.
   */
  lemma {:induction false} NextFrameExactIff(g: Progress, noise: Bytes, f: Frame, rest: Bytes, left: Bytes)
    requires Broken(g.parser, left) && AllGraphic(f.body) && forall b :: b in noise ==> b != 1
    ensures var h := Progress(Parser(Idle, Some(NewMessage)), g.events + [Delivered(MessageOf(f, left))]);
      Fold(g, noise + Text(f) + rest) == Fold(h, rest)
    ensures left + f.body == f.body <==> left == []
  {
    hide ParseByte, Within, Begun, RunOver, Steady;
    var s := noise + Text(f) + rest;
    assert s[|noise|] == 1 && forall k :: 0 <= k < |noise| ==> s[k] == noise[k] && noise[k] in noise;
    Resumed(g, s, |noise|, left);
    var h := g.(parser := g.parser.(state := Opcode));
    var more := Text(f)[1..];
    assert s[|noise| + 1..] == more + rest && [1] + more == Text(f);
    FrameContinues(h, [1], left, f, more);
    FoldOver(h, more, rest);
    FrameEndsNew(h, [1], left, f, more);
    if left + f.body == f.body {
      assert |left| == 0;
    }
  }

  /** After a frame the current message is a new one. */
  lemma {:induction false} FrameEndsNew(g: Progress, t: Bytes, left: Bytes, f: Frame, rest: Bytes)
    requires Begun(t) && t != [] && Within(g.parser, t, left) && AllGraphic(f.body) && t + rest == Text(f)
    ensures RunOver(g, rest).parser == Parser(Idle, Some(NewMessage))
  {
    hide Begun, Within;
    FrameNotBegun(f);
    assert rest != [] by { assert t + [] == t; }
    var n := |rest|;
    FrameContinuesBack(g, t, left, f, rest, n - 1);
    FrameProgress(f, |t| + n - 1);
    assert t + rest[..n - 1] == Text(f)[..|t| + n - 1];
    LrcEnds(RunOver(g, rest[..n - 1]), t + rest[..n - 1], left, rest[n - 1]);
  }

  lemma {:induction false} LrcEnds(g: Progress, t: Bytes, left: Bytes, b: Byte)
    requires Begun(t) && Finishes(t) && Within(g.parser, t, left)
    ensures Step(g, b, false).parser == Parser(Idle, Some(NewMessage))
  {
  }

  /** The serializer writes a frame of this grammar with the check byte 'L', and an EOT behind it. */
  lemma {:induction false} SerializedText(m: DemoMessage)
    ensures Serialize(m) == Text(Frame(m.isRequest, m.body, 76)) + [4]
  {
    var a: Bytes := [1, if m.isRequest then 81 else 82, 2];
    assert a + (m.body + [3, 76, 4]) == (a + m.body + [3, 76]) + [4];
  }

  /** A request "h" with a bad byte in it, then the request "i": one request "hi" is delivered, and no error. */
  lemma {:induction false} LeftoverExample()
    ensures var s: Bytes := [1, 81, 2, 104, 0, 1, 81, 2, 105, 3, 76, 4];
      Present(Progress(NewParser, []), s).events == [Delivered(DemoMessage(true, [104, 105], 76))]
  {
    hide Fold, Present, Broken, AllGraphic;
    var a, more: Bytes := [1, 81, 2, 104, 0], [1, 81, 2, 105, 3, 76, 4];
    var g := Progress(NewParser, []);
    assert a + more == [1, 81, 2, 104, 0, 1, 81, 2, 105, 3, 76, 4];
    var h := FirstHalf(g, more);
    SecondHalf(h);
    PresentIsFold(g, a + more);
  }

  lemma {:induction false} FirstHalf(g: Progress, rest: Bytes) returns (h: Progress)
    requires g == Progress(NewParser, [])
    ensures Broken(h.parser, [104]) && h.events == [] && Fold(g, [1, 81, 2, 104, 0] + rest) == Fold(h, rest)
  {
    var a: Bytes := [1, 81, 2, 104];
    assert a + [0] == [1, 81, 2, 104, 0];
    var x := Parse([], a);
    BadByte(a);
    hide Fold, Broken, MoreOf, LeftInRecovery, ParseOf;
    h := BreaksHere(g, a, x, 0, rest);
    assert BodyRead(a) == [104];
    NothingTold(g.events);
  }

  lemma {:induction false} NothingTold(events: seq<Event>)
    ensures events + Told([]) == events
  {
  }

  lemma {:induction false} SecondHalf(h: Progress)
    requires Broken(h.parser, [104]) && h.events == []
    ensures Fold(h, [1, 81, 2, 105, 3, 76, 4]).events == [Delivered(DemoMessage(true, [104, 105], 76))]
  {
    hide Fold, Broken;
    var f := Frame(true, [105], 76);
    assert [] + Text(f) + [4] == [1, 81, 2, 105, 3, 76, 4];
    NextFrameExactIff(h, [], f, [4], [104]);
    assert [104] + [105] == [104, 105];
    NoiseEnds(Progress(Parser(Idle, Some(NewMessage)), [] + [Delivered(MessageOf(f, [104]))]));
  }

  lemma {:induction false} BadByte(a: Bytes)
    requires a == [1, 81, 2, 104]
    ensures ParseOf(a, Parse([], a)) && MoreOf(Parse([], a), 0) == None
  {
    hide Begun;
    OneLetter(a);
    assert [] + a == a;
    BodyByte(a, 0);
  }

  lemma {:induction false} OneLetter(a: Bytes)
    requires a == [1, 81, 2, 104]
    ensures Begun(a)
  {
    assert a[3..] == [104];
  }

  lemma {:induction false} NoiseEnds(g: Progress)
    requires g.parser == Parser(Idle, Some(NewMessage))
    ensures Fold(g, [4]) == g
  {
    assert [4][1..] == [];
    assert g.events + [] == g.events;
    FoldNothing(g);
    assert Fold(g, [4]) == Fold(Step(g, 4, true), []);
  }
}
