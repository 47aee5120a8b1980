/**
 * Completeness of the URL parser: the printed form of every well-formed target is accepted, and the
 * field table locates exactly its components.
 */
module UrlAccepts {
  import opened Common
  import opened UrlParser
  import opened UrlGrammar

  // ---------------------------------------------------------------- the character classes

  /** Every class of the parser is a class of the grammar. */
  lemma {:induction false} ClassesAgree(c: char)
    ensures (IsAlpha(c) <==> Letter(c)) && (IsNum(c) <==> Digit(c)) && (IsHex(c) <==> HexDigit(c))
    ensures (IsUserinfoChar(c) <==> UserinfoChar(c)) && (IsHostChar(c) <==> HostChar(c))
    ensures (IsV6Char(c) <==> V6Char(c)) && (IsZoneChar(c) <==> ZoneChar(c)) && (IsUrlChar(c) <==> PathChar(c))
  {
  }

  /** The 128 entries of normal_url_char, eight to a number, lowest bit first. */
  const NormalUrlChar: seq<nat> := [0, 0, 0, 0, 246, 255, 255, 127, 255, 255, 255, 255, 255, 255, 255, 127]

  function Power(k: nat): nat { if k == 0 then 1 else 2 * Power(k - 1) }

  predicate Entry(n: nat)
    requires n < 128
  {
    Power(n % 8) > 0 && NormalUrlChar[n / 8] / Power(n % 8) % 2 == 1
  }

  lemma {:induction false} Powers()
    ensures Power(0) == 1 && Power(1) == 2 && Power(2) == 4 && Power(3) == 8
    ensures Power(4) == 16 && Power(5) == 32 && Power(6) == 64 && Power(7) == 128
  {
    assert Power(3) == 8 && Power(5) == 32;
  }

  /** The bits of a number, by position. */
  function Bit(b: nat, k: nat): bool
    requires k < 8
  {
    (if k == 0 then b else if k == 1 then b / 2 else if k == 2 then b / 4 else if k == 3 then b / 8
     else if k == 4 then b / 16 else if k == 5 then b / 32 else if k == 6 then b / 64 else b / 128) % 2 == 1
  }

  lemma {:induction false} EntryIsBit(n: nat)
    requires n < 128
    ensures Entry(n) <==> Bit(NormalUrlChar[n / 8], n % 8)
  {
    Powers();
  }

  /** The table's set bits are the printable characters but for the two that end a path. */
  lemma {:induction false} TableIff(c: char)
    ensures IsUrlChar(c) <==> c as int < 128 && Entry(c as int)
  {
    if c as int < 128 {
      EntryIsBit(c as int);
    }
  }

  /** What the outer automaton makes of the characters of a tail. */
  lemma {:induction false} TailChars(c: char)
    ensures PathChar(c) ==> ParseUrlChar(SPath, c) == SPath
    ensures QueryChar(c) ==> ParseUrlChar(SQueryStringStart, c) == SQueryString && ParseUrlChar(SQueryString, c) == SQueryString
    ensures FragChar(c) ==> ParseUrlChar(SFragment, c) == SFragment && (c != '#' ==> ParseUrlChar(SFragmentStart, c) == SFragment)
  {
  }

  /** What the inner automaton makes of the characters of an authority. */
  lemma {:induction false} AuthorityStates(c: char)
    ensures HostChar(c) ==> ParseHostChar(HHostStart, c) == HHost && ParseHostChar(HHost, c) == HHost
    ensures V6Char(c) ==> ParseHostChar(HHostV6Start, c) == HHostV6 && ParseHostChar(HHostV6, c) == HHostV6
    ensures ZoneChar(c) ==> ParseHostChar(HHostV6ZoneStart, c) == HHostV6Zone && ParseHostChar(HHostV6Zone, c) == HHostV6Zone
    ensures Digit(c) ==> ParseHostChar(HHostPortStart, c) == HHostPort && ParseHostChar(HHostPort, c) == HHostPort
    ensures UserinfoChar(c) ==> ParseHostChar(HUserinfoStart, c) == HUserinfo && ParseHostChar(HUserinfo, c) == HUserinfo
  {
  }

  /** What the outer automaton makes of them. */
  lemma {:induction false} AuthorityClass(c: char)
    ensures HostChar(c) || V6Char(c) || ZoneChar(c) || Digit(c) ==> IsAuthorityChar(c) && c != '@'
    ensures UserinfoChar(c) ==> IsAuthorityChar(c) && c != '@'
    ensures c == '[' || c == ']' || c == ':' || c == '%' || c == '@' ==> IsAuthorityChar(c)
  {
  }

  // ---------------------------------------------------------------- runs of the outer automaton

  lemma {:induction false} RunConcat(sc: Scan, a: string, b: string, p: nat)
    ensures Run(sc, a + b, p) == Run(Run(sc, a, p), b, p + |a|)
    decreases |a|
  {
    hide ScanChar;
    if a == [] {
      assert a + b == b;
    } else {
      assert (a + b)[1..] == a[1..] + b;
      RunConcat(ScanChar(sc, a[0], p), a[1..], b, p + 1);
    }
  }

  lemma {:induction false} RunRejected(str: string, p: nat)
    ensures Run(Rejected, str, p) == Rejected
    decreases |str|
  {
    if str != [] { RunRejected(str[1..], p + 1); }
  }

  lemma {:induction false} RunOne(sc: Scan, c: char, p: nat)
    ensures Run(sc, [c], p) == ScanChar(sc, c, p)
  {
    assert Run(sc, [c], p) == Run(ScanChar(sc, c, p), [], p + 1);
  }

  lemma {:induction false} U16Small(n: nat)
    requires n <= 0xffff
    ensures U16(n) == n
  {
  }

  lemma {:induction false} U16Add(a: nat, b: nat)
    ensures U16(U16(a) + b) == U16(a + b) && U16(a) <= 0xffff
  {
  }

  predicate LoopsOn(s: State, w: string) { forall c :: c in w ==> ParseUrlChar(s, c) == s }

  /** A run of characters on which a field's state loops makes the field that much longer. */
  lemma {:induction false} RunLoop(sc: Scan, w: string, p: nat, uf: Field)
    requires sc.Alive? && FieldOf(sc.s) == Some(uf) && sc.oldUf == Some(uf) && uf in sc.fields
    requires sc.s != SServerWithAt && sc.s != SDead && LoopsOn(sc.s, w)
    requires sc.fields[uf].len <= 0xffff
    ensures Run(sc, w, p) == sc.(fields := sc.fields[uf := Span(sc.fields[uf].off, U16(sc.fields[uf].len + |w|))])
    decreases |w|
  {
    hide U16, ScanChar;
    var off, len := sc.fields[uf].off, sc.fields[uf].len;
    if w == [] {
      U16Small(len);
      assert sc.fields[uf := sc.fields[uf]] == sc.fields;
    } else {
      assert w[0] in w && forall c :: c in w[1..] ==> c in w;
      var next := sc.(fields := sc.fields[uf := Span(off, U16(len + 1))]);
      ScanLoop(sc, w[0], p, uf);
      U16Add(len + 1, |w| - 1);
      RunLoop(next, w[1..], p + 1, uf);
      assert next.fields[uf := Span(off, U16(len + |w|))] == sc.fields[uf := Span(off, U16(len + |w|))];
    }
  }

  lemma {:induction false} ScanLoop(sc: Scan, c: char, p: nat, uf: Field)
    requires sc.Alive? && FieldOf(sc.s) == Some(uf) && sc.oldUf == Some(uf) && uf in sc.fields
    requires sc.s != SServerWithAt && sc.s != SDead && ParseUrlChar(sc.s, c) == sc.s
    ensures ScanChar(sc, c, p) == sc.(fields := sc.fields[uf := Span(sc.fields[uf].off, U16(sc.fields[uf].len + 1))])
  {
  }

  /** A non-empty run that enters a field's state and loops there is that field. */
  lemma {:induction false} RunEnter(sc: Scan, w: string, p: nat, s: State, uf: Field)
    requires sc.Alive? && w != [] && FieldOf(s) == Some(uf) && sc.oldUf != Some(uf)
    requires ParseUrlChar(sc.s, w[0]) == s && s != SServerWithAt && LoopsOn(s, w[1..])
    ensures Run(sc, w, p) == Alive(s, Some(uf), sc.fields[uf := Span(U16(p), U16(|w|))], sc.foundAt)
  {
    hide U16;
    var next := ScanChar(sc, w[0], p);
    assert next == Alive(s, Some(uf), sc.fields[uf := Span(U16(p), 1)], sc.foundAt);
    RunLoop(next, w[1..], p + 1, uf);
    assert next.fields[uf := Span(U16(p), U16(|w|))] == sc.fields[uf := Span(U16(p), U16(|w|))];
  }

  // ---------------------------------------------------------------- path, query, fragment

  /** The scan has not yet come to the path. */
  predicate BeforeTail(sc: Scan) {
    sc.Alive? && sc.oldUf in [None, Some(UfSchema), Some(UfHost)]
  }

  /** The first character of a tail leaves the state for the path or the query. */
  predicate CanStart(sc: Scan, t: Tail)
    requires sc.Alive?
  {
    if t.path != [] then ParseUrlChar(sc.s, t.path[0]) == SPath
    else t.query.Some? ==> ParseUrlChar(sc.s, '?') == SQueryStringStart
  }

  lemma {:induction false} RunPath(sc: Scan, t: Tail, p: nat)
    requires BeforeTail(sc) && TailOk(t) && CanStart(sc, t)
    ensures var r := Run(sc, t.path, p);
      && r.Alive? && r.fields == Put(sc.fields, UfPath, p, t.path) && r.foundAt == sc.foundAt
      && r.oldUf in [None, Some(UfSchema), Some(UfHost), Some(UfPath)]
      && (if t.path != [] then r.s == SPath else r == sc)
  {
    hide Run, ParseUrlChar, PathChar, QueryChar, FragChar, U16;
    RunNothing(sc, p);
    if t.path != [] {
      forall c | c in t.path[1..] ensures ParseUrlChar(SPath, c) == SPath {
        assert c in t.path;
        TailChars(c);
      }
      RunEnter(sc, t.path, p, SPath, UfPath);
    }
  }

  lemma {:induction false} RunQuery(sc: Scan, q: Option<string>, p: nat)
    requires sc.Alive? && (q.Some? ==> ParseUrlChar(sc.s, '?') == SQueryStringStart && All(QueryChar, q.value))
    requires sc.oldUf !in [Some(UfQuery), Some(UfFragment)]
    ensures var r := Run(sc, RenderQuery(q), p);
      && r.Alive? && r.fields == Put(sc.fields, UfQuery, p + 1, if q.Some? then q.value else []) && r.foundAt == sc.foundAt
      && r.oldUf != Some(UfFragment)
      && (if q.Some? then r.s == SQueryStringStart || r.s == SQueryString else r == sc)
  {
    hide Run, ParseUrlChar, QueryChar, U16;
    RunNothing(sc, p);
    if q.Some? {
      var s1 := sc.(s := SQueryStringStart);
      RunNothing(s1, p + 1);
      RunConcat(sc, "?", q.value, p);
      RunOne(sc, '?', p);
      assert ScanChar(sc, '?', p) == s1;
      if q.value != [] {
        forall c | c in q.value
          ensures ParseUrlChar(SQueryStringStart, c) == SQueryString && ParseUrlChar(SQueryString, c) == SQueryString
        {
          TailChars(c);
        }
        assert q.value[0] in q.value && forall c :: c in q.value[1..] ==> c in q.value;
        RunEnter(s1, q.value, p + 1, SQueryString, UfQuery);
      }
    }
  }

  lemma {:induction false} RunHashes(sc: Scan, n: nat, p: nat)
    requires sc.Alive? && sc.s == SFragmentStart
    ensures Run(sc, Hashes(n), p) == sc
    decreases n
  {
    if n > 0 {
      assert Hashes(n)[1..] == Hashes(n - 1);
      RunHashes(sc, n - 1, p + 1);
    }
  }

  lemma {:induction false} FragLoops(text: string)
    requires text != [] && text[0] != '#' && All(FragChar, text)
    ensures ParseUrlChar(SFragmentStart, text[0]) == SFragment && LoopsOn(SFragment, text[1..])
  {
    hide ParseUrlChar, FragChar;
    assert text[0] in text && forall c :: c in text[1..] ==> c in text;
    forall c | c in text ensures ParseUrlChar(SFragment, c) == SFragment && (c != '#' ==> ParseUrlChar(SFragmentStart, c) == SFragment) {
      TailChars(c);
    }
  }

  lemma {:induction false} RunFrag(sc: Scan, f: Option<Frag>, p: nat)
    requires sc.Alive? && sc.oldUf != Some(UfFragment)
    requires f.Some? ==>
      && sc.s in [SPath, SQueryStringStart, SQueryString]
      && f.value.hashes > 0 && All(FragChar, f.value.text) && (f.value.text != [] ==> f.value.text[0] != '#')
    ensures var r := Run(sc, RenderFrag(f), p);
      && r.Alive? && r.foundAt == sc.foundAt
      && r.fields == if f.None? then sc.fields else Put(sc.fields, UfFragment, p + f.value.hashes, f.value.text)
  {
    hide Run, ScanChar, ParseUrlChar, LoopsOn, FragChar, All, U16;
    if f.Some? {
      var h, text := f.value.hashes, f.value.text;
      var s1 := sc.(s := SFragmentStart);
      RunAllHashes(sc, h, p);
      RunConcat(sc, Hashes(h), text, p);
      if text != [] {
        FragLoops(text);
        RunEnter(s1, text, p + h, SFragment, UfFragment);
      } else {
        RunNothing(s1, p + h);
      }
    } else {
      RunNothing(sc, p);
    }
  }

  lemma {:induction false} RunNothing(sc: Scan, p: nat)
    ensures Run(sc, [], p) == sc
  {
  }

  lemma {:induction false} RunAllHashes(sc: Scan, h: nat, p: nat)
    requires sc.Alive? && sc.s in [SPath, SQueryStringStart, SQueryString] && h > 0
    ensures Run(sc, Hashes(h), p) == sc.(s := SFragmentStart)
  {
    hide Run, ScanChar;
    HashStep(sc, p);
    assert Hashes(h) == "#" + Hashes(h - 1);
    RunConcat(sc, "#", Hashes(h - 1), p);
    RunOne(sc, '#', p);
    RunHashes(sc.(s := SFragmentStart), h - 1, p + 1);
  }

  lemma {:induction false} HashStep(sc: Scan, p: nat)
    requires sc.Alive? && sc.s in [SPath, SQueryStringStart, SQueryString]
    ensures ScanChar(sc, '#', p) == sc.(s := SFragmentStart)
  {
  }

  lemma {:induction false} RunTail(sc: Scan, t: Tail, p: nat)
    requires BeforeTail(sc) && TailOk(t) && CanStart(sc, t)
    ensures var r := Run(sc, RenderTail(t), p);
      r.Alive? && r.fields == TailLayout(sc.fields, t, p) && r.foundAt == sc.foundAt
  {
    hide Run;
    RunPath(sc, t, p);
    var s1 := Run(sc, t.path, p);
    RunConcat(sc, t.path, RenderQuery(t.query) + RenderFrag(t.frag), p);
    RunQuery(s1, t.query, p + |t.path|);
    var s2 := Run(s1, RenderQuery(t.query), p + |t.path|);
    RunConcat(s1, RenderQuery(t.query), RenderFrag(t.frag), p + |t.path|);
    RunFrag(s2, t.frag, p + |t.path| + |RenderQuery(t.query)|);
  }

  // ---------------------------------------------------------------- the host segment, outer view

  predicate IsAuthorityChar(c: char) { IsUserinfoChar(c) || c == '[' || c == ']' || c == '@' }

  predicate InServer(s: State) { s == SServerStart || s == SServer || s == SServerWithAt }

  /** No '@' follows another one. */
  predicate NoDoubleAt(r: string) { forall i :: 0 <= i < |r| - 1 ==> !(r[i] == '@' && r[i + 1] == '@') }

  /** The host field after `r` more characters. */
  function HostGrown(sc: Scan, r: string, p: nat): Fields
    requires sc.Alive?
  {
    if r == [] then sc.fields
    else if sc.oldUf == Some(UfHost) && UfHost in sc.fields
    then sc.fields[UfHost := Span(sc.fields[UfHost].off, U16(sc.fields[UfHost].len + |r|))]
    else sc.fields[UfHost := Span(U16(p), U16(|r|))]
  }

  lemma {:induction false} ServerStep(sc: Scan, c: char, p: nat)
    requires sc.Alive? && InServer(sc.s) && IsAuthorityChar(c)
    requires sc.oldUf == Some(UfHost) <==> sc.s != SServerStart
    requires sc.oldUf == Some(UfHost) ==> UfHost in sc.fields
    ensures var o := ScanChar(sc, c, p);
      if sc.s == SServerWithAt && c == '@' then o == Rejected
      else o == Alive(if c == '@' then SServerWithAt else SServer, Some(UfHost), HostGrown(sc, [c], p), sc.foundAt || c == '@')
  {
  }

  /** Authority characters are collected in the host field, and every '@' is noticed. */
  lemma {:induction false} RunServer(sc: Scan, r: string, p: nat)
    requires sc.Alive? && InServer(sc.s) && All(IsAuthorityChar, r)
    requires sc.oldUf == Some(UfHost) <==> sc.s != SServerStart
    requires sc.oldUf == Some(UfHost) ==> UfHost in sc.fields && sc.fields[UfHost].len <= 0xffff
    ensures var o := Run(sc, r, p);
      if o.Rejected? then !NoDoubleAt(if sc.s == SServerWithAt then "@" + r else r)
      else if r == [] then o == sc
      else o.s in [SServer, SServerWithAt] && o.oldUf == Some(UfHost)
           && o.fields == HostGrown(sc, r, p) && o.foundAt == (sc.foundAt || '@' in r)
    decreases |r|
  {
    hide ScanChar, IsAuthorityChar, NoDoubleAt, InServer, U16;
    if r == [] { return; }
    assert r[0] in r && forall c :: c in r[1..] ==> c in r;
    ServerStep(sc, r[0], p);
    DoubleAtTail(r);
    var next := ScanChar(sc, r[0], p);
    if next.Rejected? {
      RunRejected(r[1..], p + 1);
    } else {
      assert InServer(next.s) by { ServerStates(); }
      HostGrowsOn(sc, r, p, next);
      RunServer(next, r[1..], p + 1);
      assert '@' in r <==> r[0] == '@' || '@' in r[1..];
      assert r[0] == '@' ==> "@" + r[1..] == r;
    }
  }

  /** A character and then the rest make the host field as long as all of it. */
  lemma {:induction false} HostGrowsOn(sc: Scan, r: string, p: nat, next: Scan)
    requires sc.Alive? && next.Alive? && r != [] && next.fields == HostGrown(sc, [r[0]], p) && next.oldUf == Some(UfHost)
    ensures UfHost in next.fields && next.fields[UfHost].len <= 0xffff
    ensures r[1..] == [] ==> next.fields == HostGrown(sc, r, p)
    ensures r[1..] != [] ==> HostGrown(next, r[1..], p + 1) == HostGrown(sc, r, p)
  {
    hide U16;
    var start := if sc.oldUf == Some(UfHost) && UfHost in sc.fields then sc.fields[UfHost].len else 0;
    U16Add(start + 1, |r| - 1);
    U16Add(start + 1, 0);
    U16Small(0);
  }

  lemma {:induction false} ServerStates()
    ensures InServer(SServer) && InServer(SServerWithAt)
  {
  }

  lemma {:induction false} DoubleAtTail(r: string)
    requires r != []
    ensures !NoDoubleAt(r[1..]) ==> !NoDoubleAt(r)
    ensures !NoDoubleAt(r) ==> !NoDoubleAt("@" + r)
    ensures r[0] == '@' ==> !NoDoubleAt("@" + r)
  {
    assert ("@" + r)[0] == '@' && ("@" + r)[0 + 1] == r[0];
    if i :| 0 <= i < |r[1..]| - 1 && r[1..][i] == '@' && r[1..][i + 1] == '@' {
      assert r[i + 1] == '@' && r[i + 1 + 1] == '@';
    }
    if i :| 0 <= i < |r| - 1 && r[i] == '@' && r[i + 1] == '@' {
      assert ("@" + r)[i + 1] == '@' && ("@" + r)[i + 1 + 1] == '@';
    }
  }

  // ---------------------------------------------------------------- the host segment, inner view

  lemma {:induction false} HostRunConcat(h: HostScan, a: string, b: string, p: nat)
    ensures HostRun(h, a + b, p) == HostRun(HostRun(h, a, p), b, p + |a|)
    decreases |a|
  {
    hide HostScanChar;
    if a == [] {
      assert a + b == b;
    } else {
      assert (a + b)[1..] == a[1..] + b;
      HostRunConcat(HostScanChar(h, a[0], p), a[1..], b, p + 1);
    }
  }

  lemma {:induction false} HostRunOne(h: HostScan, c: char, p: nat)
    ensures HostRun(h, [c], p) == HostScanChar(h, c, p)
  {
    assert HostRun(h, [c], p) == HostRun(HostScanChar(h, c, p), [], p + 1);
  }

  /** The field that a looping state of the inner automaton makes longer. */
  function Grown(s: HostState): Option<Field> {
    match s
    case HUserinfo => Some(UfUserinfo)
    case HHost => Some(UfHost)
    case HHostV6 => Some(UfHost)
    case HHostV6Zone => Some(UfHost)
    case HHostPort => Some(UfPort)
    case _ => None
  }

  lemma {:induction false} HostRunLoop(h: HostScan, w: string, p: nat, f: Field)
    requires h.HostAlive? && Grown(h.s) == Some(f) && f in h.fields && h.fields[f].len + |w| <= 0xffff
    requires forall c :: c in w ==> ParseHostChar(h.s, c) == h.s
    ensures HostRun(h, w, p) == h.(fields := h.fields[f := Span(h.fields[f].off, h.fields[f].len + |w|)])
    decreases |w|
  {
    if w == [] {
      assert h.fields[f := h.fields[f]] == h.fields;
    } else {
      assert w[0] in w && forall c :: c in w[1..] ==> c in w;
      var next := HostScanChar(h, w[0], p);
      assert next == h.(fields := h.fields[f := Span(h.fields[f].off, h.fields[f].len + 1)]);
      HostRunLoop(next, w[1..], p + 1, f);
      assert HostRun(h, w, p).fields == h.fields[f := Span(h.fields[f].off, h.fields[f].len + |w|)];
    }
  }

  /** One character into a looping state that leaves field `f` as `span`, then the loop. */
  lemma {:induction false} HostRunEnter(h: HostScan, w: string, p: nat, s: HostState, f: Field, span: Span)
    requires h.HostAlive? && w != [] && Grown(s) == Some(f) && ParseHostChar(h.s, w[0]) == s
    requires HostFields(h.fields, h.s, s, p) == h.fields[f := span] && span.len + |w| - 1 <= 0xffff
    requires forall c :: c in w[1..] ==> ParseHostChar(s, c) == s
    ensures HostRun(h, w, p) == HostAlive(s, h.fields[f := Span(span.off, span.len + |w| - 1)])
  {
    var next := HostScanChar(h, w[0], p);
    HostRunLoop(next, w[1..], p + 1, f);
    assert h.fields[f := span][f := Span(span.off, span.len + |w| - 1)] == h.fields[f := Span(span.off, span.len + |w| - 1)];
  }

  lemma {:induction false} UserinfoLoops(w: string)
    requires w != [] && All(UserinfoChar, w)
    ensures ParseHostChar(HUserinfoStart, w[0]) == HUserinfo && forall c :: c in w[1..] ==> ParseHostChar(HUserinfo, c) == HUserinfo
  {
    hide ParseHostChar, UserinfoChar;
    assert w[0] in w && forall c :: c in w[1..] ==> c in w;
    forall c | c in w ensures ParseHostChar(HUserinfoStart, c) == HUserinfo && ParseHostChar(HUserinfo, c) == HUserinfo {
      AuthorityStates(c);
    }
  }

  lemma {:induction false} HostRunUserinfo(h: HostScan, u: Option<string>, p: nat)
    requires h.HostAlive? && (u.Some? ==> All(UserinfoChar, u.value))
    requires h.s == if u.Some? then HUserinfoStart else HHostStart
    requires p + |RenderUserinfo(u)| <= 0xffff
    ensures HostRun(h, RenderUserinfo(u), p)
         == HostAlive(HHostStart, Put(h.fields, UfUserinfo, p, if u.Some? then u.value else []))
  {
    hide HostRun;
    HostRunNothing(h, p);
    if u.Some? {
      var w := u.value;
      HostRunConcat(h, w, "@", p);
      if w != [] {
        UserinfoLoops(w);
        HostRunEnter(h, w, p, HUserinfo, UfUserinfo, Span(p, 1));
      }
      HostRunOne(HostRun(h, w, p), '@', p + |w|);
    }
  }

  lemma {:induction false} HostRunZone(h: HostScan, zone: Option<string>, p: nat)
    requires h.HostAlive? && h.s == HHostV6 && UfHost in h.fields && h.fields[UfHost].len + |Zone(zone)| <= 0xffff
    requires zone.Some? ==> zone.value != [] && All(ZoneChar, zone.value)
    ensures var r, span := HostRun(h, Zone(zone), p), h.fields[UfHost];
      && r.HostAlive? && (r.s == HHostV6 || r.s == HHostV6Zone)
      && r.fields == h.fields[UfHost := Span(span.off, span.len + |Zone(zone)|)]
  {
    hide HostRun;
    if zone.None? {
      HostRunNothing(h, p);
      assert h.fields[UfHost := h.fields[UfHost]] == h.fields;
    } else {
      var z, span := zone.value, h.fields[UfHost];
      HostRunConcat(h, "%", z, p);
      HostRunOne(h, '%', p);
      var h1 := HostScanChar(h, '%', p);
      assert z[0] in z && forall c :: c in z[1..] ==> c in z;
      HostRunEnter(h1, z, p + 1, HHostV6Zone, UfHost, Span(span.off, span.len + 2));
    }
  }

  lemma {:induction false} HostRunNothing(h: HostScan, p: nat)
    ensures HostRun(h, [], p) == h
  {
  }

  lemma {:induction false} HostRunV6(h: HostScan, addr: string, zone: Option<string>, p: nat)
    requires h.HostAlive? && h.s == HHostStart && HostOk(V6(addr, zone))
    requires UfHost in h.fields && h.fields[UfHost].len == 0 && p + |RenderHost(V6(addr, zone))| <= 0xffff
    ensures HostRun(h, RenderHost(V6(addr, zone)), p)
         == HostAlive(HHostV6End, h.fields[UfHost := Span(p + 1, |addr + Zone(zone)|)])
  {
    hide HostRun, Zone, HostScanChar;
    var text := addr + Zone(zone);
    HostRunConcat(h, "[" + text, "]", p);
    HostRunConcat(h, "[", text, p);
    var h1 := HostAlive(HHostV6Start, h.fields);
    HostRunOne(h, '[', p);
    BracketOpens(h, p);
    HostRunConcat(h1, addr, Zone(zone), p + 1);
    HostRunAddr(h1, addr, p + 1);
    var h2 := HostRun(h1, addr, p + 1);
    HostRunZone(h2, zone, p + 1 + |addr|);
    var h3 := HostRun(h1, text, p + 1);
    assert h3.fields == h.fields[UfHost := Span(p + 1, |text|)];
    HostRunOne(h3, ']', p + 1 + |text|);
    BracketCloses(h3, p + 1 + |text|);
  }

  lemma {:induction false} BracketOpens(h: HostScan, p: nat)
    requires h.HostAlive? && h.s == HHostStart
    ensures HostScanChar(h, '[', p) == HostAlive(HHostV6Start, h.fields)
  {
  }

  lemma {:induction false} BracketCloses(h: HostScan, p: nat)
    requires h.HostAlive? && (h.s == HHostV6 || h.s == HHostV6Zone)
    ensures HostScanChar(h, ']', p) == HostAlive(HHostV6End, h.fields)
  {
  }

  lemma {:induction false} HostRunAddr(h: HostScan, addr: string, p: nat)
    requires h.HostAlive? && h.s == HHostV6Start && addr != [] && All(V6Char, addr)
    requires UfHost in h.fields && h.fields[UfHost].len == 0 && p + |addr| <= 0xffff
    ensures HostRun(h, addr, p) == HostAlive(HHostV6, h.fields[UfHost := Span(p, |addr|)])
  {
    hide HostRun;
    assert addr[0] in addr && forall c :: c in addr[1..] ==> c in addr;
    HostRunEnter(h, addr, p, HHostV6, UfHost, Span(p, 1));
  }

  lemma {:induction false} HostRunHost(h: HostScan, host: Host, p: nat)
    requires h.HostAlive? && h.s == HHostStart && HostOk(host)
    requires UfHost in h.fields && h.fields[UfHost].len == 0 && p + |RenderHost(host)| <= 0xffff
    ensures var r := HostRun(h, RenderHost(host), p);
      && r.HostAlive? && r.s == (if host.V6? then HHostV6End else HHost)
      && r.fields == Put(h.fields, UfHost, if host.V6? then p + 1 else p, HostText(host))
  {
    hide HostRun, ParseHostChar, HostChar;
    match host {
      case Name(name) =>
        forall c | c in name ensures ParseHostChar(HHostStart, c) == HHost && ParseHostChar(HHost, c) == HHost {
          AuthorityStates(c);
        }
        assert name[0] in name && forall c :: c in name[1..] ==> c in name;
        HostRunEnter(h, name, p, HHost, UfHost, Span(p, 1));
      case V6(addr, zone) => HostRunV6(h, addr, zone, p);
    }
  }

  lemma {:induction false} HostRunPort(h: HostScan, port: Option<string>, p: nat)
    requires h.HostAlive? && (h.s == HHost || h.s == HHostV6End) && UfPort !in h.fields
    requires (port.Some? ==> port.value != [] && All(Digit, port.value)) && p + |RenderPort(port)| <= 0xffff
    ensures var r := HostRun(h, RenderPort(port), p);
      && r.HostAlive? && HostEndOk(r.s)
      && r.fields == Put(h.fields, UfPort, p + 1, if port.Some? then port.value else [])
  {
    hide HostRun;
    HostRunNothing(h, p);
    if port.Some? {
      var w := port.value;
      HostRunConcat(h, ":", w, p);
      HostRunOne(h, ':', p);
      assert w[0] in w && forall c :: c in w[1..] ==> c in w;
      assert HostScanChar(h, ':', p) == h.(s := HHostPortStart);
      HostRunEnter(h.(s := HHostPortStart), w, p + 1, HHostPort, UfPort, Span(p + 1, 1));
    }
  }

  /** The inner automaton splits a printed authority into its parts. */
  lemma {:induction false} HostRunAuthority(fields: Fields, a: Authority, base: nat)
    requires UfHost in fields && UfPort !in fields && UfUserinfo !in fields
    requires AuthorityOk(a) && base + |RenderAuthority(a)| <= 0xffff
    ensures var r := HostRun(HostStart(a.userinfo.Some?, fields), RenderAuthority(a), base);
      r.HostAlive? && HostEndOk(r.s) && r.fields == AuthorityLayout(fields, a, base)
  {
    hide HostRun, HostEndOk;
    var h := HostStart(a.userinfo.Some?, fields);
    var u, host, port := RenderUserinfo(a.userinfo), RenderHost(a.host), RenderPort(a.port);
    HostRunConcat(h, u, host + port, base);
    HostRunUserinfo(h, a.userinfo, base);
    var h1 := HostRun(h, u, base);
    HostRunConcat(h1, host, port, base + |u|);
    HostRunHost(h1, a.host, base + |u|);
    var h2 := HostRun(h1, host, base + |u|);
    HostRunPort(h2, a.port, base + |u| + |host|);
    assert HostText(a.host) != [];
    assert h2.fields == Put(Put(fields, UfUserinfo, base, if a.userinfo.Some? then a.userinfo.value else []),
                            UfHost, if a.host.V6? then base + |u| + 1 else base + |u|, HostText(a.host));
  }

  // ---------------------------------------------------------------- the port number

  lemma {:induction false} ConvertIsDecimal(before: string, digits: string)
    requires All(Digit, before) && All(Digit, digits) && Decimal(before) <= 0xffff
    ensures ConvertPort(Decimal(before), digits)
         == if Decimal(before + digits) <= 0xffff then Some(Decimal(before + digits)) else None
    decreases |digits|
  {
    if digits == [] {
      assert before + digits == before;
    } else {
      assert digits[0] in digits && forall c :: c in digits[1..] ==> c in digits;
      var next := before + [digits[0]];
      assert next[..|before|] == before && Decimal(next) == Decimal(before) * 10 + DigitValue(digits[0]);
      assert before + digits == next + digits[1..];
      if Decimal(next) <= 0xffff {
        ConvertIsDecimal(next, digits[1..]);
      } else {
        DecimalGrows(next, digits[1..]);
      }
    }
  }

  lemma {:induction false} DecimalGrows(a: string, b: string)
    requires All(Digit, a) && All(Digit, b)
    ensures Decimal(a) <= Decimal(a + b)
    decreases |b|
  {
    if b == [] {
      assert a + b == a;
    } else {
      var c := b[..|b| - 1];
      assert forall x :: x in c ==> x in b;
      DecimalGrows(a, c);
      assert (a + b)[..|a + b| - 1] == a + c;
    }
  }

  /** The conversion loop computes the decimal value of the digits and rejects it above 65535. */
  lemma {:induction false} PortConversion(digits: string)
    requires All(Digit, digits)
    ensures ConvertPort(0, digits) == if Decimal(digits) <= 0xffff then Some(Decimal(digits)) else None
  {
    ConvertIsDecimal([], digits);
    assert [] + digits == digits;
  }

  // ---------------------------------------------------------------- the whole parser

  lemma {:induction false} HostChars(h: Host)
    requires HostOk(h)
    ensures RenderHost(h) != [] && forall c :: c in RenderHost(h) ==> IsAuthorityChar(c) && c != '@'
  {
    hide IsAuthorityChar, HostChar, V6Char, ZoneChar;
    forall c | c in RenderHost(h) ensures IsAuthorityChar(c) && c != '@' {
      AuthorityClass(c);
    }
  }

  /** The only '@' of a printed userinfo is its last character. */
  lemma {:induction false} UserinfoAt(u: Option<string>)
    requires u.Some? ==> All(UserinfoChar, u.value)
    ensures var r := RenderUserinfo(u);
      && (forall i :: 0 <= i < |r| - 1 ==> r[i] != '@')
      && (u.Some? ==> r != [] && r[|r| - 1] == '@')
  {
    if u.Some? {
      forall i | 0 <= i < |u.value| ensures u.value[i] != '@' {
        assert u.value[i] in u.value;
      }
    }
  }

  /** Seen from outside, a printed authority is a run of authority characters with at most one '@'. */
  lemma {:induction false} AuthorityChars(a: Authority)
    requires AuthorityOk(a)
    ensures var r := RenderAuthority(a);
      r != [] && All(IsAuthorityChar, r) && NoDoubleAt(r) && ('@' in r <==> a.userinfo.Some?)
  {
    HostChars(a.host);
    var u, rest := RenderUserinfo(a.userinfo), RenderHost(a.host) + RenderPort(a.port);
    assert forall c :: c in rest ==> IsAuthorityChar(c) && c != '@';
    assert forall c :: c in u ==> IsAuthorityChar(c);
    UserinfoAt(a.userinfo);
    var r := RenderAuthority(a);
    assert r == u + rest;
    forall i | 0 <= i < |r| - 1 ensures !(r[i] == '@' && r[i + 1] == '@') {
      if i + 1 >= |u| { assert r[i + 1] == rest[i + 1 - |u|] && r[i + 1] in rest; }
    }
  }

  lemma {:induction false} RunAuthority(sc: Scan, a: Authority, p: nat)
    requires sc.Alive? && sc.s == SServerStart && sc.oldUf != Some(UfHost) && !sc.foundAt
    requires AuthorityOk(a) && p + |RenderAuthority(a)| <= 0xffff
    ensures var r := Run(sc, RenderAuthority(a), p);
      && r.Alive? && r.s in [SServer, SServerWithAt] && r.oldUf == Some(UfHost) && r.foundAt == a.userinfo.Some?
      && r.fields == sc.fields[UfHost := Span(p, |RenderAuthority(a)|)]
  {
    hide Run, NoDoubleAt, RenderAuthority;
    AuthorityChars(a);
    RunServer(sc, RenderAuthority(a), p);
  }

  lemma {:induction false} PutCommutes(f: Fields, x: Field, o: nat, s: string, y: Field, o': nat, s': string)
    requires x != y
    ensures Put(Put(f, x, o, s), y, o', s') == Put(Put(f, y, o', s'), x, o, s)
  {
  }

  /** Reporting a part of the authority before or after the tail makes no difference. */
  lemma {:induction false} PutBeforeTail(f: Fields, x: Field, o: nat, s: string, t: Tail, base: nat)
    requires x in [UfUserinfo, UfHost, UfPort]
    ensures Put(TailLayout(f, t, base), x, o, s) == TailLayout(Put(f, x, o, s), t, base)
  {
    hide Put, RenderQuery;
    var q := if t.query.Some? then t.query.value else [];
    var f1 := Put(f, UfPath, base, t.path);
    PutCommutes(f, x, o, s, UfPath, base, t.path);
    PutCommutes(f1, x, o, s, UfQuery, base + |t.path| + 1, q);
    if t.frag.Some? {
      PutCommutes(Put(f1, UfQuery, base + |t.path| + 1, q), x, o, s,
                  UfFragment, base + |t.path| + |RenderQuery(t.query)| + t.frag.value.hashes, t.frag.value.text);
    }
  }

  lemma {:induction false} HostReplaced(g: Fields, a: Authority, base: nat, host: Span)
    requires AuthorityOk(a)
    ensures AuthorityLayout(g[UfHost := host], a, base) == AuthorityLayout(g, a, base)
  {
    assert HostText(a.host) != [];
  }

  lemma {:induction false} TailKeepsHost(f: Fields, t: Tail, base: nat)
    requires UfHost in f && f.Keys <= {UfSchema, UfHost}
    ensures var r := TailLayout(f, t, base); UfHost in r && r[UfHost] == f[UfHost] && UfPort !in r && UfUserinfo !in r
  {
  }

  lemma {:induction false} LayoutsCommute(g: Fields, a: Authority, t: Tail, base: nat, host: Span, b2: nat)
    requires AuthorityOk(a)
    ensures AuthorityLayout(TailLayout(g[UfHost := host], t, b2), a, base) == TailLayout(AuthorityLayout(g, a, base), t, b2)
  {
    hide TailLayout, RenderHost, RenderUserinfo, HostText, Put, AuthorityOk;
    var f, hostBase := g[UfHost := host], base + |RenderUserinfo(a.userinfo)|;
    var u, p := if a.userinfo.Some? then a.userinfo.value else [], if a.port.Some? then a.port.value else [];
    var o := if a.host.V6? then hostBase + 1 else hostBase;
    var f1 := Put(f, UfUserinfo, base, u);
    var f2 := Put(f1, UfHost, o, HostText(a.host));
    PutBeforeTail(f, UfUserinfo, base, u, t, b2);
    PutBeforeTail(f1, UfHost, o, HostText(a.host), t, b2);
    PutBeforeTail(f2, UfPort, hostBase + |RenderHost(a.host)| + 1, p, t, b2);
    HostReplaced(g, a, base, host);
  }

  lemma {:induction false} SliceMiddle(pre: string, mid: string, post: string)
    ensures (pre + (mid + post))[|pre|..|pre| + |mid|] == mid
  {
  }

  lemma {:induction false} PortSlice(pre: string, a: Authority, post: string)
    requires AuthorityOk(a) && a.port.Some?
    ensures var buf := pre + (RenderAuthority(a) + post);
      var off := |pre| + |RenderUserinfo(a.userinfo)| + |RenderHost(a.host)| + 1;
      off + |a.port.value| == |pre| + |RenderAuthority(a)| <= |buf| && buf[off..off + |a.port.value|] == a.port.value
  {
    var u, h := RenderUserinfo(a.userinfo), RenderHost(a.host);
    var front := pre + u + h + ":";
    assert pre + (RenderAuthority(a) + post) == front + (a.port.value + post);
    SliceMiddle(front, a.port.value, post);
  }

  /** The second half of the parser on a scanned authority and tail. */
  lemma {:induction false} FinishAuthority(pre: string, a: Authority, t: Tail, isConnect: bool, sc: Scan, g: Fields)
    requires AuthorityOk(a) && TailOk(t) && sc.Alive? && sc.foundAt == a.userinfo.Some?
    requires g.Keys <= {UfSchema} && |pre| + |RenderAuthority(a)| <= 0xffff
    requires sc.fields == TailLayout(g[UfHost := Span(|pre|, |RenderAuthority(a)|)], t, |pre| + |RenderAuthority(a)|)
    ensures var fields := TailLayout(AuthorityLayout(g, a, |pre|), t, |pre| + |RenderAuthority(a)|);
      Finish(pre + (RenderAuthority(a) + RenderTail(t)), isConnect, sc)
      == if !PortInRange(a) || (isConnect && fields.Keys != {UfHost, UfPort}) then None
         else Some(Url(fields, if a.port.Some? then Decimal(a.port.value) else 0))
  {
    hide HostRun, RenderTail, HostOk, HostEndOk;
    var r := RenderAuthority(a);
    var base, span := |pre|, Span(|pre|, |r|);
    var buf := pre + (r + RenderTail(t));
    LayoutsCommute(g, a, t, base, span, base + |r|);
    TailKeepsHost(g[UfHost := span], t, base + |r|);
    SliceMiddle(pre, r, RenderTail(t));
    HostRunAuthority(sc.fields, a, base);
    var fields := TailLayout(AuthorityLayout(g, a, base), t, base + |r|);
    assert ParseHost(buf, sc.fields, sc.foundAt) == Some(fields);
    FinishPort(buf, a, fields, pre, RenderTail(t), g, t);
  }

  lemma {:induction false} FinishPort(buf: string, a: Authority, fields: Fields, pre: string, post: string, g: Fields, t: Tail)
    requires AuthorityOk(a) && g.Keys <= {UfSchema} && buf == pre + (RenderAuthority(a) + post)
    requires |pre| + |RenderAuthority(a)| <= 0xffff
    requires fields == TailLayout(AuthorityLayout(g, a, |pre|), t, |pre| + |RenderAuthority(a)|)
    ensures PortOf(buf, fields)
         == if a.port.None? then Some(0) else if PortInRange(a) then Some(Decimal(a.port.value)) else None
  {
    hide RenderAuthority, ConvertPort, RenderHost, RenderUserinfo, HostText, HostOk, U16;
    if a.port.Some? {
      PortSlice(pre, a, post);
      PortConversion(a.port.value);
      U16Small(|pre| + |RenderUserinfo(a.userinfo)| + |RenderHost(a.host)| + 1);
      U16Small(|a.port.value|);
      assert Slice(buf, fields[UfPort]) == a.port.value;
    }
  }

  /** Where the host segment begins and ends. */
  function Base(t: Target): nat { if t.Absolute? then |t.scheme| + 3 else 0 }
  function HostEnd(t: Target): nat { if t.Origin? then 0 else Base(t) + |RenderAuthority(t.authority)| }

  /** Parse after print, for every well-formed target whose host segment ends within 16 bits: each field is located. */
  lemma {:induction false} PrintThenParse(t: Target)
    requires TargetOk(t) && HostEnd(t) <= 0xffff
    ensures ParseUrl(Render(t), t.Connect?) == Some(Url(Layout(t), PortNumber(t)))
  {
    hide Finish, TailOk, AuthorityOk, RenderTail, RenderAuthority;
    match t {
      case Absolute(scheme, a, tail) =>
        AbsoluteRun(scheme, a, tail);
      case Origin(tail) =>
        OriginRun(tail);
      case Connect(a, tail) =>
        ConnectRun(a, tail);
    }
  }

  lemma {:induction false} OriginRun(t: Tail)
    requires TailOk(t) && t.path != [] && (t.path[0] == '/' || t.path[0] == '*')
    ensures ParseUrl(RenderTail(t), false) == Some(Url(TailLayout(map[], t, 0), 0))
  {
    hide Run;
    RunTail(Begin(false), t, 0);
  }

  lemma {:induction false} TailStart(sc: Scan, t: Tail)
    requires sc.Alive? && sc.s in [SServer, SServerWithAt] && (t.path != [] ==> t.path[0] == '/')
    ensures CanStart(sc, t)
  {
  }

  lemma {:induction false} ConnectRun(a: Authority, t: Tail)
    requires TargetOk(Connect(a, t)) && |RenderAuthority(a)| <= 0xffff
    ensures ParseUrl(Render(Connect(a, t)), true) == Some(Url(Layout(Connect(a, t)), Decimal(a.port.value)))
  {
    hide Run, ParseUrlChar, RenderTail, RenderAuthority, Finish, TailOk, AuthorityOk, TailLayout, AuthorityLayout;
    var buf := RenderAuthority(a) + RenderTail(t);
    AuthorityChars(a);
    ConnectScan(a, t);
    FinishAuthority([], a, t, true, Run(Begin(true), buf, 0), map[]);
    assert [] + buf == buf;
    ConnectKeys(a, t);
  }

  lemma {:induction false} ConnectScan(a: Authority, t: Tail)
    requires AuthorityOk(a) && TailOk(t) && t.path == [] && |RenderAuthority(a)| <= 0xffff
    ensures var sc, r := Run(Begin(true), RenderAuthority(a) + RenderTail(t), 0), RenderAuthority(a);
      sc.Alive? && sc.foundAt == a.userinfo.Some? && sc.fields == TailLayout(map[][UfHost := Span(0, |r|)], t, |r|)
  {
    hide Run, ParseUrlChar, RenderTail, RenderAuthority, TailOk, AuthorityOk, TailLayout;
    var r := RenderAuthority(a);
    AuthorityChars(a);
    RunConcat(Begin(true), r, RenderTail(t), 0);
    RunAuthority(Begin(true), a, 0);
    var s1 := Run(Begin(true), r, 0);
    TailStart(s1, t);
    RunTail(s1, t, |r|);
  }

  lemma {:induction false} ConnectKeys(a: Authority, t: Tail)
    requires TargetOk(Connect(a, t))
    ensures Layout(Connect(a, t)).Keys == {UfHost, UfPort}
  {
    assert HostText(a.host) != [];
  }

  lemma {:induction false} SlashSteps(s: Scan, p: nat)
    requires s.Alive? && s.s == SSchema
    ensures ScanChar(s, ':', p) == s.(s := SSchemaSlash)
    ensures ScanChar(s.(s := SSchemaSlash), '/', p + 1) == s.(s := SSchemaSlashSlash)
    ensures ScanChar(s.(s := SSchemaSlashSlash), '/', p + 2) == s.(s := SServerStart)
  {
  }

  lemma {:induction false} RunScheme(scheme: string)
    requires scheme != [] && All(Letter, scheme)
    ensures Run(Begin(false), scheme + "://", 0)
         == Alive(SServerStart, Some(UfSchema), map[UfSchema := Span(0, U16(|scheme|))], false)
  {
    hide Run, ScanChar, U16;
    U16Small(0);
    var b := Begin(false);
    assert scheme[0] in scheme && forall c :: c in scheme[1..] ==> c in scheme;
    RunEnter(b, scheme, 0, SSchema, UfSchema);
    var s1, p := Alive(SSchema, Some(UfSchema), map[UfSchema := Span(0, U16(|scheme|))], false), |scheme|;
    SlashSteps(s1, p);
    RunConcat(b, scheme, "://", 0);
    RunConcat(s1, ":", "//", p);
    RunOne(s1, ':', p);
    RunConcat(s1.(s := SSchemaSlash), "/", "/", p + 1);
    RunOne(s1.(s := SSchemaSlash), '/', p + 1);
    RunOne(s1.(s := SSchemaSlashSlash), '/', p + 2);
    assert ":" + "//" == "://" && "/" + "/" == "//";
  }

  lemma {:induction false} AbsoluteRun(scheme: string, a: Authority, t: Tail)
    requires TargetOk(Absolute(scheme, a, t)) && |scheme| + 3 + |RenderAuthority(a)| <= 0xffff
    ensures ParseUrl(Render(Absolute(scheme, a, t)), false)
         == Some(Url(Layout(Absolute(scheme, a, t)), if a.port.Some? then Decimal(a.port.value) else 0))
  {
    hide Run, ParseUrlChar, RenderTail, RenderAuthority, Finish;
    var pre, r := scheme + "://", RenderAuthority(a);
    var buf := Render(Absolute(scheme, a, t));
    assert buf == pre + (r + RenderTail(t));
    RunScheme(scheme);
    RunConcat(Begin(false), pre, r + RenderTail(t), 0);
    var s1 := Run(Begin(false), pre, 0);
    RunConcat(s1, r, RenderTail(t), |pre|);
    RunAuthority(s1, a, |pre|);
    var s2 := Run(s1, r, |pre|);
    TailStart(s2, t);
    RunTail(s2, t, |pre| + |r|);
    FinishAuthority(pre, a, t, false, Run(s2, RenderTail(t), |pre| + |r|), map[UfSchema := Span(0, U16(|scheme|))]);
  }
}
