/**
 * What the URL parser promises its callers, for every buffer whose host segment ends within the first
 * 65535 characters, and a family of URLs on which it fails beyond.
 */
module UrlTheorems {
  import opened Common
  import opened UrlParser
  import opened UrlGrammar
  import opened UrlAccepts
  import opened UrlSound

  // ---------------------------------------------------------------- the accepted language

  lemma {:induction false} HostlessRejected(buf: string, isConnect: bool, sc: Scan, g: Fields, t: Tail, p: nat)
    requires sc.Alive? && sc.fields == TailLayout(g, t, p)
    requires if isConnect then g == map[] else g.Keys == {UfSchema}
    ensures Finish(buf, isConnect, sc).None?
  {
    assert UfHost !in TailLayout(g, t, p);
    assert UfSchema in g ==> UfSchema in TailLayout(g, t, p);
  }

  /** The keys of a printed authority and tail determine what a CONNECT target may contain. */
  lemma {:induction false} ConnectShape(a: Authority, t: Tail)
    requires AuthorityOk(a) && PortInRange(a) && TailOk(t)
    requires TailLayout(AuthorityLayout(map[], a, 0), t, |RenderAuthority(a)|).Keys == {UfHost, UfPort}
    ensures TargetOk(Connect(a, t))
  {
    var f := TailLayout(AuthorityLayout(map[], a, 0), t, |RenderAuthority(a)|);
    assert UfPort in f && UfUserinfo !in f && UfPath !in f && UfQuery !in f && UfFragment !in f;
  }

  /** A rest of a URL that is not rejected, from the start of the host segment on, is a segment and a tail. */
  lemma {:induction false} ServerScanned(sc: Scan, s: string, p: nat) returns (r: string, t: Tail)
    requires sc.Alive? && sc.s == SServerStart && !sc.foundAt && BeforeTail(sc) && sc.oldUf != Some(UfHost)
    requires Run(sc, s, p).Alive?
    ensures s == r + RenderTail(t) && TailOk(t) && (t.path != [] ==> t.path[0] == '/') && |r| <= ServerEnd(SServerStart, s)
    ensures Run(sc, s, p).fields == TailLayout(HostGrown(sc, r, p), t, p + |r|)
  {
    hide Run, RenderTail, TailOk, ParseUrlChar, States, ServerEnd, HostGrown, TailState, InServer, TailLayout, NoDoubleAt;
    StillInServer(SServerStart);
    RunStates(sc, s, p);
    r, t := ServerSplit(SServerStart, s);
    RunConcat(sc, r, RenderTail(t), p);
    var s1 := Run(sc, r, p);
    if s1.Rejected? { RunRejected(RenderTail(t), p + |r|); }
    RunServer(sc, r, p);
    assert s1.fields == HostGrown(sc, r, p) by { NothingGrown(sc, p); }
    RunStates(sc, r, p);
    StillInServer(s1.s);
    EndConcat(SServerStart, r, RenderTail(t));
    ServerCanStart(s1, t);
    RunTail(s1, t, p + |r|);
  }

  lemma {:induction false} NothingGrown(sc: Scan, p: nat)
    requires sc.Alive?
    ensures HostGrown(sc, [], p) == sc.fields
  {
  }

  /** An accepted rest of a URL, from the start of the host segment on, is an authority and a tail. */
  lemma {:induction false} ServerAccepted(pre: string, s: string, sc: Scan, isConnect: bool) returns (a: Authority, t: Tail)
    requires sc.Alive? && sc.s == SServerStart && !sc.foundAt && |pre| + ServerEnd(SServerStart, s) <= 0xffff
    requires if isConnect then sc.oldUf == None && sc.fields == map[] && pre == []
             else sc.oldUf == Some(UfSchema) && sc.fields.Keys == {UfSchema}
    requires Run(sc, s, |pre|).Alive? && Finish(pre + s, isConnect, Run(sc, s, |pre|)).Some?
    ensures s == RenderAuthority(a) + RenderTail(t) && AuthorityOk(a) && PortInRange(a) && TailOk(t)
    ensures t.path != [] ==> t.path[0] == '/'
    ensures isConnect ==> TargetOk(Connect(a, t))
  {
    hide Run, Finish, RenderTail, RenderAuthority, TailOk, AuthorityOk, PortInRange, TargetOk, ServerEnd, TailLayout, AuthorityLayout, U16;
    var p := |pre|;
    var r;
    r, t := ServerScanned(sc, s, p);
    U16Small(p);
    U16Small(|r|);
    var end := Run(sc, s, p);
    if r == [] {
      HostlessRejected(pre + s, isConnect, end, sc.fields, t, p);
      assert false;
    }
    TailKeepsHost(sc.fields[UfHost := Span(p, |r|)], t, p + |r|);
    SliceMiddle(pre, r, RenderTail(t));
    a := HostAccepted(pre + s, isConnect, end, r, p);
    FinishAuthority(pre, a, t, isConnect, end, sc.fields);
    if isConnect { ConnectShape(a, t); }
  }

  lemma {:induction false} StillInServer(s: State)
    requires s == SServerStart || s == SServer || s == SServerWithAt
    ensures !TailState(s) && s != SDead && InServer(s)
  {
  }

  lemma {:induction false} ServerCanStart(sc: Scan, t: Tail)
    requires sc.Alive? && InServer(sc.s) && (t.path != [] ==> t.path[0] == '/')
    ensures CanStart(sc, t)
  {
  }

  lemma {:induction false} HostAccepted(buf: string, isConnect: bool, sc: Scan, r: string, p: nat) returns (a: Authority)
    requires Finish(buf, isConnect, sc).Some? && sc.Alive? && UfHost in sc.fields && sc.fields[UfHost] == Span(p, |r|)
    requires p + |r| <= |buf| && buf[p..p + |r|] == r
    ensures r == RenderAuthority(a) && AuthorityOk(a) && a.userinfo.Some? == sc.foundAt
  {
    hide HostRun, RenderAuthority, PortOf;
    var h := HostStart(sc.foundAt, sc.fields);
    assert ParseHost(buf, sc.fields, sc.foundAt).Some?;
    HostRunStates(h, r, p);
    a := AuthoritySplit(r, sc.foundAt);
  }

  /** Every accepted buffer is the printed form of a well-formed target. */
  lemma {:induction false} AcceptedIsPrinted(buf: string, isConnect: bool) returns (t: Target)
    requires ServerEnd(Begin(isConnect).s, buf) <= 0xffff && ParseUrl(buf, isConnect).Some?
    ensures TargetOk(t) && t.Connect? == isConnect && Render(t) == buf
  {
    hide Run, Finish, RenderTail, RenderAuthority, TailOk, PortInRange, AuthorityOk;
    var b := Begin(isConnect);
    RunStates(b, buf, 0);
    FinishAlive(buf, isConnect, Run(b, buf, 0));
    if isConnect {
      assert [] + buf == buf;
      var a, tail := ServerAccepted([], buf, b, true);
      t := Connect(a, tail);
    } else {
      if ParseUrlChar(SSpacesBeforeUrl, buf[0]) == SDead { StatesDead(buf[1..]); }
      if buf[0] == '/' || buf[0] == '*' {
        var tail := TailFromPath(buf);
        t := Origin(tail);
      } else {
        t := AbsoluteAccepted(buf);
      }
    }
  }

  lemma {:induction false} FinishAlive(buf: string, isConnect: bool, sc: Scan)
    requires Finish(buf, isConnect, sc).Some?
    ensures sc.Alive?
  {
  }

  lemma {:induction false} AbsoluteAccepted(buf: string) returns (t: Target)
    requires buf != [] && ServerEnd(SSpacesBeforeUrl, buf) <= 0xffff && Letter(buf[0]) && ParseUrl(buf, false).Some?
    ensures TargetOk(t) && t.Absolute? && Render(t) == buf
  {
    hide Run, RenderTail, RenderAuthority, TailOk, PortInRange, AuthorityOk, ServerEnd, States, U16, Finish, TailState, Early;
    var b := Begin(false);
    var s1 := ScanChar(b, buf[0], 0);
    FirstLetter(buf[0]);
    RunConcat(b, [buf[0]], buf[1..], 0);
    RunOne(b, buf[0], 0);
    assert buf == [buf[0]] + buf[1..];
    RunStates(s1, buf[1..], 1);
    var end := Run(b, buf, 0);
    FinishAlive(buf, false, end);
    if Early(States(SSchema, buf[1..])) {
      NoHostYet(s1, buf[1..], 1);
      SchemeKept(s1, buf[1..], 1);
      SchemeAlone(buf, false, end);
      assert false;
    }
    var w, rest := SchemeSplit(buf[1..]);
    var scheme := [buf[0]] + w;
    var pre := scheme + "://";
    assert buf == pre + rest && buf == scheme + ("://" + rest);
    RunScheme(scheme);
    RunConcat(b, pre, rest, 0);
    var s2 := Run(b, pre, 0);
    RunStates(b, pre, 0);
    StillInServer(SServerStart);
    EndConcat(SSpacesBeforeUrl, pre, rest);
    var a, tail := ServerAccepted(pre, rest, s2, false);
    t := Absolute(scheme, a, tail);
  }

  lemma {:induction false} SchemeAlone(buf: string, isConnect: bool, sc: Scan)
    requires sc.Alive? && UfSchema in sc.fields && UfHost !in sc.fields
    ensures Finish(buf, isConnect, sc).None?
  {
  }

  lemma {:induction false} FirstLetter(c: char)
    requires Letter(c)
    ensures ScanChar(Begin(false), c, 0) == Alive(SSchema, Some(UfSchema), map[UfSchema := Span(0, 1)], false)
  {
  }

  /** No step of the scan forgets the scheme. */
  lemma {:induction false} SchemeKept(sc: Scan, str: string, p: nat)
    requires sc.Alive? && UfSchema in sc.fields
    ensures Run(sc, str, p).Alive? ==> UfSchema in Run(sc, str, p).fields
    decreases |str|
  {
    if str != [] {
      var next := ScanChar(sc, str[0], p);
      if next.Rejected? { RunRejected(str[1..], p + 1); } else { SchemeKept(next, str[1..], p + 1); }
    }
  }

  /** The accepted language is exactly the printed forms of well-formed targets. */
  lemma {:induction false} AcceptedLanguage(buf: string, isConnect: bool)
    requires ServerEnd(Begin(isConnect).s, buf) <= 0xffff
    ensures ParseUrl(buf, isConnect).Some? <==> exists t :: TargetOk(t) && t.Connect? == isConnect && Render(t) == buf
  {
    hide ParseUrl, TargetOk, Render;
    if ParseUrl(buf, isConnect).Some? {
      var t := AcceptedIsPrinted(buf, isConnect);
    }
    if t :| TargetOk(t) && t.Connect? == isConnect && Render(t) == buf {
      HostEndIs(t);
      PrintThenParse(t);
    }
  }

  lemma {:induction false} AuthorityEnds(a: Authority, t: Tail)
    requires AuthorityOk(a) && TailOk(t) && (t.path != [] ==> t.path[0] == '/')
    ensures ServerEnd(SServerStart, RenderAuthority(a) + RenderTail(t)) == |RenderAuthority(a)|
  {
    hide Run, RenderAuthority, RenderTail, ServerEnd, AuthorityOk, TailOk, NoDoubleAt;
    var sc, r := Alive(SServerStart, None, map[], false), RenderAuthority(a);
    AuthorityChars(a);
    RunServer(sc, r, 0);
    RunStates(sc, r, 0);
    TailBegins(Run(sc, r, 0).s, t);
    EndConcat(SServerStart, r, RenderTail(t));
  }

  /** The scan comes to the tail of a printed target where its host segment ends. */
  lemma {:induction false} HostEndIs(t: Target)
    requires TargetOk(t)
    ensures ServerEnd(Begin(t.Connect?).s, Render(t)) == HostEnd(t)
  {
    hide Run, RenderAuthority, RenderTail, ServerEnd, AuthorityOk, TailOk;
    match t {
      case Absolute(scheme, a, tail) =>
        var pre, rest := scheme + "://", RenderAuthority(a) + RenderTail(tail);
        RunScheme(scheme);
        RunStates(Begin(false), pre, 0);
        EndConcat(SSpacesBeforeUrl, pre, rest);
        AuthorityEnds(a, tail);
        assert scheme + ("://" + rest) == pre + rest;
      case Origin(tail) => OriginEnds(tail);
      case Connect(a, tail) => AuthorityEnds(a, tail);
    }
  }

  lemma {:induction false} OriginEnds(t: Tail)
    requires t.path != [] && (t.path[0] == '/' || t.path[0] == '*')
    ensures ServerEnd(SSpacesBeforeUrl, RenderTail(t)) == 0
  {
    assert RenderTail(t)[0] == t.path[0];
  }

  /** A run of host characters is accepted by the inner automaton and sets no port. */
  lemma {:induction false} NameRuns(h: HostScan, w: string, p: nat)
    requires h.HostAlive? && UfPort !in h.fields && All(HostChar, w)
    requires h.s == HHost || (h.s == HHostStart && w != [])
    ensures var r := HostRun(h, w, p); r.HostAlive? && r.s == HHost && UfPort !in r.fields
    decreases |w|
  {
    if w != [] {
      assert w[0] in w && forall c :: c in w[1..] ==> c in w;
      NameRuns(HostScanChar(h, w[0], p), w[1..], p + 1);
    }
  }

  /** What the scan finds of a scheme and a host name of any length. */
  lemma {:induction false} LongNameScanned(scheme: string, name: string)
    requires scheme != [] && All(Letter, scheme) && name != [] && All(HostChar, name)
    ensures Run(Begin(false), scheme + "://" + name, 0)
         == Alive(SServer, Some(UfHost), map[UfSchema := Span(0, U16(|scheme|)), UfHost := Span(U16(|scheme| + 3), U16(|name|))], false)
  {
    hide Run, U16;
    var b, pre := Begin(false), scheme + "://";
    RunScheme(scheme);
    RunConcat(b, pre, name, 0);
    assert name[0] in name && forall c :: c in name[1..] ==> c in name;
    RunEnter(Run(b, pre, 0), name, |pre|, SServer, UfHost);
  }

  /** The rest of the parser on what that scan found. */
  lemma {:induction false} LongNameFinished(buf: string, name: string, sc: Scan, base: nat)
    requires base <= 0xffff && base + |name| == |buf| && buf[base..] == name && name != [] && All(HostChar, name)
    requires sc.Alive? && !sc.foundAt && sc.fields.Keys == {UfSchema, UfHost} && sc.fields[UfHost] == Span(base, U16(|name|))
    ensures Finish(buf, false, sc).Some? <==> U16(|name|) != 0
  {
    hide HostRun;
    var n := U16(|name|);
    var w := buf[base..base + n];
    assert w == name[..n] && forall c :: c in w ==> c in name;
    var h := HostStart(false, sc.fields);
    if n == 0 {
      HostRunNothing(h, base);
    } else {
      NameRuns(h, w, base);
    }
  }

  /** A URL that is a scheme and a host name, both well formed, is accepted iff the name's length is no multiple of 65536. */
  lemma {:induction false} LongNameAccepted(scheme: string, name: string)
    requires scheme != [] && All(Letter, scheme) && |scheme| + 3 <= 0xffff && name != [] && All(HostChar, name)
    ensures var t := Absolute(scheme, Authority(None, Name(name), None), Tail([], None, None));
      && TargetOk(t) && Render(t) == scheme + "://" + name
      && (ParseUrl(Render(t), false).Some? <==> |name| % 0x1_0000 != 0)
  {
    hide Run, Finish, HostChar, Letter, HostRun;
    var buf := scheme + "://" + name;
    LongNameScanned(scheme, name);
    U16Small(|scheme| + 3);
    LongNameFinished(buf, name, Run(Begin(false), buf, 0), |scheme| + 3);
    assert [] + (name + []) == name && [] + ([] + []) == "";
    assert scheme + ("://" + (name + [])) == buf;
  }

  // ---------------------------------------------------------------- what the fields are

  function OrEmpty(s: Option<string>): string { if s.Some? then s.value else [] }

  /** The component that a field names. */
  function Component(t: Target, f: Field): string {
    match f
    case UfSchema => if t.Absolute? then t.scheme else []
    case UfUserinfo => if t.Origin? then [] else OrEmpty(t.authority.userinfo)
    case UfHost => if t.Origin? then [] else HostText(t.authority.host)
    case UfPort => if t.Origin? then [] else OrEmpty(t.authority.port)
    case UfPath => t.tail.path
    case UfQuery => OrEmpty(t.tail.query)
    case UfFragment => if t.tail.frag.Some? then t.tail.frag.value.text else []
  }

  /** `s` lies in `buf` at `off`. */
  predicate At(buf: string, off: nat, s: string) { off + |s| <= |buf| && buf[off..off + |s|] == s }

  lemma {:induction false} AtMiddle(pre: string, mid: string, post: string, off: nat)
    requires off == |pre|
    ensures At(pre + (mid + post), off, mid)
  {
  }

  lemma {:induction false} TailAt(pre: string, t: Tail)
    ensures var buf, b := pre + RenderTail(t), |pre|;
      && At(buf, b, t.path)
      && (t.query.Some? ==> At(buf, b + |t.path| + 1, t.query.value))
      && (t.frag.Some? ==> At(buf, b + |t.path| + |RenderQuery(t.query)| + t.frag.value.hashes, t.frag.value.text))
  {
    hide At;
    var q, f := RenderQuery(t.query), RenderFrag(t.frag);
    var buf := pre + RenderTail(t);
    assert buf == pre + (t.path + (q + f));
    AtMiddle(pre, t.path, q + f, |pre|);
    if t.query.Some? {
      assert buf == (pre + t.path + "?") + (t.query.value + f);
      AtMiddle(pre + t.path + "?", t.query.value, f, |pre| + |t.path| + 1);
    }
    if t.frag.Some? {
      var h := Hashes(t.frag.value.hashes);
      assert buf == (pre + t.path + q + h) + (t.frag.value.text + []);
      AtMiddle(pre + t.path + q + h, t.frag.value.text, [], |pre| + |t.path| + |q| + |h|);
    }
  }

  lemma {:induction false} UserinfoAt(pre: string, u: string, rest: string)
    ensures At(pre + ((u + "@") + rest), |pre|, u)
  {
    assert pre + ((u + "@") + rest) == pre + (u + ("@" + rest));
    AtMiddle(pre, u, "@" + rest, |pre|);
  }

  lemma {:induction false} HostAt(pre: string, h: Host, rest: string)
    ensures At(pre + (RenderHost(h) + rest), if h.V6? then |pre| + 1 else |pre|, HostText(h))
  {
    if h.V6? {
      assert pre + (RenderHost(h) + rest) == (pre + "[") + (HostText(h) + ("]" + rest));
      AtMiddle(pre + "[", HostText(h), "]" + rest, |pre| + 1);
    } else {
      AtMiddle(pre, HostText(h), rest, |pre|);
    }
  }

  lemma {:induction false} AuthorityAt(pre: string, a: Authority, post: string)
    ensures var buf, b := pre + (RenderAuthority(a) + post), |pre|;
      var hostBase := b + |RenderUserinfo(a.userinfo)|;
      && (a.userinfo.Some? ==> At(buf, b, a.userinfo.value))
      && At(buf, if a.host.V6? then hostBase + 1 else hostBase, HostText(a.host))
      && (a.port.Some? ==> At(buf, hostBase + |RenderHost(a.host)| + 1, a.port.value))
  {
    hide At, RenderHost, HostText;
    var u, h, p := RenderUserinfo(a.userinfo), RenderHost(a.host), RenderPort(a.port);
    var buf := pre + (RenderAuthority(a) + post);
    assert buf == pre + (u + (h + (p + post)));
    assert buf == (pre + u) + (h + (p + post));
    HostAt(pre + u, a.host, p + post);
    if a.userinfo.Some? {
      UserinfoAt(pre, a.userinfo.value, h + (p + post));
    }
    if a.port.Some? {
      assert p + post == ":" + (a.port.value + post);
      assert buf == (pre + u + h + ":") + (a.port.value + post);
      AtMiddle(pre + u + h + ":", a.port.value, post, |pre| + |u| + |h| + 1);
    }
  }

  /** Where the host begins. */
  function HostBase(t: Target): nat { if t.Origin? then 0 else Base(t) + |RenderUserinfo(t.authority.userinfo)| }

  /** Where each component begins. */
  function Offset(t: Target, f: Field): nat {
    match f
    case UfSchema => 0
    case UfUserinfo => Base(t)
    case UfHost => if !t.Origin? && t.authority.host.V6? then HostBase(t) + 1 else HostBase(t)
    case UfPort => if t.Origin? then 0 else HostBase(t) + |RenderHost(t.authority.host)| + 1
    case UfPath => HostEnd(t)
    case UfQuery => HostEnd(t) + |t.tail.path| + 1
    case UfFragment =>
      HostEnd(t) + |t.tail.path| + |RenderQuery(t.tail.query)| + (if t.tail.frag.Some? then t.tail.frag.value.hashes else 0)
  }

  predicate TailField(f: Field) { f == UfPath || f == UfQuery || f == UfFragment }

  /** `fields` has `s` at `off` under `f`, or nothing when `s` is empty. */
  predicate Has(fields: Fields, f: Field, off: nat, s: string) {
    if s == [] then f !in fields else f in fields && fields[f] == Span(U16(off), U16(|s|))
  }

  lemma {:induction false} TailLayoutAt(fields: Fields, t: Tail, b: nat, f: Field, off: nat, s: string)
    requires forall k :: k in fields ==> !TailField(k)
    requires match f
      case UfPath => off == b && s == t.path
      case UfQuery => off == b + |t.path| + 1 && s == OrEmpty(t.query)
      case UfFragment =>
        if t.frag.None? then s == []
        else off == b + |t.path| + |RenderQuery(t.query)| + t.frag.value.hashes && s == t.frag.value.text
      case _ => Has(fields, f, off, s)
    ensures Has(TailLayout(fields, t, b), f, off, s)
  {
    hide RenderQuery;
  }

  lemma {:induction false} AuthorityLayoutAt(fields: Fields, a: Authority, b: nat, f: Field, off: nat, s: string)
    requires fields.Keys <= {UfSchema}
    requires var hostBase := b + |RenderUserinfo(a.userinfo)|;
      match f
      case UfUserinfo => off == b && s == OrEmpty(a.userinfo)
      case UfHost => off == (if a.host.V6? then hostBase + 1 else hostBase) && s == HostText(a.host)
      case UfPort => off == hostBase + |RenderHost(a.host)| + 1 && s == OrEmpty(a.port)
      case UfSchema => Has(fields, f, off, s)
      case _ => s == []
    ensures Has(AuthorityLayout(fields, a, b), f, off, s)
    ensures forall k :: k in AuthorityLayout(fields, a, b) ==> !TailField(k)
  {
    hide RenderHost, RenderUserinfo, HostText;
  }

  /** The layout reports the non-empty components at their offsets. */
  lemma {:induction false} LayoutAt(t: Target, f: Field)
    ensures Has(Layout(t), f, Offset(t, f), Component(t, f))
  {
    hide RenderAuthority, RenderHost, RenderUserinfo, RenderQuery, HostText, TailLayout, AuthorityLayout;
    var off, s := Offset(t, f), Component(t, f);
    if t.Origin? {
      TailLayoutAt(map[], t.tail, 0, f, off, s);
    } else {
      var g := if t.Absolute? then Put(map[], UfSchema, 0, t.scheme) else map[];
      AuthorityLayoutAt(g, t.authority, Base(t), f, off, if TailField(f) then [] else s);
      TailLayoutAt(AuthorityLayout(g, t.authority, Base(t)), t.tail, HostEnd(t), f, off, s);
    }
  }

  lemma {:induction false} AbsoluteAt(t: Target, f: Field)
    requires t.Absolute? && Component(t, f) != []
    ensures At(Render(t), Offset(t, f), Component(t, f))
  {
    hide RenderTail, RenderAuthority, RenderHost, RenderUserinfo, RenderQuery, At, HostText, U16;
    var pre, a, tail := t.scheme + "://", RenderAuthority(t.authority), RenderTail(t.tail);
    FourParts(t.scheme, "://", a, tail);
    if f == UfSchema {
      AtMiddle([], t.scheme, "://" + (a + tail), 0);
    } else if TailField(f) {
      TailAt(pre + a, t.tail);
    } else {
      AuthorityAt(pre, t.authority, tail);
    }
  }

  lemma {:induction false} FourParts(a: string, b: string, c: string, d: string)
    ensures a + (b + (c + d)) == [] + (a + (b + (c + d))) == (a + b) + (c + d) == ((a + b) + c) + d
  {
  }

  lemma {:induction false} ComponentsAt(t: Target, f: Field)
    requires Component(t, f) != []
    ensures At(Render(t), Offset(t, f), Component(t, f))
  {
    hide RenderTail, RenderAuthority, RenderHost, RenderUserinfo, RenderQuery, At, HostText;
    if t.Absolute? {
      AbsoluteAt(t, f);
    } else if t.Origin? {
      assert Render(t) == [] + RenderTail(t.tail);
      TailAt([], t.tail);
    } else {
      assert Render(t) == [] + (RenderAuthority(t.authority) + RenderTail(t.tail));
      AuthorityAt([], t.authority, RenderTail(t.tail));
      TailAt(RenderAuthority(t.authority), t.tail);
    }
  }

  /** Field `f` of `fields` is reported exactly when `s` is not empty, and then as `s` in `buf`. */
  predicate Reports(fields: Fields, f: Field, buf: string, s: string) {
    if s == [] then f !in fields
    else f in fields && fields[f].len == |s| && At(buf, fields[f].off, s)
  }

  /** Every field that is set is a slice of the buffer equal to its component, and no empty one is set. */
  lemma {:induction false} FieldsAreComponents(t: Target, f: Field)
    requires Component(t, f) != [] ==> Offset(t, f) <= 0xffff && |Component(t, f)| <= 0xffff
    ensures Reports(Layout(t), f, Render(t), Component(t, f))
  {
    hide Layout, Component, Offset, Render, At;
    LayoutAt(t, f);
    if Component(t, f) != [] { ComponentsAt(t, f); }
  }

  /**
   * Parse after print: every well-formed target is accepted, the port is the number printed, and each
   * field is reported exactly when its component is not empty, as that component if 16 bits can say
   * where it begins and how long it is.
   */
  lemma {:induction false} RoundTrip(t: Target, f: Field)
    requires TargetOk(t) && HostEnd(t) <= 0xffff
    ensures var u := ParseUrl(Render(t), t.Connect?);
      && u.Some? && u.value.port == PortNumber(t) && (f in u.value.fields <==> Component(t, f) != [])
      && (Offset(t, f) <= 0xffff && |Component(t, f)| <= 0xffff ==> Reports(u.value.fields, f, Render(t), Component(t, f)))
  {
    hide ParseUrl, Render, Layout, Component, Reports, TargetOk, PortNumber, HostEnd, Offset;
    PrintThenParse(t);
    LayoutAt(t, f);
    if Offset(t, f) <= 0xffff && |Component(t, f)| <= 0xffff {
      FieldsAreComponents(t, f);
    }
  }

  /**
   * Beyond that a field's offset and length are reduced modulo 65536: it is reported where it lies
   * exactly when both are at most 65535.
   */
  lemma {:induction false} ReportedInFull(t: Target, f: Field)
    requires TargetOk(t) && HostEnd(t) <= 0xffff && Component(t, f) != []
    ensures var u, off, len := ParseUrl(Render(t), t.Connect?), Offset(t, f), |Component(t, f)|;
      && u.Some? && f in u.value.fields && u.value.fields[f] == Span(U16(off), U16(len))
      && (u.value.fields[f] == Span(off, len) <==> off <= 0xffff && len <= 0xffff)
  {
    hide ParseUrl, Render, Layout, Component, TargetOk, PortNumber, HostEnd, Offset;
    PrintThenParse(t);
    LayoutAt(t, f);
  }

  /** The order in which fields lie in a URL. */
  function Order(f: Field): nat {
    match f
    case UfSchema => 0
    case UfUserinfo => 1
    case UfHost => 2
    case UfPort => 3
    case UfPath => 4
    case UfQuery => 5
    case UfFragment => 6
  }

  lemma {:induction false} HostTextLength(h: Host)
    ensures |RenderHost(h)| == |HostText(h)| + (if h.V6? then 2 else 0)
  {
  }

  lemma {:induction false} OffsetsOrdered(t: Target, f: Field, g: Field)
    requires Component(t, f) != [] && Component(t, g) != [] && Order(f) < Order(g)
    ensures Offset(t, f) + |Component(t, f)| <= Offset(t, g)
  {
    hide RenderHost, HostText;
    if !t.Origin? {
      HostTextLength(t.authority.host);
    }
  }

  lemma {:induction false} LayoutOrdered(t: Target, f: Field, g: Field)
    requires f in Layout(t) && g in Layout(t) && Order(f) < Order(g) && |Render(t)| <= 0xffff
    ensures Layout(t)[f].off + Layout(t)[f].len <= Layout(t)[g].off
  {
    hide Layout, Component, Offset, Order;
    LayoutAt(t, f);
    LayoutAt(t, g);
    OffsetsOrdered(t, f, g);
    ComponentFits(t, f);
    ComponentFits(t, g);
  }

  /** In a short URL every component lies within 16 bits. */
  lemma {:induction false} ComponentFits(t: Target, f: Field)
    requires |Render(t)| <= 0xffff && Component(t, f) != []
    ensures Offset(t, f) + |Component(t, f)| <= 0xffff
  {
    hide Render, Component, Offset;
    ComponentsAt(t, f);
  }

  lemma {:induction false} HostEndWithin(t: Target)
    ensures HostEnd(t) <= |Render(t)|
  {
    hide RenderAuthority, RenderTail;
  }

  /**
   * For every accepted URL: each set field is a non-empty slice within the buffer, the fields lie in
   * the order scheme, userinfo, host, port, path, query, fragment without overlap, and the port is the
   * exact decimal value of its all-digit slice, at most 65535.
   */
  lemma {:induction false} AcceptedFields(buf: string, isConnect: bool)
    requires |buf| <= 0xffff && ParseUrl(buf, isConnect).Some?
    ensures var u := ParseUrl(buf, isConnect).value;
      && (forall f :: f in u.fields ==> u.fields[f].len > 0 && Within(u.fields[f], buf))
      && (forall f, g :: f in u.fields && g in u.fields && Order(f) < Order(g) ==>
            u.fields[f].off + u.fields[f].len <= u.fields[g].off)
      && (if UfPort in u.fields
          then All(Digit, Slice(buf, u.fields[UfPort])) && u.port == Decimal(Slice(buf, u.fields[UfPort])) <= 0xffff
          else u.port == 0)
  {
    hide ParseUrl, TargetOk, Render, Layout, Order, PortNumber, ServerEnd, HostEnd;
    EndWithin(Begin(isConnect).s, buf);
    var t := AcceptedIsPrinted(buf, isConnect);
    HostEndWithin(t);
    PrintThenParse(t);
    forall f | f in Layout(t) ensures Layout(t)[f].len > 0 && Within(Layout(t)[f], buf) {
      FieldWithin(t, f);
    }
    forall f, g | f in Layout(t) && g in Layout(t) && Order(f) < Order(g)
      ensures Layout(t)[f].off + Layout(t)[f].len <= Layout(t)[g].off
    {
      LayoutOrdered(t, f, g);
    }
    PortIsExact(t);
  }

  lemma {:induction false} FieldWithin(t: Target, f: Field)
    requires |Render(t)| <= 0xffff && f in Layout(t)
    ensures Layout(t)[f].len > 0 && Within(Layout(t)[f], Render(t))
  {
    hide Layout, Render, Component;
    ShortField(t, f);
  }

  lemma {:induction false} PortIsExact(t: Target)
    requires TargetOk(t) && |Render(t)| <= 0xffff
    ensures if UfPort in Layout(t)
      then Within(Layout(t)[UfPort], Render(t)) && All(Digit, Slice(Render(t), Layout(t)[UfPort]))
           && PortNumber(t) == Decimal(Slice(Render(t), Layout(t)[UfPort])) <= 0xffff
      else PortNumber(t) == 0
  {
    hide Layout, Render, Component, TargetOk, PortNumber;
    ShortField(t, UfPort);
    PortComponent(t);
  }

  lemma {:induction false} ShortField(t: Target, f: Field)
    requires |Render(t)| <= 0xffff
    ensures Reports(Layout(t), f, Render(t), Component(t, f))
  {
    hide Layout, Render, Component, Reports, Offset;
    if Component(t, f) != [] { ComponentFits(t, f); }
    FieldsAreComponents(t, f);
  }

  lemma {:induction false} EndWithin(s: State, str: string)
    ensures ServerEnd(s, str) <= |str|
    decreases |str|
  {
    if str != [] { EndWithin(ParseUrlChar(s, str[0]), str[1..]); }
  }

  lemma {:induction false} PortComponent(t: Target)
    requires TargetOk(t)
    ensures All(Digit, Component(t, UfPort)) && PortNumber(t) <= 0xffff
    ensures PortNumber(t) == if Component(t, UfPort) == [] then 0 else Decimal(Component(t, UfPort))
  {
  }
}
