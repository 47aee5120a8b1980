/**
 * Soundness of the URL parser: every accepted string is the printed form of a well-formed target, so
 * the grammar describes exactly the accepted language and the reported fields are its components.
 */
module UrlSound {
  import opened Common
  import opened UrlParser
  import opened UrlGrammar
  import opened UrlAccepts

  // ---------------------------------------------------------------- states without the field table

  function States(s: State, str: string): State
    decreases |str|
  {
    if str == [] then s else States(ParseUrlChar(s, str[0]), str[1..])
  }

  lemma {:induction false} StatesDead(str: string)
    ensures States(SDead, str) == SDead
    decreases |str|
  {
    if str != [] { StatesDead(str[1..]); }
  }

  lemma {:induction false} RunStates(sc: Scan, str: string, p: nat)
    requires sc.Alive? && sc.s != SDead
    ensures Run(sc, str, p).Alive? <==> States(sc.s, str) != SDead
    ensures Run(sc, str, p).Alive? ==> Run(sc, str, p).s == States(sc.s, str)
    decreases |str|
  {
    if str != [] {
      var next := ScanChar(sc, str[0], p);
      if next.Rejected? {
        RunRejected(str[1..], p + 1);
        StatesDead(str[1..]);
      } else {
        RunStates(next, str[1..], p + 1);
      }
    }
  }

  function HostStates(s: HostState, str: string): HostState
    decreases |str|
  {
    if str == [] then s else HostStates(ParseHostChar(s, str[0]), str[1..])
  }

  lemma {:induction false} HostStatesDead(str: string)
    ensures HostStates(HDead, str) == HDead
    decreases |str|
  {
    if str != [] { HostStatesDead(str[1..]); }
  }

  lemma {:induction false} HostRunStates(h: HostScan, str: string, p: nat)
    requires h.HostAlive? && h.s != HDead
    ensures HostRun(h, str, p).HostAlive? ==> HostRun(h, str, p).s == HostStates(h.s, str)
    decreases |str|
  {
    if str != [] {
      var next := HostScanChar(h, str[0], p);
      if next.HostRejected? {
        HostRunRejected(str[1..], p + 1);
      } else {
        HostRunStates(next, str[1..], p + 1);
      }
    }
  }

  lemma {:induction false} HostRunRejected(str: string, p: nat)
    ensures HostRun(HostRejected, str, p) == HostRejected
    decreases |str|
  {
    if str != [] { HostRunRejected(str[1..], p + 1); }
  }

  // ---------------------------------------------------------------- splitting the tail

  /** The fragment's characters, and nothing else, keep the automaton in a fragment. */
  lemma {:induction false} FragStates(c: char)
    ensures ParseUrlChar(SFragmentStart, c) == if c == '#' then SFragmentStart else if FragChar(c) then SFragment else SDead
    ensures ParseUrlChar(SFragment, c) == if FragChar(c) then SFragment else SDead
  {
  }

  lemma {:induction false} FragText(s: string)
    requires States(SFragment, s) != SDead
    ensures All(FragChar, s)
    decreases |s|
  {
    hide ParseUrlChar, FragChar;
    if s != [] {
      FragStates(s[0]);
      if ParseUrlChar(SFragment, s[0]) == SDead { StatesDead(s[1..]); }
      FragText(s[1..]);
    }
  }

  lemma {:induction false} FragSplit(s: string) returns (h: nat, text: string)
    requires States(SFragmentStart, s) != SDead
    ensures s == Hashes(h) + text && All(FragChar, text) && (text != [] ==> text[0] != '#')
    decreases |s|
  {
    hide ParseUrlChar, FragChar;
    if s == [] {
      h, text := 0, [];
    } else if s[0] == '#' {
      FragStates(s[0]);
      h, text := FragSplit(s[1..]);
      h := h + 1;
      assert Hashes(h) == "#" + Hashes(h - 1);
      assert s == "#" + (Hashes(h - 1) + text);
    } else {
      FragStates(s[0]);
      if ParseUrlChar(SFragmentStart, s[0]) == SDead { StatesDead(s[1..]); }
      FragText(s[1..]);
      h, text := 0, s;
    }
  }

  predicate FragOk(f: Option<Frag>) {
    f.Some? ==> f.value.hashes > 0 && All(FragChar, f.value.text) && (f.value.text != [] ==> f.value.text[0] != '#')
  }

  /** After a '#', what follows is a fragment. */
  lemma {:induction false} FragAfterHash(s: string) returns (f: Option<Frag>)
    requires s != [] && s[0] == '#' && States(SFragmentStart, s[1..]) != SDead
    ensures f.Some? && FragOk(f) && s == RenderFrag(f)
  {
    var h, text := FragSplit(s[1..]);
    f := Some(Frag(h + 1, text));
    assert Hashes(h + 1) == "#" + Hashes(h);
  }

  lemma {:induction false} QuerySplit(st: State, s: string) returns (q: string, f: Option<Frag>)
    requires (st == SQueryStringStart || st == SQueryString) && States(st, s) != SDead
    ensures s == q + RenderFrag(f) && All(QueryChar, q) && FragOk(f)
    decreases |s|
  {
    hide ParseUrlChar, QueryChar, RenderFrag, FragOk;
    if s == [] {
      q, f := [], None;
      NoFrag();
    } else if s[0] == '#' {
      QueryStates(s[0]);
      q := [];
      f := FragAfterHash(s);
    } else {
      QueryStates(s[0]);
      if ParseUrlChar(st, s[0]) == SDead { StatesDead(s[1..]); }
      q, f := QuerySplit(SQueryString, s[1..]);
      Prepend(s, q, RenderFrag(f));
      q := [s[0]] + q;
    }
  }

  lemma {:induction false} NoFrag()
    ensures RenderFrag(None) == [] && FragOk(None)
  {
  }

  /** The query's characters, and nothing else, keep the automaton in a query. */
  lemma {:induction false} QueryStates(c: char)
    ensures var n := if QueryChar(c) then SQueryString else if c == '#' then SFragmentStart else SDead;
      ParseUrlChar(SQueryStringStart, c) == n && ParseUrlChar(SQueryString, c) == n
    ensures QueryChar(c) ==> c != '#'
  {
  }

  lemma {:induction false} PathSplit(s: string) returns (w: string, q: Option<string>, f: Option<Frag>)
    requires States(SPath, s) != SDead
    ensures s == w + (RenderQuery(q) + RenderFrag(f)) && All(PathChar, w)
    ensures (q.Some? ==> All(QueryChar, q.value)) && FragOk(f)
    decreases |s|
  {
    hide RenderQuery, RenderFrag;
    if s == [] {
      w, q, f := [], None, None;
      NoQueryNoFrag();
    } else if s[0] == '#' {
      w, q := [], None;
      f := FragAfterHash(s);
      NoQueryNoFrag();
      assert [] + ([] + RenderFrag(f)) == RenderFrag(f);
    } else if s[0] == '?' {
      var text;
      text, f := QuerySplit(SQueryStringStart, s[1..]);
      w, q := [], Some(text);
      QueryText(text, RenderFrag(f));
      assert s == "?" + s[1..];
    } else {
      if ParseUrlChar(SPath, s[0]) == SDead { StatesDead(s[1..]); }
      w, q, f := PathSplit(s[1..]);
      Prepend(s, w, RenderQuery(q) + RenderFrag(f));
      w := [s[0]] + w;
    }
  }

  lemma {:induction false} NoQueryNoFrag()
    ensures RenderQuery(None) == [] && RenderFrag(None) == []
  {
  }

  lemma {:induction false} QueryText(text: string, rest: string)
    ensures "?" + (text + rest) == [] + (RenderQuery(Some(text)) + rest)
  {
    assert "?" + (text + rest) == ("?" + text) + rest;
  }

  lemma {:induction false} Prepend(s: string, w: string, rest: string)
    requires s != [] && s[1..] == w + rest
    ensures s == ([s[0]] + w) + rest
  {
    assert s == [s[0]] + s[1..];
  }

  /** After the first character of a path, what follows is the rest of a tail. */
  lemma {:induction false} TailFromPath(s: string) returns (t: Tail)
    requires s != [] && (s[0] == '/' || s[0] == '*') && States(SPath, s[1..]) != SDead
    ensures TailOk(t) && t.path != [] && t.path[0] == s[0] && s == RenderTail(t)
  {
    hide RenderQuery, RenderFrag;
    var w, q, f := PathSplit(s[1..]);
    Prepend(s, w, RenderQuery(q) + RenderFrag(f));
    t := Tail([s[0]] + w, q, f);
  }

  lemma {:induction false} TailFromQuery(s: string) returns (t: Tail)
    requires s != [] && s[0] == '?' && States(SQueryStringStart, s[1..]) != SDead
    ensures TailOk(t) && t.path == [] && s == RenderTail(t)
  {
    var q, f := QuerySplit(SQueryStringStart, s[1..]);
    t := Tail([], Some(q), f);
    assert "?" + (q + RenderFrag(f)) == RenderQuery(Some(q)) + RenderFrag(f);
  }

  /** The host segment ends at the first '/' or '?'. */
  lemma {:induction false} ServerSplit(st: State, s: string) returns (r: string, t: Tail)
    requires InServer(st) && States(st, s) != SDead
    ensures s == r + RenderTail(t) && All(IsAuthorityChar, r) && TailOk(t) && (t.path != [] ==> t.path[0] == '/')
    decreases |s|
  {
    if s == [] {
      r, t := [], Tail([], None, None);
    } else if s[0] == '/' {
      r := [];
      t := TailFromPath(s);
    } else if s[0] == '?' {
      r := [];
      t := TailFromQuery(s);
    } else {
      if ParseUrlChar(st, s[0]) == SDead { StatesDead(s[1..]); }
      r, t := ServerSplit(ParseUrlChar(st, s[0]), s[1..]);
      Prepend(s, r, RenderTail(t));
      r := [s[0]] + r;
    }
  }

  // ---------------------------------------------------------------- where the host segment ends

  predicate TailState(s: State) {
    s == SPath || s == SQueryStringStart || s == SQueryString || s == SFragmentStart || s == SFragment
  }

  /** How many characters come before the tail. */
  function ServerEnd(s: State, str: string): nat
    decreases |str|
  {
    if str == [] then 0
    else
      var n := ParseUrlChar(s, str[0]);
      if TailState(n) then 0 else 1 + ServerEnd(n, str[1..])
  }

  lemma {:induction false} TailStays(s: State, str: string)
    requires TailState(s) || s == SDead
    ensures TailState(States(s, str)) || States(s, str) == SDead
    decreases |str|
  {
    if str != [] { TailStays(ParseUrlChar(s, str[0]), str[1..]); }
  }

  lemma {:induction false} EndConcat(s: State, a: string, b: string)
    requires !TailState(States(s, a)) && States(s, a) != SDead
    ensures ServerEnd(s, a + b) == |a| + ServerEnd(States(s, a), b)
    decreases |a|
  {
    hide ParseUrlChar, TailState;
    if a == [] {
      assert a + b == b;
    } else {
      var n := ParseUrlChar(s, a[0]);
      if TailState(n) { TailStays(n, a[1..]); }
      assert (a + b)[1..] == a[1..] + b;
      EndConcat(n, a[1..], b);
    }
  }

  lemma {:induction false} TailBegins(s: State, t: Tail)
    requires s == SServer || s == SServerWithAt
    requires TailOk(t) && (t.path != [] ==> t.path[0] == '/')
    ensures ServerEnd(s, RenderTail(t)) == 0
  {
    var tail := RenderTail(t);
    assert tail != [] ==> tail[0] == '/' || tail[0] == '?';
  }

  // ---------------------------------------------------------------- splitting the scheme

  /** States before the first character of the host segment. */
  predicate Early(s: State) {
    s == SSchema || s == SSchemaSlash || s == SSchemaSlashSlash || s == SServerStart
  }

  lemma {:induction false} NotEarlyAgain(s: State, str: string)
    requires !Early(s) && s != SSpacesBeforeUrl
    ensures !Early(States(s, str))
    decreases |str|
  {
    if str != [] { NotEarlyAgain(ParseUrlChar(s, str[0]), str[1..]); }
  }

  /** A scan that ends before the host segment has found no host. */
  lemma {:induction false} NoHostYet(sc: Scan, str: string, p: nat)
    requires sc.Alive? && Early(sc.s) && UfHost !in sc.fields && Early(States(sc.s, str))
    ensures Run(sc, str, p).Alive? && UfHost !in Run(sc, str, p).fields
    decreases |str|
  {
    if str != [] {
      var n := ParseUrlChar(sc.s, str[0]);
      if !Early(n) { NotEarlyAgain(n, str[1..]); }
      NoHostYet(ScanChar(sc, str[0], p), str[1..], p + 1);
    }
  }

  lemma {:induction false} SlashSplit(a: string) returns (rest: string)
    requires States(SSchemaSlash, a) != SDead && !Early(States(SSchemaSlash, a))
    ensures a == "//" + rest && States(SServerStart, rest) == States(SSchemaSlash, a)
  {
    assert a != [];
    if ParseUrlChar(SSchemaSlash, a[0]) == SDead { StatesDead(a[1..]); }
    var b := a[1..];
    assert States(SSchemaSlash, a) == States(SSchemaSlashSlash, b);
    assert b != [];
    if ParseUrlChar(SSchemaSlashSlash, b[0]) == SDead { StatesDead(b[1..]); }
    rest := b[1..];
    assert a == [a[0]] + ([b[0]] + rest);
  }

  lemma {:induction false} SchemeSplit(s: string) returns (w: string, rest: string)
    requires States(SSchema, s) != SDead && !Early(States(SSchema, s))
    ensures s == w + ("://" + rest) && All(Letter, w) && States(SServerStart, rest) == States(SSchema, s)
    decreases |s|
  {
    if ParseUrlChar(SSchema, s[0]) == SDead { StatesDead(s[1..]); }
    if s[0] == ':' {
      w := [];
      rest := SlashSplit(s[1..]);
      assert s == ":" + ("//" + rest);
      assert s == w + ("://" + rest);
    } else {
      w, rest := SchemeSplit(s[1..]);
      w := [s[0]] + w;
    }
  }

  // ---------------------------------------------------------------- splitting the authority

  lemma {:induction false} PortSplit(s: string)
    requires HostEndOk(HostStates(HHostPort, s)) || HostEndOk(HostStates(HHostPortStart, s))
    ensures All(Digit, s)
    decreases |s|
  {
    if s != [] {
      if !IsNum(s[0]) { HostStatesDead(s[1..]); }
      PortSplit(s[1..]);
    }
  }

  /** After the host: nothing, or a colon and a port. */
  lemma {:induction false} PortPart(st: HostState, s: string) returns (port: Option<string>)
    requires (st == HHost || st == HHostV6End) && HostEndOk(HostStates(st, s)) && (s == [] || s[0] == ':')
    ensures s == RenderPort(port) && (port.Some? ==> port.value != [] && All(Digit, port.value))
  {
    if s == [] {
      port := None;
    } else {
      assert HostStates(st, s) == HostStates(HHostPortStart, s[1..]);
      assert s[1..] != [];
      PortSplit(s[1..]);
      port := Some(s[1..]);
      assert s == ":" + s[1..];
    }
  }

  lemma {:induction false} NameSplit(s: string) returns (name: string, port: Option<string>)
    requires HostEndOk(HostStates(HHost, s))
    ensures s == name + RenderPort(port) && All(HostChar, name)
    ensures port.Some? ==> port.value != [] && All(Digit, port.value)
    decreases |s|
  {
    hide RenderPort;
    if s == [] || s[0] == ':' {
      name := [];
      port := PortPart(HHost, s);
    } else {
      if !IsHostChar(s[0]) { HostStatesDead(s[1..]); }
      name, port := NameSplit(s[1..]);
      Prepend(s, name, RenderPort(port));
      name := [s[0]] + name;
    }
  }

  lemma {:induction false} V6Closed(s: string) returns (port: Option<string>)
    requires s != [] && s[0] == ']' && HostEndOk(HostStates(HHostV6End, s[1..]))
    ensures s == "]" + RenderPort(port) && (port.Some? ==> port.value != [] && All(Digit, port.value))
  {
    if s[1..] != [] && s[1] != ':' { HostStatesDead(s[1..][1..]); }
    port := PortPart(HHostV6End, s[1..]);
  }

  lemma {:induction false} ZoneSplit(st: HostState, s: string) returns (zone: string, port: Option<string>)
    requires (st == HHostV6Zone || st == HHostV6ZoneStart) && HostEndOk(HostStates(st, s))
    ensures s == zone + ("]" + RenderPort(port)) && All(ZoneChar, zone) && (st == HHostV6ZoneStart ==> zone != [])
    ensures port.Some? ==> port.value != [] && All(Digit, port.value)
    decreases |s|
  {
    hide RenderPort;
    if ParseHostChar(st, s[0]) == HDead { HostStatesDead(s[1..]); }
    if s[0] == ']' {
      zone := [];
      port := V6Closed(s);
    } else {
      zone, port := ZoneSplit(HHostV6Zone, s[1..]);
      Prepend(s, zone, "]" + RenderPort(port));
      zone := [s[0]] + zone;
    }
  }

  lemma {:induction false} AddrSplit(st: HostState, s: string) returns (addr: string, zone: Option<string>, port: Option<string>)
    requires (st == HHostV6 || st == HHostV6Start) && HostEndOk(HostStates(st, s))
    ensures s == addr + (Zone(zone) + ("]" + RenderPort(port))) && All(V6Char, addr) && (st == HHostV6Start ==> addr != [])
    ensures zone.Some? ==> zone.value != [] && All(ZoneChar, zone.value)
    ensures port.Some? ==> port.value != [] && All(Digit, port.value)
    decreases |s|
  {
    hide Zone, RenderPort;
    if ParseHostChar(st, s[0]) == HDead { HostStatesDead(s[1..]); }
    if s[0] == ']' {
      addr, zone := [], None;
      port := V6Closed(s);
      NoZone(s);
    } else if s[0] == '%' {
      var z;
      z, port := ZoneSplit(HHostV6ZoneStart, s[1..]);
      addr, zone := [], Some(z);
      assert s == "%" + s[1..];
      ZoneText(z, "]" + RenderPort(port));
    } else {
      addr, zone, port := AddrSplit(HHostV6, s[1..]);
      Prepend(s, addr, Zone(zone) + ("]" + RenderPort(port)));
      addr := [s[0]] + addr;
    }
  }

  lemma {:induction false} NoZone(s: string)
    ensures s == [] + (Zone(None) + s)
  {
  }

  lemma {:induction false} ZoneText(z: string, rest: string)
    ensures "%" + (z + rest) == [] + (Zone(Some(z)) + rest)
  {
    assert "%" + (z + rest) == ("%" + z) + rest;
  }

  lemma {:induction false} Bracketed(s: string, a: string, b: string, c: string)
    requires s != [] && s[0] == '[' && s[1..] == a + (b + ("]" + c))
    ensures s == ("[" + (a + b) + "]") + c
  {
    assert s == [s[0]] + s[1..];
  }

  lemma {:induction false} HostSplit(s: string) returns (host: Host, port: Option<string>)
    requires HostEndOk(HostStates(HHostStart, s))
    ensures s == RenderHost(host) + RenderPort(port) && HostOk(host)
    ensures port.Some? ==> port.value != [] && All(Digit, port.value)
  {
    hide RenderPort, Zone;
    if ParseHostChar(HHostStart, s[0]) == HDead { HostStatesDead(s[1..]); }
    if s[0] == '[' {
      var addr, zone;
      addr, zone, port := AddrSplit(HHostV6Start, s[1..]);
      host := V6(addr, zone);
      Bracketed(s, addr, Zone(zone), RenderPort(port));
    } else {
      var name;
      name, port := NameSplit(s[1..]);
      Prepend(s, name, RenderPort(port));
      host := Name([s[0]] + name);
    }
  }

  lemma {:induction false} UserinfoSplit(st: HostState, s: string) returns (u: string, rest: string)
    requires (st == HUserinfoStart || st == HUserinfo) && HostEndOk(HostStates(st, s))
    ensures s == (u + "@") + rest && All(UserinfoChar, u) && HostEndOk(HostStates(HHostStart, rest))
    decreases |s|
  {
    if ParseHostChar(st, s[0]) == HDead { HostStatesDead(s[1..]); }
    if s[0] == '@' {
      u, rest := [], s[1..];
    } else {
      u, rest := UserinfoSplit(HUserinfo, s[1..]);
      u := [s[0]] + u;
    }
  }

  /** A host segment that the inner automaton accepts is a printed authority. */
  lemma {:induction false} AuthoritySplit(r: string, foundAt: bool) returns (a: Authority)
    requires HostEndOk(HostStates(if foundAt then HUserinfoStart else HHostStart, r))
    ensures r == RenderAuthority(a) && AuthorityOk(a) && a.userinfo.Some? == foundAt
  {
    if foundAt {
      var u, rest := UserinfoSplit(HUserinfoStart, r);
      var host, port := HostSplit(rest);
      a := Authority(Some(u), host, port);
    } else {
      var host, port := HostSplit(r);
      a := Authority(None, host, port);
    }
  }
}
