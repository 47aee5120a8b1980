/**
 * The language of URLs that the parser accepts, written as a record of components and a printer,
 * independently of the automata and of their character classes.  Section 3 of RFC 3986 gives the layout,
 * section 2 of RFC 6874 the zone of an IPv6 host.  Three spellings are accepted but not reported: an empty userinfo before
 * '@', an empty query after '?', and an empty fragment after '#'; they are components here too.
 */
module UrlGrammar {
  import opened Common
  import opened UrlParser

  datatype Host = Name(name: string) | V6(addr: string, zone: Option<string>)
  datatype Authority = Authority(userinfo: Option<string>, host: Host, port: Option<string>)

  /** A fragment is introduced by one or more '#'. */
  datatype Frag = Frag(hashes: nat, text: string)
  datatype Tail = Tail(path: string, query: Option<string>, frag: Option<Frag>)

  datatype Target =
    | Absolute(scheme: string, authority: Authority, tail: Tail)
    | Origin(tail: Tail)
    | Connect(authority: Authority, tail: Tail)

  // ---------------------------------------------------------------- well-formedness

  predicate All(p: char -> bool, s: string) { forall c :: c in s ==> p(c) }

  // The character classes, by code points and by name, after section 1.3 and section 2 of RFC 3986.

  predicate Between(c: char, low: int, high: int) { low <= c as int <= high }

  predicate Letter(c: char) { Between(c, 0x41, 0x5A) || Between(c, 0x61, 0x7A) }
  predicate Digit(c: char) { Between(c, 0x30, 0x39) }
  predicate HexDigit(c: char) { Digit(c) || Between(c, 0x41, 0x46) || Between(c, 0x61, 0x66) }
  predicate Unreserved(c: char) { Letter(c) || Digit(c) || c == '-' || c == '.' || c == '_' || c == '~' }
  predicate SubDelim(c: char) {
    || c == '!' || c == '$' || c == '&' || c == '\'' || c == '(' || c == ')'
    || c == '*' || c == '+' || c == ',' || c == ';' || c == '='
  }

  /** Section 3.2.1, with a percent sign standing for itself. */
  predicate UserinfoChar(c: char) { Unreserved(c) || SubDelim(c) || c == '%' || c == ':' }
  /** Letters, digits, hyphens and dots only: less than section 3.2.2 allows. */
  predicate HostChar(c: char) { Letter(c) || Digit(c) || c == '-' || c == '.' }
  predicate V6Char(c: char) { HexDigit(c) || c == ':' || c == '.' }
  /** Section 2 of RFC 6874. */
  predicate ZoneChar(c: char) { Unreserved(c) || c == '%' }
  /** Section 3.3, and eleven characters that no URL may hold. */
  predicate PathChar(c: char) {
    || Unreserved(c) || SubDelim(c) || c == '%' || c == ':' || c == '@' || c == '/'
    || c == '"' || c == '<' || c == '>' || c == '[' || c == '\\' || c == ']'
    || c == '^' || c == '`' || c == '{' || c == '|' || c == '}'
  }
  predicate QueryChar(c: char) { PathChar(c) || c == '?' }
  predicate FragChar(c: char) { QueryChar(c) || c == '#' }

  function DigitValue(c: char): nat
    requires Digit(c)
  {
    c as nat - 0x30
  }

  function Decimal(digits: string): nat
    requires All(Digit, digits)
  {
    if digits == [] then 0
    else
      assert digits[|digits| - 1] in digits;
      assert forall c :: c in digits[..|digits| - 1] ==> c in digits;
      Decimal(digits[..|digits| - 1]) * 10 + DigitValue(digits[|digits| - 1])
  }

  predicate HostOk(h: Host) {
    match h
    case Name(name) => name != [] && All(HostChar, name)
    case V6(addr, zone) =>
      addr != [] && All(V6Char, addr) && (zone.Some? ==> zone.value != [] && All(ZoneChar, zone.value))
  }

  predicate AuthorityOk(a: Authority) {
    && (a.userinfo.Some? ==> All(UserinfoChar, a.userinfo.value))
    && HostOk(a.host)
    && (a.port.Some? ==> a.port.value != [] && All(Digit, a.port.value))
  }

  predicate PortInRange(a: Authority)
    requires AuthorityOk(a)
  {
    a.port.Some? ==> Decimal(a.port.value) <= 0xffff
  }

  predicate TailOk(t: Tail) {
    && All(PathChar, t.path)
    && (t.query.Some? ==> All(QueryChar, t.query.value))
    && (t.frag.Some? ==>
          && t.frag.value.hashes > 0 && All(FragChar, t.frag.value.text)
          && (t.frag.value.text != [] ==> t.frag.value.text[0] != '#')
          && (t.path != [] || t.query.Some?))
  }

  predicate TargetOk(t: Target) {
    match t
    case Absolute(scheme, a, tail) =>
      && scheme != [] && All(Letter, scheme) && AuthorityOk(a) && PortInRange(a)
      && TailOk(tail) && (tail.path != [] ==> tail.path[0] == '/')
    case Origin(tail) => TailOk(tail) && tail.path != [] && (tail.path[0] == '/' || tail.path[0] == '*')
    case Connect(a, tail) =>
      && AuthorityOk(a) && PortInRange(a) && a.port.Some? && a.userinfo in [None, Some([])]
      && TailOk(tail) && tail.path == [] && tail.query in [None, Some([])] && (tail.frag.Some? ==> tail.frag.value.text == [])
  }

  // ---------------------------------------------------------------- the printer

  function Zone(z: Option<string>): string { if z.Some? then "%" + z.value else [] }

  function RenderHost(h: Host): string {
    match h
    case Name(name) => name
    case V6(addr, zone) => "[" + (addr + Zone(zone)) + "]"
  }

  function RenderUserinfo(u: Option<string>): string { if u.Some? then u.value + "@" else [] }
  function RenderPort(p: Option<string>): string { if p.Some? then ":" + p.value else [] }

  function RenderAuthority(a: Authority): string {
    RenderUserinfo(a.userinfo) + (RenderHost(a.host) + RenderPort(a.port))
  }

  function Hashes(n: nat): string { seq(n, _ => '#') }

  function RenderQuery(q: Option<string>): string { if q.Some? then "?" + q.value else [] }
  function RenderFrag(f: Option<Frag>): string { if f.Some? then Hashes(f.value.hashes) + f.value.text else [] }

  function RenderTail(t: Tail): string { t.path + (RenderQuery(t.query) + RenderFrag(t.frag)) }

  function Render(t: Target): string {
    match t
    case Absolute(scheme, a, tail) => scheme + ("://" + (RenderAuthority(a) + RenderTail(tail)))
    case Origin(tail) => RenderTail(tail)
    case Connect(a, tail) => RenderAuthority(a) + RenderTail(tail)
  }

  // ---------------------------------------------------------------- where each component lies

  /** A field is reported only when it is not empty, and as far as 16 bits can say where it is. */
  function Put(fields: Fields, f: Field, off: nat, s: string): Fields {
    if s == [] then fields else fields[f := Span(U16(off), U16(|s|))]
  }

  /** The host without the brackets of an IPv6 literal. */
  function HostText(h: Host): string {
    match h
    case Name(name) => name
    case V6(addr, zone) => addr + Zone(zone)
  }

  function AuthorityLayout(fields: Fields, a: Authority, base: nat): Fields {
    var hostBase := base + |RenderUserinfo(a.userinfo)|;
    var f1 := Put(fields, UfUserinfo, base, if a.userinfo.Some? then a.userinfo.value else []);
    var f2 := Put(f1, UfHost, if a.host.V6? then hostBase + 1 else hostBase, HostText(a.host));
    Put(f2, UfPort, hostBase + |RenderHost(a.host)| + 1, if a.port.Some? then a.port.value else [])
  }

  function TailLayout(fields: Fields, t: Tail, base: nat): Fields {
    var f1 := Put(fields, UfPath, base, t.path);
    var f2 := Put(f1, UfQuery, base + |t.path| + 1, if t.query.Some? then t.query.value else []);
    if t.frag.None? then f2
    else Put(f2, UfFragment, base + |t.path| + |RenderQuery(t.query)| + t.frag.value.hashes, t.frag.value.text)
  }

  function Layout(t: Target): Fields {
    match t
    case Absolute(scheme, a, tail) =>
      var base := |scheme| + 3;
      TailLayout(AuthorityLayout(Put(map[], UfSchema, 0, scheme), a, base), tail, base + |RenderAuthority(a)|)
    case Origin(tail) => TailLayout(map[], tail, 0)
    case Connect(a, tail) => TailLayout(AuthorityLayout(map[], a, 0), tail, |RenderAuthority(a)|)
  }

  function PortNumber(t: Target): nat
    requires TargetOk(t)
  {
    if t.Origin? || t.authority.port.None? then 0 else Decimal(t.authority.port.value)
  }
}
