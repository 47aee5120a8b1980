/**
 * The URL parser of url_parser.c in its strict configuration: two character automata, an outer one
 * that finds the segments and an inner one that splits the host segment, and a field table with
 * 16-bit offsets and lengths.
 */
module UrlParser {
  import opened Common

  datatype Field = UfSchema | UfHost | UfPort | UfPath | UfQuery | UfFragment | UfUserinfo

  /** A field's offset and length; both are uint16_t in the source. */
  datatype Span = Span(off: nat, len: nat)

  /** The field table: a field is a key exactly when its bit is set in field_set. */
  type Fields = map<Field, Span>

  datatype Url = Url(fields: Fields, port: nat)

  function U16(n: nat): nat { n % 0x1_0000 }

  // ---------------------------------------------------------------- character classes

  predicate IsAlpha(c: char) { 'a' <= c <= 'z' || 'A' <= c <= 'Z' }
  predicate IsNum(c: char) { '0' <= c <= '9' }
  predicate IsAlphanum(c: char) { IsAlpha(c) || IsNum(c) }
  predicate IsHex(c: char) { IsNum(c) || 'a' <= c <= 'f' || 'A' <= c <= 'F' }
  predicate IsMark(c: char) {
    c == '-' || c == '_' || c == '.' || c == '!' || c == '~' || c == '*' || c == '\'' || c == '(' || c == ')'
  }
  predicate IsUserinfoChar(c: char) {
    || IsAlphanum(c) || IsMark(c) || c == '%' || c == ';' || c == ':' || c == '&' || c == '=' || c == '+'
    || c == '$' || c == ','
  }
  predicate IsHostChar(c: char) { IsAlphanum(c) || c == '.' || c == '-' }
  /** The set bits of normal_url_char in strict mode. */
  predicate IsUrlChar(c: char) { '!' <= c <= '~' && c != '#' && c != '?' }

  // ---------------------------------------------------------------- the outer automaton

  datatype State =
    | SDead | SSpacesBeforeUrl | SSchema | SSchemaSlash | SSchemaSlashSlash
    | SServerStart | SServer | SServerWithAt
    | SPath | SQueryStringStart | SQueryString | SFragmentStart | SFragment

  function ParseUrlChar(s: State, ch: char): State {
    if ch == ' ' || ch == '\r' || ch == '\n' || ch == '\t' || ch == '\U{000C}' then SDead
    else match s
      case SSpacesBeforeUrl =>
        if ch == '/' || ch == '*' then SPath else if IsAlpha(ch) then SSchema else SDead
      case SSchema => if IsAlpha(ch) then SSchema else if ch == ':' then SSchemaSlash else SDead
      case SSchemaSlash => if ch == '/' then SSchemaSlashSlash else SDead
      case SSchemaSlashSlash => if ch == '/' then SServerStart else SDead
      case SServerWithAt => if ch == '@' then SDead else AfterServer(ch)
      case SServerStart => AfterServer(ch)
      case SServer => AfterServer(ch)
      case SPath =>
        if IsUrlChar(ch) then SPath else if ch == '?' then SQueryStringStart
        else if ch == '#' then SFragmentStart else SDead
      case SQueryStringStart => AfterQuery(ch)
      case SQueryString => AfterQuery(ch)
      case SFragmentStart =>
        if IsUrlChar(ch) || ch == '?' then SFragment else if ch == '#' then SFragmentStart else SDead
      case SFragment => if IsUrlChar(ch) || ch == '?' || ch == '#' then SFragment else SDead
      case SDead => SDead
  }

  function AfterServer(ch: char): State {
    if ch == '/' then SPath
    else if ch == '?' then SQueryStringStart
    else if ch == '@' then SServerWithAt
    else if IsUserinfoChar(ch) || ch == '[' || ch == ']' then SServer
    else SDead
  }

  function AfterQuery(ch: char): State {
    if IsUrlChar(ch) || ch == '?' then SQueryString else if ch == '#' then SFragmentStart else SDead
  }

  /** The field a state works on; delimiter states have none. */
  function FieldOf(s: State): Option<Field> {
    match s
    case SSchema => Some(UfSchema)
    case SServer => Some(UfHost)
    case SServerWithAt => Some(UfHost)
    case SPath => Some(UfPath)
    case SQueryString => Some(UfQuery)
    case SFragment => Some(UfFragment)
    case _ => None
  }

  /** The variables of c_http_parser_parse_url's first loop. */
  datatype Scan =
    | Alive(s: State, oldUf: Option<Field>, fields: Fields, foundAt: bool)
    | Rejected

  /** A field grows by one character or starts at position `p`. */
  function Extend(fields: Fields, uf: Field, same: bool, p: nat): Fields {
    if same && uf in fields then fields[uf := Span(fields[uf].off, U16(fields[uf].len + 1))]
    else fields[uf := Span(U16(p), 1)]
  }

  function ScanChar(sc: Scan, ch: char, p: nat): Scan {
    if sc.Rejected? then Rejected
    else
      var s := ParseUrlChar(sc.s, ch);
      var uf := FieldOf(s);
      if s == SDead then Rejected
      else if uf.None? then sc.(s := s)
      else Alive(s, uf, Extend(sc.fields, uf.value, uf == sc.oldUf, p), sc.foundAt || s == SServerWithAt)
  }

  /** The first loop over the rest of the buffer, from position `p` on. */
  function Run(sc: Scan, str: string, p: nat): Scan
    decreases |str|
  {
    if str == [] then sc else Run(ScanChar(sc, str[0], p), str[1..], p + 1)
  }

  // ---------------------------------------------------------------- the inner automaton

  datatype HostState =
    | HDead | HUserinfoStart | HUserinfo | HHostStart | HHostV6Start | HHost | HHostV6 | HHostV6End
    | HHostV6ZoneStart | HHostV6Zone | HHostPortStart | HHostPort

  predicate IsV6Char(c: char) { IsHex(c) || c == ':' || c == '.' }
  predicate IsZoneChar(c: char) {
    IsAlphanum(c) || c == '%' || c == '.' || c == '-' || c == '_' || c == '~'
  }

  function ParseHostChar(s: HostState, ch: char): HostState {
    match s
    case HUserinfo => if ch == '@' then HHostStart else if IsUserinfoChar(ch) then HUserinfo else HDead
    case HUserinfoStart => if ch == '@' then HHostStart else if IsUserinfoChar(ch) then HUserinfo else HDead
    case HHostStart => if ch == '[' then HHostV6Start else if IsHostChar(ch) then HHost else HDead
    case HHost => if IsHostChar(ch) then HHost else if ch == ':' then HHostPortStart else HDead
    case HHostV6End => if ch == ':' then HHostPortStart else HDead
    case HHostV6 =>
      if ch == ']' then HHostV6End else if IsV6Char(ch) then HHostV6 else if ch == '%' then HHostV6ZoneStart else HDead
    case HHostV6Start => if IsV6Char(ch) then HHostV6 else HDead
    case HHostV6Zone => if ch == ']' then HHostV6End else if IsZoneChar(ch) then HHostV6Zone else HDead
    case HHostV6ZoneStart => if IsZoneChar(ch) then HHostV6Zone else HDead
    case HHostPort => if IsNum(ch) then HHostPort else HDead
    case HHostPortStart => if IsNum(ch) then HHostPort else HDead
    case HDead => HDead
  }

  datatype HostScan = HostAlive(s: HostState, fields: Fields) | HostRejected

  /** The host's length grows without touching its offset. */
  function GrowHost(fields: Fields): Fields {
    if UfHost in fields then fields[UfHost := Span(fields[UfHost].off, U16(fields[UfHost].len + 1))] else fields
  }

  /** The host's offset moves to `p` on entry; its length grows. */
  function PlaceHost(fields: Fields, entering: bool, p: nat): Fields {
    if UfHost in fields
    then fields[UfHost := Span(if entering then U16(p) else fields[UfHost].off, U16(fields[UfHost].len + 1))]
    else fields
  }

  function HostFields(fields: Fields, s: HostState, n: HostState, p: nat): Fields {
    match n
    case HHost => PlaceHost(fields, s != HHost, p)
    case HHostV6 => PlaceHost(fields, s != HHostV6, p)
    case HHostV6ZoneStart => GrowHost(fields)
    case HHostV6Zone => GrowHost(fields)
    case HHostPort => Extend(fields, UfPort, s == HHostPort, p)
    case HUserinfo => Extend(fields, UfUserinfo, s == HUserinfo, p)
    case _ => fields
  }

  function HostScanChar(h: HostScan, ch: char, p: nat): HostScan {
    if h.HostRejected? then HostRejected
    else
      var n := ParseHostChar(h.s, ch);
      if n == HDead then HostRejected else HostAlive(n, HostFields(h.fields, h.s, n, p))
  }

  function HostRun(h: HostScan, str: string, p: nat): HostScan
    decreases |str|
  {
    if str == [] then h else HostRun(HostScanChar(h, str[0], p), str[1..], p + 1)
  }

  predicate HostEndOk(s: HostState) { s == HHost || s == HHostV6End || s == HHostPort }

  function HostStart(foundAt: bool, fields: Fields): HostScan {
    HostAlive(if foundAt then HUserinfoStart else HHostStart,
              if UfHost in fields then fields[UfHost := Span(fields[UfHost].off, 0)] else fields)
  }

  /** c_http_parse_host on a table whose host field lies within the buffer. */
  function ParseHost(buf: string, fields: Fields, foundAt: bool): Option<Fields>
    requires UfHost in fields && fields[UfHost].off + fields[UfHost].len <= |buf|
  {
    var h := fields[UfHost];
    var r := HostRun(HostStart(foundAt, fields), buf[h.off..h.off + h.len], h.off);
    if r.HostAlive? && HostEndOk(r.s) then Some(r.fields) else None
  }

  // ---------------------------------------------------------------- the port number

  /**
   * The conversion loop: fails as soon as the value exceeds 0xffff.  The value is unsigned, so a
   * character below '0' that takes it below zero makes it huge.
   */
  function ConvertPort(v: nat, digits: string): Option<nat>
    decreases |digits|
  {
    if digits == [] then Some(v)
    else
      var next := v * 10 + (digits[0] as int - '0' as int);
      if next < 0 || next > 0xffff then None else ConvertPort(next, digits[1..])
  }

  predicate Within(span: Span, buf: string) { span.off + span.len <= |buf| }

  function Slice(buf: string, span: Span): string
    requires Within(span, buf)
  {
    buf[span.off..span.off + span.len]
  }

  /** The value of u->port, given a table whose port field, if any, lies within the buffer. */
  function PortOf(buf: string, fields: Fields): Option<nat> {
    if UfPort !in fields then Some(0)
    else if !Within(fields[UfPort], buf) then None
    else ConvertPort(0, Slice(buf, fields[UfPort]))
  }

  function Begin(isConnect: bool): Scan {
    Alive(if isConnect then SServerStart else SSpacesBeforeUrl, None, map[], false)
  }

  /** After the scan: host present with a scheme, host split, CONNECT restriction, port converted. */
  function Finish(buf: string, isConnect: bool, sc: Scan): Option<Url> {
    if sc.Rejected? || (UfSchema in sc.fields && UfHost !in sc.fields) then None
    else if UfHost in sc.fields && !Within(sc.fields[UfHost], buf) then None
    else
      var fields := if UfHost in sc.fields then ParseHost(buf, sc.fields, sc.foundAt) else Some(sc.fields);
      if fields.None? || (isConnect && fields.value.Keys != {UfHost, UfPort}) then None
      else
        var port := PortOf(buf, fields.value);
        if port.None? then None else Some(Url(fields.value, port.value))
  }

  /** c_http_parser_parse_url: the field table and the port, or rejection. */
  function ParseUrl(buf: string, isConnect: bool): Option<Url> {
    if buf == [] then None else Finish(buf, isConnect, Run(Begin(isConnect), buf, 0))
  }
}
