/**
 * The loops of c_http_parse_host and c_http_parser_parse_url, updating the caller's field table in
 * place.  The program has none of the range checks that the specification ParseUrl makes on the host
 * and the port field; the proof shows that they cannot fail, for buffers of any length.
 */
module UrlProgram {
  import opened Common
  import opened UrlParser
  import opened UrlGrammar
  import opened UrlAccepts
  import opened UrlSound

  lemma {:induction false} RunCons(sc: Scan, buf: string, p: nat)
    requires p < |buf|
    ensures Run(sc, buf[p..], p) == Run(ScanChar(sc, buf[p], p), buf[p + 1..], p + 1)
  {
    assert buf[p..][1..] == buf[p + 1..];
  }

  lemma {:induction false} HostRunCons(h: HostScan, buf: string, p: nat, end: nat)
    requires p < end <= |buf|
    ensures HostRun(h, buf[p..end], p) == HostRun(HostScanChar(h, buf[p], p), buf[p + 1..end], p + 1)
  {
    assert buf[p..end][1..] == buf[p + 1..end];
  }

  /** The port field, if it is set, ends by position `p`. */
  predicate PortBefore(fields: Fields, p: nat) {
    UfPort in fields ==> fields[UfPort].off + fields[UfPort].len <= p
  }

  class ParserUrl {
    var fields: Fields
    var port: nat

    constructor ()
      ensures fields == map[] && port == 0
    {
      fields, port := map[], 0;
    }

    /** The switch on the new state of the inner automaton. */
    method RecordHost(s: HostState, n: HostState, p: nat)
      requires UfHost in fields
      modifies this`fields
      ensures fields == HostFields(old(fields), s, n, p) && UfHost in fields
      ensures PortBefore(old(fields), p) ==> PortBefore(fields, p + 1)
    {
      match n {
        case HHost =>
          fields := fields[UfHost := Span(if s != HHost then U16(p) else fields[UfHost].off, U16(fields[UfHost].len + 1))];
        case HHostV6 =>
          fields := fields[UfHost := Span(if s != HHostV6 then U16(p) else fields[UfHost].off, U16(fields[UfHost].len + 1))];
        case HHostV6ZoneStart =>
          fields := fields[UfHost := Span(fields[UfHost].off, U16(fields[UfHost].len + 1))];
        case HHostV6Zone =>
          fields := fields[UfHost := Span(fields[UfHost].off, U16(fields[UfHost].len + 1))];
        case HHostPort => fields := Extend(fields, UfPort, s == HHostPort, p);
        case HUserinfo => fields := Extend(fields, UfUserinfo, s == HUserinfo, p);
        case _ =>
      }
    }

    method ParseHost(buf: string, foundAt: bool) returns (ok: bool)
      requires UfHost in fields && Within(fields[UfHost], buf)
      modifies this`fields
      ensures ok <==> UrlParser.ParseHost(buf, old(fields), foundAt).Some?
      ensures ok ==> fields == UrlParser.ParseHost(buf, old(fields), foundAt).value
      ensures ok && UfPort !in old(fields) && UfPort in fields ==> Within(fields[UfPort], buf)
    {
      hide ParseHostChar, HostFields;
      var p := fields[UfHost].off;
      var end := p + fields[UfHost].len;
      ghost var goal := HostRun(HostStart(foundAt, fields), buf[p..end], p);
      fields := fields[UfHost := Span(fields[UfHost].off, 0)];
      var s := if foundAt then HUserinfoStart else HHostStart;
      while p < end
        invariant p <= end <= |buf| && UfHost in fields
        invariant HostRun(HostAlive(s, fields), buf[p..end], p) == goal
        invariant UfPort !in old(fields) ==> PortBefore(fields, p)
      {
        HostRunCons(HostAlive(s, fields), buf, p, end);
        var n := ParseHostChar(s, buf[p]);
        if n == HDead {
          HostRunRejected(buf[p + 1..end], p + 1);
          return false;
        }
        RecordHost(s, n, p);
        s := n;
        p := p + 1;
      }
      ok := HostEndOk(s);
    }

    /** The digits of the port field to u->port. */
    method ConvertPortField(buf: string) returns (ok: bool)
      requires UfPort in fields ==> Within(fields[UfPort], buf)
      requires port == 0
      modifies this`port
      ensures ok <==> PortOf(buf, fields).Some?
      ensures ok ==> port == PortOf(buf, fields).value
    {
      if UfPort !in fields {
        return true;
      }
      var p := fields[UfPort].off;
      var end := p + fields[UfPort].len;
      ghost var digits := buf[p..end];
      assert end <= |buf|;
      var v: nat := 0;
      while p < end
        invariant p <= end <= |buf|
        invariant ConvertPort(v, buf[p..end]) == ConvertPort(0, digits)
      {
        assert buf[p] == buf[p..end][0] && buf[p..end][1..] == buf[p + 1..end];
        var next := v * 10 + (buf[p] as int - '0' as int);
        if next < 0 || next > 0xffff {        // a negative value is a huge unsigned one
          return false;
        }
        v := next;
        p := p + 1;
      }
      port := v;
      ok := true;
    }

    /** The first loop: one character after the other through the outer automaton. */
    method ScanUrl(buf: string, isConnect: bool) returns (alive: bool, foundAt: bool)
      modifies this`fields
      ensures alive <==> Run(Begin(isConnect), buf, 0).Alive?
      ensures alive ==> var r := Run(Begin(isConnect), buf, 0); fields == r.fields && foundAt == r.foundAt
      ensures alive ==> UfPort !in fields && UfUserinfo !in fields && forall f :: f in fields ==> Within(fields[f], buf)
    {
      hide ParseUrlChar;
      fields := map[];
      var s := if isConnect then SServerStart else SSpacesBeforeUrl;
      var oldUf := None;
      alive, foundAt := true, false;
      var p := 0;
      assert buf[0..] == buf;
      while p < |buf|
        invariant p <= |buf|
        invariant Run(Alive(s, oldUf, fields, foundAt), buf[p..], p) == Run(Begin(isConnect), buf, 0)
        invariant forall f :: f in fields ==> fields[f].off + fields[f].len <= p
        invariant UfPort !in fields && UfUserinfo !in fields
      {
        ghost var sc := Alive(s, oldUf, fields, foundAt);
        RunCons(sc, buf, p);
        s := ParseUrlChar(s, buf[p]);
        if s == SDead {
          RunRejected(buf[p + 1..], p + 1);
          alive := false;
          return;
        }
        var uf := FieldOf(s);
        if uf.Some? {
          if s == SServerWithAt {
            foundAt := true;
          }
          fields := Extend(fields, uf.value, uf == oldUf, p);
          oldUf := uf;
        }
        p := p + 1;
      }
    }

    method ParseUrl(buf: string, isConnect: bool) returns (ok: bool)
      modifies this
      ensures ok <==> UrlParser.ParseUrl(buf, isConnect).Some?
      ensures ok ==> Url(fields, port) == UrlParser.ParseUrl(buf, isConnect).value
    {
      hide Run, Begin, UrlParser.ParseHost, PortOf;
      if |buf| == 0 {
        return false;
      }
      port := 0;
      var alive, foundAt := ScanUrl(buf, isConnect);
      if !alive || (UfSchema in fields && UfHost !in fields) {
        return false;
      }
      if UfHost in fields {
        var hostOk := ParseHost(buf, foundAt);
        if !hostOk {
          return false;
        }
      }
      if isConnect && fields.Keys != {UfHost, UfPort} {
        return false;
      }
      ok := ConvertPortField(buf);
    }
  }
}
