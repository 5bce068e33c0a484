/**
Splitting an endpoint into host and port and joining them again (daemon/internal/dpi/variants.go),
over Go's `net.SplitHostPort`, `net.JoinHostPort`, `strconv.Atoi` and `strings.TrimSpace`.
*/
module Endpoint {
  import opened Options
  import opened Decimal
  import opened Text

  datatype HostPort = HostPort(host: string, port: int)

  // ---- The Go standard library ----

  /** White space for `strings.TrimSpace`. */
  predicate GoSpace(c: char) {
    c in {'\t', '\n', '\U{000B}', '\U{000C}', '\r', ' ', '\U{0085}', '\U{00A0}', '\U{1680}', '\U{2028}', '\U{2029}',
          '\U{202F}', '\U{205F}', '\U{3000}'} || '\U{2000}' <= c <= '\U{200A}'
  }

  /** `net.SplitHostPort`; `None` is an error. */
  function SplitHostPort(hp: string): Option<(string, string)> {
    var i := LastIndexOf(hp, ':');
    if i < 0 then None
    else if hp[0] == '[' then
      var end := IndexOf(hp, ']');
      if end == |hp| || end + 1 != i then None
      else if Has(hp[1..], '[') || Has(hp[end + 1..], ']') then None
      else Some((hp[1..end], hp[i + 1..]))
    else if Has(hp[..i], ':') || Has(hp, '[') || Has(hp, ']') then None
    else Some((hp[..i], hp[i + 1..]))
  }

  /** `net.JoinHostPort`: brackets around a host with a colon. */
  function JoinHostPort(host: string, port: string): string {
    if Has(host, ':') then "[" + host + "]:" + port else host + ":" + port
  }

  // ---- The daemon's own helpers ----

  function SplitEndpoint(endpoint: string): (r: Option<HostPort>)
    ensures r.Some? ==> 1 <= r.value.port <= 65535
  {
    var idx := LastIndexOf(endpoint, ':');
    var parts: Option<(string, string)> :=
      match SplitHostPort(endpoint)
      case Some(p) => Some(p)
      case None =>
        // an IPv6 address without brackets: the port follows the last colon
        if idx <= 0 || idx + 1 >= |endpoint| then None
        else Some((endpoint[..idx], endpoint[idx + 1..]));
    match parts
    case None => None
    case Some((h, p)) =>
      match Atoi(Trim(p, GoSpace))
      case Some(n) => if n <= 0 || n > 65535 then None else Some(HostPort(h, n))
      case None => None
  }

  function JoinEndpoint(host: string, port: int): string {
    JoinHostPort(host, IntText(port))
  }

  // ---- Round trips ----

  predicate BracketFree(s: string) {
    !Has(s, '[') && !Has(s, ']')
  }

  predicate ValidPort(p: int) {
    1 <= p <= 65535
  }

  lemma DigitsAreNoSpace(s: string)
    requires AllDigits(s)
    ensures Trim(s, GoSpace) == s
    ensures !Has(s, ':') && BracketFree(s)
  {
  }

  lemma LastColon(a: string, b: string)
    requires !Has(b, ':')
    ensures LastIndexOf(a + ":" + b, ':') == |a|
  {
    var s := a + ":" + b;
    assert s[|a|] == ':';
    assert forall k :: |a| < k < |s| ==> s[k] == b[k - |a| - 1];
  }

  lemma PortReads(p: int)
    requires ValidPort(p)
    ensures Atoi(Trim(IntText(p), GoSpace)) == Some(p)
    ensures !Has(IntText(p), ':') && BracketFree(IntText(p)) && IntText(p) != ""
  {
    DigitsAreNoSpace(IntText(p));
    AtoiOfText(p);
  }

  /** Where the closing bracket and the last colon are. */
  lemma BracketPositions(h: string, t: string)
    requires !Has(h, ']') && !Has(t, ':')
    ensures var s := "[" + h + "]:" + t; LastIndexOf(s, ':') == |h| + 2 && IndexOf(s, ']') == |h| + 1
  {
    var s, e := "[" + h + "]:" + t, |h| + 1;
    assert s == ("[" + h + "]") + ":" + t;
    LastColon("[" + h + "]", t);
    assert forall k :: 0 < k < e ==> s[k] == h[k - 1];
    FirstAt(s, ']', e);
  }

  lemma BracketParts(h: string, t: string)
    requires BracketFree(h) && BracketFree(t)
    ensures var s := "[" + h + "]:" + t;
      s[1..|h| + 1] == h && s[|h| + 3..] == t && !Has(s[1..], '[') && !Has(s[|h| + 2..], ']')
  {
  }

  /** Joined with brackets and split directly. */
  lemma BracketedRoundTrip(h: string, t: string)
    requires BracketFree(h) && !Has(t, ':') && BracketFree(t)
    ensures SplitHostPort("[" + h + "]:" + t) == Some((h, t))
  {
    BracketPositions(h, t);
    BracketParts(h, t);
  }

  /** A colon-free host and no brackets: split directly. */
  lemma PlainRoundTrip(h: string, t: string)
    requires !Has(h, ':') && BracketFree(h) && !Has(t, ':') && BracketFree(t)
    ensures SplitHostPort(h + ":" + t) == Some((h, t))
  {
    var s := h + ":" + t;
    LastColon(h, t);
    assert s[..|h|] == h && s[|h| + 1..] == t;
    if h != "" {
      assert s[0] == h[0];
      assert h[0] in h;
    } else {
      assert s[0] == ':';
    }
  }

  /** Split after join returns the same host and the same port. */
  lemma SplitAfterJoin(h: string, p: int)
    requires BracketFree(h) && ValidPort(p)
    ensures SplitEndpoint(JoinEndpoint(h, p)) == Some(HostPort(h, p))
  {
    PortReads(p);
    if Has(h, ':') {
      BracketedRoundTrip(h, IntText(p));
    } else {
      PlainRoundTrip(h, IntText(p));
    }
  }

  /** An address without brackets splits at the last colon, so the unbracketed IPv6 form is read as well. */
  lemma UnbracketedSplits(h: string, p: int)
    requires BracketFree(h) && ValidPort(p) && h != ""
    ensures SplitEndpoint(h + ":" + IntText(p)) == Some(HostPort(h, p))
  {
    PortReads(p);
    var t := IntText(p);
    var s := h + ":" + t;
    LastColon(h, t);
    assert s[..|h|] == h && s[|h| + 1..] == t;
    if Has(h, ':') {
      assert s[0] == h[0] && h[0] in h;
      assert SplitHostPort(s) == None;
    } else {
      PlainRoundTrip(h, t);
    }
  }

  /** Hosts that a joined endpoint gives back. */
  predicate Joinable(h: string) {
    if Has(h, ':') then BracketFree(h)
    else !(|h| >= 2 && h[0] == '[' && h[|h| - 1] == ']' && BracketFree(h[1..|h| - 1]))
  }

  /**
  For arbitrary hosts, brackets included, join then split keeps the host exactly when: a host with
  a colon has no bracket, and a host without one is not itself a bracketed name.
  */
  lemma RoundTripExactly(h: string, p: int)
    requires ValidPort(p) && h != ""
    ensures SplitEndpoint(JoinEndpoint(h, p)) == Some(HostPort(h, p)) <==> Joinable(h)
  {
    PortReads(p);
    var t := IntText(p);
    assert h[0] in h;
    if BracketFree(h) {
      SplitAfterJoin(h, p);
    } else if Has(h, ':') {
      BracketedHostLost(h, t);
    } else {
      PlainHostWithBrackets(h, t);
    }
  }

  lemma BracketedHostLost(h: string, t: string)
    requires Has(h, ':') && !BracketFree(h) && !Has(t, ':') && BracketFree(t) && t != ""
    ensures SplitHostPort("[" + h + "]:" + t) == None
    ensures var s := "[" + h + "]:" + t;
      LastIndexOf(s, ':') == |h| + 2 && s[..|h| + 2] == "[" + h + "]" && s[|h| + 3..] == t
  {
    var s := "[" + h + "]:" + t;
    assert s == ("[" + h + "]") + ":" + t;
    LastColon("[" + h + "]", t);
    assert s[..|h| + 2] == "[" + h + "]" && s[|h| + 3..] == t;
    if Has(h, ']') {
      var k :| 0 <= k < |h| && h[k] == ']';
      assert s[k + 1] == ']';
      assert IndexOf(s, ']') <= k + 1;
    } else {
      var k :| 0 <= k < |h| && h[k] == '[';
      assert s[1..][k] == '[';
    }
  }

  lemma PlainHostWithBrackets(h: string, t: string)
    requires !Has(h, ':') && !BracketFree(h) && !Has(t, ':') && BracketFree(t) && t != ""
    ensures var s := h + ":" + t;
      && LastIndexOf(s, ':') == |h| && s[..|h|] == h && s[|h| + 1..] == t
      && (SplitHostPort(s) == None <==> Joinable(h))
      && (SplitHostPort(s).Some? ==> SplitHostPort(s).value.0 != h)
  {
    var s := h + ":" + t;
    LastColon(h, t);
    assert s[..|h|] == h && s[|h| + 1..] == t;
    assert h != "" && s[0] == h[0];
    if !Joinable(h) {
      var inner := h[1..|h| - 1];
      assert h == "[" + inner + "]";
      assert s == "[" + inner + "]:" + t;
      BracketedRoundTrip(inner, t);
    } else if h[0] != '[' {
      var c := if Has(h, '[') then '[' else ']';
      var k :| 0 <= k < |h| && h[k] == c;
      assert s[k] == c;
    } else {
      OpenBracketRejected(h, t);
    }
  }

  lemma OpenBracketRejected(h: string, t: string)
    requires h != "" && h[0] == '[' && !Has(h, ':') && !Has(t, ':') && BracketFree(t) && Joinable(h)
    ensures SplitHostPort(h + ":" + t) == None
  {
    var s := h + ":" + t;
    LastColon(h, t);
    var end := IndexOf(s, ']');
    assert forall k :: 0 <= k < |h| ==> s[k] == h[k];
    if end + 1 == |h| {
      var inner := h[1..|h| - 1];
      assert forall k :: 0 <= k < |inner| ==> inner[k] == s[k + 1];
      assert !Has(inner, ']');
      var k :| 0 <= k < |inner| && inner[k] == '[';
      assert s[1..][k] == '[';
    }
  }

  /** A text that is a number between white space holds no bracket. */
  lemma {:induction false} TrimKeepsBrackets(s: string, c: char)
    requires c == '[' || c == ']'
    ensures Has(Trim(s, GoSpace), c) <==> Has(s, c)
  {
    if s != "" && GoSpace(s[0]) {
      TrimKeepsBrackets(s[1..], c);
      assert s == [s[0]] + s[1..];
    } else if s != "" && GoSpace(s[|s| - 1]) {
      TrimKeepsBrackets(s[..|s| - 1], c);
      assert s == s[..|s| - 1] + [s[|s| - 1]];
    }
  }

  lemma NumbersHaveNoBrackets(s: string)
    requires Atoi(Trim(s, GoSpace)).Some?
    ensures BracketFree(s)
  {
    var t := Trim(s, GoSpace);
    forall k | 0 <= k < |t|
      ensures t[k] != '[' && t[k] != ']'
    {
      if k > 0 {
        assert t[1..][k - 1] == t[k];
      }
    }
    TrimKeepsBrackets(s, '[');
    TrimKeepsBrackets(s, ']');
  }

  lemma BracketedNameSplits(h: string, p: string)
    requires !Has(h, ':') && !Joinable(h) && !Has(p, ':') && BracketFree(p)
    ensures SplitHostPort(h + ":" + p).Some?
  {
    var inner := h[1..|h| - 1];
    assert h == "[" + inner + "]";
    assert h + ":" + p == "[" + inner + "]:" + p;
    BracketedRoundTrip(inner, p);
  }

  lemma DirectHostIsBare(endpoint: string)
    requires SplitHostPort(endpoint).Some?
    ensures BracketFree(SplitHostPort(endpoint).value.0)
  {
  }

  lemma BareIsJoinable(h: string)
    requires BracketFree(h)
    ensures Joinable(h)
  {
  }

  /** Where the host of an accepted endpoint comes from. */
  lemma SplitForms(endpoint: string) returns (p: string)
    requires SplitEndpoint(endpoint).Some?
    ensures var h := SplitEndpoint(endpoint).value.host;
      if SplitHostPort(endpoint).Some? then h == SplitHostPort(endpoint).value.0
      else endpoint == h + ":" + p && !Has(p, ':') && BracketFree(p)
  {
    var idx := LastIndexOf(endpoint, ':');
    p := if SplitHostPort(endpoint).Some? then "" else endpoint[idx + 1..];
    if SplitHostPort(endpoint) == None {
      NumbersHaveNoBrackets(p);
    }
  }

  /** No endpoint splits into a bracketed host without a colon: `net.SplitHostPort` takes the brackets off. */
  lemma SplitHostWithoutColon(endpoint: string)
    requires SplitEndpoint(endpoint).Some? && !Has(SplitEndpoint(endpoint).value.host, ':')
    ensures Joinable(SplitEndpoint(endpoint).value.host)
  {
    var p := SplitForms(endpoint);
    var h := SplitEndpoint(endpoint).value.host;
    if SplitHostPort(endpoint).Some? {
      DirectHostIsBare(endpoint);
      BareIsJoinable(h);
    } else if !Joinable(h) {
      BracketedNameSplits(h, p);
    }
  }

  /** Hosts that re-porting keeps: without a colon, or without brackets. */
  predicate HostSurvives(h: string) {
    Has(h, ':') ==> BracketFree(h)
  }

  /** For every endpoint the code accepts, a new port keeps the host exactly when the host survives. */
  lemma RePortKeepsHostIff(endpoint: string, p: int)
    requires ValidPort(p) && SplitEndpoint(endpoint).Some?
    ensures var h := SplitEndpoint(endpoint).value.host;
      SplitEndpoint(JoinEndpoint(h, p)) == Some(HostPort(h, p)) <==> HostSurvives(h)
  {
    var h := SplitEndpoint(endpoint).value.host;
    if h == "" {
      SplitAfterJoin(h, p);
    } else {
      RoundTripExactly(h, p);
      if !Has(h, ':') {
        SplitHostWithoutColon(endpoint);
      }
    }
  }

  lemma BracketedSplits(h: string, t: string, n: int)
    requires Has(h, ':') && !BracketFree(h) && !Has(t, ':') && BracketFree(t) && t != ""
    requires Atoi(Trim(t, GoSpace)) == Some(n) && ValidPort(n)
    ensures SplitEndpoint("[" + h + "]:" + t) == Some(HostPort("[" + h + "]", n))
  {
    BracketedHostLost(h, t);
  }

  lemma InBrackets(h: string)
    ensures !BracketFree("[" + h + "]") && (Has(h, ':') ==> Has("[" + h + "]", ':'))
  {
    HasConcat("[" + h, "]", ':');
    HasConcat("[", h, ':');
    assert ("[" + h + "]")[0] == '[';
  }

  /** An address in two pairs of brackets, as "[[::1]]:443", is accepted, and loses its host with any new port. */
  lemma DoubleBracketsLost(address: string, port: int, p: int)
    requires Has(address, ':') && ValidPort(port) && ValidPort(p)
    ensures var once := "[" + address + "]"; var twice := "[" + once + "]";
      && SplitEndpoint("[" + once + "]:" + IntText(port)) == Some(HostPort(twice, port))
      && SplitEndpoint(JoinEndpoint(twice, p)) != Some(HostPort(twice, p))
  {
    var once := "[" + address + "]";
    InBrackets(address);
    InBrackets(once);
    PortReads(port);
    BracketedSplits(once, IntText(port), port);
    RoundTripExactly("[" + once + "]", p);
  }

  /** Whatever the form, the port is what follows the last colon. */
  lemma PortIsLast(endpoint: string)
    requires SplitEndpoint(endpoint).Some?
    ensures var i := LastIndexOf(endpoint, ':');
      i >= 0 && Atoi(Trim(endpoint[i + 1..], GoSpace)) == Some(SplitEndpoint(endpoint).value.port)
  {
  }

  /** Both forms of a joined endpoint end in a colon and the port. */
  lemma JoinShape(host: string, t: string) returns (h: string)
    ensures JoinHostPort(host, t) == h + ":" + t
  {
    if Has(host, ':') {
      h := "[" + host + "]";
      assert "[" + host + "]:" + t == h + ":" + t;
    } else {
      h := host;
    }
  }

  lemma AfterLastColon(h: string, t: string)
    requires !Has(t, ':')
    ensures var e := h + ":" + t; var i := LastIndexOf(e, ':'); i >= 0 && e[i + 1..] == t
  {
    LastColon(h, t);
  }

  lemma JoinedPortIsLast(host: string, p: int)
    requires ValidPort(p)
    ensures var e := JoinEndpoint(host, p); var i := LastIndexOf(e, ':');
      i >= 0 && e[i + 1..] == IntText(p)
  {
    PortReads(p);
    var h := JoinShape(host, IntText(p));
    AfterLastColon(h, IntText(p));
  }

  /** A new port always makes a different endpoint, whatever the host looks like. */
  lemma NewPortDiffers(endpoint: string, host: string, p: int)
    requires ValidPort(p) && SplitEndpoint(endpoint).Some? && SplitEndpoint(endpoint).value.port != p
    ensures JoinEndpoint(host, p) != endpoint
  {
    PortIsLast(endpoint);
    PortReads(p);
    JoinedPortIsLast(host, p);
  }
}
