/** STUN and TURN endpoint URLs (section 3.1 of RFC 7064, section 3.1 of RFC 7065) as the issuer reads and prints
    them. */
module IceEndpoint {
  import opened Options

  /** What a URL names, once defaults are filled in and the host is in lower case. */
  datatype Endpoint = Endpoint(turn: bool, host: string, port: nat, tcp: bool)

  const DEFAULT_PORT := 3478
  const MAX_PORT := 65535
  const MAX_URL := 512
  const MAX_ADDRESS := 255

  // ---- decimal numbers --------------------------------------------------------------------

  predicate Digit(c: char) {
    '0' <= c <= '9'
  }

  function DigitOf(n: nat): char
    requires n < 10
  {
    (n + '0' as int) as char
  }

  /** std::to_string. */
  function Decimal(n: nat): string {
    if n < 10 then [DigitOf(n)] else Decimal(n / 10) + [DigitOf(n % 10)]
  }

  /** std::stoi on a string of digits. */
  function Number(s: string): nat
    requires forall c :: c in s ==> Digit(c)
  {
    if s == "" then 0
    else
      assert Digit(s[|s| - 1]);
      assert forall c :: c in s[..|s| - 1] ==> c in s;
      10 * Number(s[..|s| - 1]) + (s[|s| - 1] as int - '0' as int)
  }

  lemma {:induction false} NumberOfDecimal(n: nat)
    ensures Decimal(n) != "" && forall c :: c in Decimal(n) ==> Digit(c)
    ensures Number(Decimal(n)) == n
  {
    if n < 10 {
      assert [DigitOf(n)][..0] == "";
    } else {
      NumberOfDecimal(n / 10);
      var s := Decimal(n);
      assert s[..|s| - 1] == Decimal(n / 10) && s[|s| - 1] == DigitOf(n % 10);
    }
  }

  lemma PortIsShort(n: nat)
    requires n <= MAX_PORT
    ensures |Decimal(n)| <= 5
  {
    assert n / 10 < 10000 && n / 100 < 1000 && n / 1000 < 100 && n / 10000 < 10;
    assert n / 10 / 10 == n / 100 && n / 100 / 10 == n / 1000 && n / 1000 / 10 == n / 10000;
    assert |Decimal(n / 10000)| == 1;
    assert |Decimal(n / 1000)| <= 2;
    assert |Decimal(n / 100)| <= 3;
    assert |Decimal(n / 10)| <= 4;
  }

  // ---- the grammar ------------------------------------------------------------------------

  predicate Letter(c: char) {
    'a' <= c <= 'z' || 'A' <= c <= 'Z'
  }

  predicate NameChar(c: char) {
    Letter(c) || Digit(c) || c == '.' || c == '_' || c == '-'
  }

  predicate AddressChar(c: char) {
    NameChar(c) || c == ':' || c == '%'
  }

  /** Every character of s is in the class. */
  predicate All(s: string, ok: char -> bool) {
    forall i :: 0 <= i < |s| ==> ok(s[i])
  }

  /** A name, or an address in square brackets. */
  predicate IsHost(h: string) {
    if h != "" && h[0] == '[' then |h| >= 3 && All(h[1..|h| - 1], AddressChar) && h[|h| - 1] == ']'
    else h != "" && All(h, NameChar)
  }

  datatype Transport = Unstated | Udp | Tcp

  /** The pieces of a URL as written; a missing port is empty. */
  datatype Parts = Parts(turn: bool, host: string, port: string, transport: Transport)

  predicate PortDigits(port: string) {
    |port| <= 5 && All(port, Digit)
  }

  predicate WellFormed(p: Parts) {
    IsHost(p.host) && PortDigits(p.port)
  }

  function TransportText(t: Transport): string {
    match t
    case Unstated => ""
    case Udp => "?transport=udp"
    case Tcp => "?transport=tcp"
  }

  function Tail(port: string, transport: Transport): string {
    if port == "" then TransportText(transport) else [':'] + (port + TransportText(transport))
  }

  function Scheme(turn: bool): string {
    if turn then "turn:" else "stun:"
  }

  function Text(p: Parts): string {
    Scheme(p.turn) + (p.host + Tail(p.port, p.transport))
  }

  // ---- matching ---------------------------------------------------------------------------

  /** The length of the longest prefix in the class. */
  function Span(s: string, ok: char -> bool): (n: nat)
    ensures n <= |s| && All(s[..n], ok) && (n < |s| ==> !ok(s[n]))
  {
    if s == "" || !ok(s[0]) then 0
    else
      var n := 1 + Span(s[1..], ok);
      assert forall i :: 1 <= i < n ==> s[i] == s[1..][i - 1];
      n
  }

  lemma {:induction false} SpanIs(s: string, ok: char -> bool, n: nat)
    requires n <= |s| && All(s[..n], ok) && (n < |s| ==> !ok(s[n]))
    ensures Span(s, ok) == n
    decreases n
  {
    if n > 0 {
      assert ok(s[..n][0]);
      assert s[1..][..n - 1] == s[..n][1..];
      SpanIs(s[1..], ok, n - 1);
    }
  }

  /** The length of the host at the front of s, 0 if there is none. */
  function HostLength(s: string): (n: nat)
    ensures n <= |s|
  {
    if s != "" && s[0] == '[' then
      var n := Span(s[1..], AddressChar);
      if n > 0 && n + 1 < |s| && s[n + 1] == ']' then n + 2 else 0
    else Span(s, NameChar)
  }

  function TransportOf(t: string): Option<Transport> {
    if t == "" then Some(Unstated)
    else if t == "?transport=udp" then Some(Udp)
    else if t == "?transport=tcp" then Some(Tcp)
    else None
  }

  /** The length of the port digits at the front of what follows the host. */
  function PortLength(t: string): (k: nat)
    ensures k == 0 || k < |t|
  {
    if t != "" && t[0] == ':' then Span(t[1..], Digit) else 0
  }

  /** Port and transport, the part after the host. */
  function MatchTail(t: string): Option<(string, Transport)> {
    var k := PortLength(t);
    if k > 5 then None
    else
      var transport := TransportOf(if k == 0 then t else t[k + 1..]);
      if transport.None? then None else Some((if k == 0 then "" else t[1..k + 1], transport.value))
  }

  /** The part after the scheme. */
  function MatchRest(turn: bool, s: string): Option<Parts> {
    var n := HostLength(s);
    var tail := MatchTail(s[n..]);
    if n == 0 || tail.None? then None else Some(Parts(turn, s[..n], tail.value.0, tail.value.1))
  }

  /** What the pattern captures, if the URL matches it. */
  function Match(url: string): Option<Parts> {
    if Scheme(false) <= url then MatchRest(false, url[5..])
    else if Scheme(true) <= url then MatchRest(true, url[5..])
    else None
  }

  lemma HostAtFront(h: string, t: string)
    requires IsHost(h) && (t != "" ==> !NameChar(t[0]))
    ensures HostLength(h + t) == |h| && (h + t)[..|h|] == h && (h + t)[|h|..] == t
  {
    var s := h + t;
    if h[0] == '[' {
      var inner := h[1..|h| - 1];
      assert s[1..][..|inner|] == inner && s[1..][|inner|] == h[|h| - 1];
      SpanIs(s[1..], AddressChar, |inner|);
    } else {
      assert s[..|h|] == h;
      SpanIs(s, NameChar, |h|);
    }
  }

  lemma HostLengthFindsHost(s: string)
    requires HostLength(s) > 0
    ensures IsHost(s[..HostLength(s)])
  {
    var n := HostLength(s);
    if s[0] == '[' {
      assert s[..n][1..n - 1] == s[1..][..n - 2];
    }
  }

  lemma TransportReads(t: Transport)
    ensures TransportOf(TransportText(t)) == Some(t)
    ensures TransportText(t) != "" ==> TransportText(t)[0] == '?'
  {
    assert "?transport=udp"[11] != "?transport=tcp"[11];
  }

  lemma TailReads(port: string, transport: Transport)
    requires PortDigits(port)
    ensures MatchTail(Tail(port, transport)) == Some((port, transport))
    ensures Tail(port, transport) != "" ==> Tail(port, transport)[0] == ':' || Tail(port, transport)[0] == '?'
  {
    var t, rest := Tail(port, transport), TransportText(transport);
    TransportReads(transport);
    hide TransportText, TransportOf;
    if port != "" {
      assert t[1..] == port + rest;
      assert t[1..][..|port|] == port;
      SpanIs(t[1..], Digit, |port|);
      assert t[|port| + 1..] == rest && t[1..|port| + 1] == port;
    }
  }

  lemma TransportIsText(t: string)
    requires TransportOf(t).Some?
    ensures TransportText(TransportOf(t).value) == t
  {
  }

  lemma PortIsDigits(t: string)
    requires PortLength(t) > 0
    ensures var k := PortLength(t); t[0] == ':' && All(t[1..k + 1], Digit) && t == [':'] + (t[1..k + 1] + t[k + 1..])
  {
    var k := PortLength(t);
    assert t[1..][..k] == t[1..k + 1];
    assert t == [t[0]] + (t[1..k + 1] + t[k + 1..]);
  }

  lemma TailIsText(t: string)
    requires MatchTail(t).Some?
    ensures var (port, transport) := MatchTail(t).value; PortDigits(port) && t == Tail(port, transport)
  {
    hide TransportOf, TransportText, PortLength, Digit;
    var k := PortLength(t);
    TransportIsText(if k == 0 then t else t[k + 1..]);
    if k > 0 {
      PortIsDigits(t);
    }
  }

  lemma RestMatches(p: Parts)
    requires WellFormed(p)
    ensures MatchRest(p.turn, p.host + Tail(p.port, p.transport)) == Some(p)
  {
    hide Tail, MatchTail, PortDigits, IsHost, HostLength, NameChar;
    var t := Tail(p.port, p.transport);
    TailReads(p.port, p.transport);
    EndsTheName(t);
    HostAtFront(p.host, t);
    HostsHaveLength(p.host);
  }

  lemma EndsTheName(t: string)
    requires t != "" ==> t[0] == ':' || t[0] == '?'
    ensures t != "" ==> !NameChar(t[0])
  {
  }

  lemma HostsHaveLength(h: string)
    requires IsHost(h)
    ensures |h| > 0
  {
  }

  lemma Halves(s: string, n: nat)
    requires n <= |s|
    ensures s == s[..n] + s[n..]
  {
  }

  lemma RestIsText(turn: bool, s: string)
    requires MatchRest(turn, s).Some?
    ensures var p := MatchRest(turn, s).value;
            WellFormed(p) && p.turn == turn && s == p.host + Tail(p.port, p.transport)
  {
    hide IsHost, HostLength, MatchTail, Tail, PortDigits;
    var n := HostLength(s);
    Halves(s, n);
    HostLengthFindsHost(s);
    TailIsText(s[n..]);
  }

  lemma SchemeReads(turn: bool, s: string)
    ensures |Scheme(turn)| == 5 && (Scheme(turn) + s)[5..] == s
    ensures Scheme(turn) <= Scheme(turn) + s && !(Scheme(!turn) <= Scheme(turn) + s)
  {
    assert Scheme(!turn)[0] != Scheme(turn)[0] == (Scheme(turn) + s)[0];
  }

  lemma MatchesOwnText(p: Parts)
    requires WellFormed(p)
    ensures Match(Text(p)) == Some(p)
  {
    hide Scheme, MatchRest, Tail, WellFormed;
    RestMatches(p);
    SchemeReads(p.turn, p.host + Tail(p.port, p.transport));
  }

  lemma MatchIsText(url: string)
    requires Match(url).Some?
    ensures WellFormed(Match(url).value) && url == Text(Match(url).value)
  {
    hide MatchRest, Tail, WellFormed;
    var turn := !(Scheme(false) <= url);
    assert url == Scheme(turn) + url[5..];
    RestIsText(turn, url[5..]);
  }

  /** The pattern is unambiguous: a URL matches it in one way at most, and `Match` finds that way. */
  lemma MatchIff(url: string, p: Parts)
    ensures Match(url) == Some(p) <==> WellFormed(p) && url == Text(p)
  {
    hide Match, WellFormed, Text;
    if Match(url).Some? {
      MatchIsText(url);
    }
    if WellFormed(p) {
      MatchesOwnText(p);
    }
  }

  // ---- canonical form ---------------------------------------------------------------------

  function LowerChar(c: char): char {
    if 'A' <= c <= 'Z' then (c as int + 32) as char else c
  }

  /** Lower case up to a zone identifier, which keeps its case. */
  function Lower(s: string): (l: string)
    ensures |l| == |s| && forall i :: 0 <= i < |s| ==> l[i] == s[i] || l[i] == LowerChar(s[i])
  {
    if s == "" || s[0] == '%' then s else [LowerChar(s[0])] + Lower(s[1..])
  }

  lemma {:induction false} LowerTwice(s: string)
    ensures Lower(Lower(s)) == Lower(s)
  {
    if s != "" && s[0] != '%' {
      LowerTwice(s[1..]);
      assert Lower(s)[1..] == Lower(s[1..]);
    }
  }

  lemma LowerKeepsChars(h: string, i: nat)
    requires i < |h|
    ensures NameChar(h[i]) ==> NameChar(Lower(h)[i])
    ensures AddressChar(h[i]) ==> AddressChar(Lower(h)[i])
    ensures Lower(h)[i] == ':' <==> h[i] == ':'
    ensures !Letter(h[i]) ==> Lower(h)[i] == h[i]
  {
  }

  lemma LowerKeepsHost(h: string)
    requires IsHost(h)
    ensures IsHost(Lower(h)) && Lower(h)[0] == '[' <==> h[0] == '['
    ensures IsHost(Lower(h)) && (':' in Lower(h) <==> ':' in h)
  {
    hide Lower, NameChar, AddressChar;
    var l := Lower(h);
    forall i | 0 <= i < |h|
      ensures NameChar(h[i]) ==> NameChar(l[i])
      ensures AddressChar(h[i]) ==> AddressChar(l[i])
      ensures l[i] == ':' <==> h[i] == ':'
      ensures !Letter(h[i]) ==> l[i] == h[i]
    {
      LowerKeepsChars(h, i);
    }
    if h[0] == '[' {
      var inner := l[1..|l| - 1];
      forall i | 0 <= i < |inner|
        ensures AddressChar(inner[i])
      {
        assert AddressChar(h[1..|h| - 1][i]);
      }
    } else {
      NotABracket(h[0], l[0]);
    }
  }

  lemma NotABracket(c: char, l: char)
    requires NameChar(c) && (NameChar(c) ==> NameChar(l))
    ensures c != '[' && l != '['
  {
  }

  predicate AddressOk(host: string, port: nat) {
    && IsHost(host) && 1 <= port <= MAX_PORT
    && (host[0] == '[' ==> ':' in host)
    && |host| + 1 + |Decimal(port)| <= MAX_ADDRESS
  }

  /** One URL of the configuration; None when the issuer refuses it. */
  function Parse(url: string): Option<Endpoint> {
    if "turns:" <= url || |url| > MAX_URL then None
    else
      var m := Match(url);
      if m.None? then None
      else
        MatchIsText(url);
        var p := m.value;
        var port := if p.port == "" then DEFAULT_PORT else Number(p.port);
        if !p.turn && p.transport != Unstated then None
        else if port == 0 || port > MAX_PORT then None
        else if (p.host[0] == '[' && ':' !in p.host) || |p.host| + 1 + |Decimal(port)| > MAX_ADDRESS then None
        else Some(Endpoint(p.turn, Lower(p.host), port, p.turn && p.transport == Tcp))
  }

  /** The pieces of the canonical URL: port and, for TURN, transport are always written out. */
  function PartsOf(e: Endpoint): Parts {
    Parts(e.turn, e.host, Decimal(e.port), if !e.turn then Unstated else if e.tcp then Tcp else Udp)
  }

  function Print(e: Endpoint): string {
    Text(PartsOf(e))
  }

  predicate Canonical(e: Endpoint) {
    AddressOk(e.host, e.port) && Lower(e.host) == e.host && (e.tcp ==> e.turn)
  }

  lemma ParsedIsCanonical(url: string)
    requires Parse(url).Some?
    ensures Canonical(Parse(url).value)
  {
    var p := Match(url).value;
    MatchIsText(url);
    LowerKeepsHost(p.host);
    LowerTwice(p.host);
  }

  lemma PrintsWell(e: Endpoint)
    requires Canonical(e)
    ensures WellFormed(PartsOf(e)) && Number(PartsOf(e).port) == e.port && PartsOf(e).port != ""
    ensures |Print(e)| <= MAX_URL && !("turns:" <= Print(e))
  {
    hide IsHost, Lower;
    NumberOfDecimal(e.port);
    PortIsShort(e.port);
    assert Print(e)[4] == ':';
  }

  /** Printing a canonical endpoint and reading it back gives the same endpoint. */
  lemma PrintParses(e: Endpoint)
    requires Canonical(e)
    ensures Parse(Print(e)) == Some(e)
  {
    PrintsWell(e);
    hide Decimal;
    MatchesOwnText(PartsOf(e));
  }

  /** Canonicalising is idempotent: the canonical URL of an accepted URL is accepted and is its own canonical URL. */
  lemma CanonicalFormIsFixed(url: string)
    requires Parse(url).Some?
    ensures Parse(Print(Parse(url).value)) == Parse(url)
  {
    ParsedIsCanonical(url);
    PrintParses(Parse(url).value);
  }

  /** Two URLs have the same canonical text exactly when they name the same endpoint. */
  lemma SameTextIff(e: Endpoint, e': Endpoint)
    requires Canonical(e) && Canonical(e')
    ensures Print(e) == Print(e') <==> e == e'
  {
    hide Print, Parse;
    PrintParses(e);
    PrintParses(e');
  }

  /** The scheme of the printed URL tells STUN from TURN. */
  lemma SchemeShows(e: Endpoint)
    ensures "turn:" <= Print(e) <==> e.turn
  {
    assert Print(e)[0] == if e.turn then 't' else 's';
  }
}
