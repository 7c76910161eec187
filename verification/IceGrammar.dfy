/** The pattern the issuer tests URLs with, as the regular expression it is, and what accepted URLs mean. */
module IceGrammar {
  import opened IceEndpoint
  import opened Options

  // ---- regular expressions ----------------------------------------------------------------

  /** The operators of the pattern: a character out of ranges, text, sequence, choice, `?`, `+` and `{lo,hi}`. */
  datatype Regex =
    | OneOf(ranges: seq<(char, char)>)
    | Lit(text: string)
    | Cat(first: Regex, second: Regex)
    | Or(left: Regex, right: Regex)
    | Opt(part: Regex)
    | Plus(part: Regex)
    | Times(part: Regex, lo: nat, hi: nat)

  predicate InRanges(c: char, ranges: seq<(char, char)>) {
    exists i :: 0 <= i < |ranges| && ranges[i].0 <= c <= ranges[i].1
  }

  ghost predicate Matches(r: Regex, s: string)
    decreases r, 0, |s|
  {
    match r
    case OneOf(ranges) => |s| == 1 && InRanges(s[0], ranges)
    case Lit(text) => s == text
    case Cat(a, b) => exists k :: 0 <= k <= |s| && Matches(a, s[..k]) && Matches(b, s[k..])
    case Or(a, b) => Matches(a, s) || Matches(b, s)
    case Opt(a) => s == "" || Matches(a, s)
    case Plus(a) => Matches(a, s) || exists k :: 0 < k <= |s| && Matches(a, s[..k]) && Matches(r, s[k..])
    case Times(a, lo, hi) => TimesMatches(a, lo, hi, s)
  }

  ghost predicate TimesMatches(a: Regex, lo: nat, hi: nat, s: string)
    decreases a, 1, hi
  {
    (lo == 0 && s == "")
    || (hi > 0 && exists k :: 0 <= k <= |s| && Matches(a, s[..k])
                              && TimesMatches(a, if lo > 0 then lo - 1 else 0, hi - 1, s[k..]))
  }

  const DIGITS := [('0', '9')]
  const NAME := [('A', 'Z'), ('a', 'z'), ('0', '9'), ('.', '.'), ('_', '_'), ('-', '-')]
  const ADDRESS := [('0', '9'), ('A', 'Z'), ('a', 'z'), (':', ':'), ('.', '.'), ('%', '%'), ('_', '_'), ('-', '-')]

  /** (\[[0-9A-Za-z:.%_-]+\]|[A-Za-z0-9._-]+) */
  const HOST := Or(Cat(Lit("["), Cat(Plus(OneOf(ADDRESS)), Lit("]"))), Plus(OneOf(NAME)))

  /** (:([0-9]{1,5}))? */
  const PORT := Opt(Cat(Lit(":"), Times(OneOf(DIGITS), 1, 5)))

  /** (\?transport=(udp|tcp))? */
  const TRANSPORT := Opt(Cat(Lit("?transport="), Or(Lit("udp"), Lit("tcp"))))

  /** ^(stun|turn):...$ */
  const PATTERN := Cat(Or(Lit("stun"), Lit("turn")), Cat(Lit(":"), Cat(HOST, Cat(PORT, TRANSPORT))))

  // ---- what its parts match ---------------------------------------------------------------

  predicate AllIn(s: string, ranges: seq<(char, char)>) {
    forall i :: 0 <= i < |s| ==> InRanges(s[i], ranges)
  }

  lemma AllInSplit(s: string, k: nat, ranges: seq<(char, char)>)
    requires k <= |s|
    ensures AllIn(s, ranges) <==> AllIn(s[..k], ranges) && AllIn(s[k..], ranges)
  {
    hide InRanges;
    if AllIn(s[..k], ranges) && AllIn(s[k..], ranges) {
      forall i | 0 <= i < |s|
        ensures InRanges(s[i], ranges)
      {
        assert s[i] == if i < k then s[..k][i] else s[k..][i - k];
      }
    }
  }

  lemma OneOfIs(s: string, ranges: seq<(char, char)>)
    ensures Matches(OneOf(ranges), s) <==> |s| == 1 && AllIn(s, ranges)
  {
  }

  lemma {:induction false} PlusIs(s: string, ranges: seq<(char, char)>)
    ensures Matches(Plus(OneOf(ranges)), s) <==> s != "" && AllIn(s, ranges)
    decreases |s|
  {
    hide InRanges, AllIn;
    OneOfIs(s, ranges);
    forall k | 0 < k <= |s|
      ensures Matches(OneOf(ranges), s[..k]) && Matches(Plus(OneOf(ranges)), s[k..])
         <==> k == 1 && s[1..] != "" && AllIn(s, ranges)
    {
      OneOfIs(s[..k], ranges);
      PlusIs(s[k..], ranges);
      AllInSplit(s, k, ranges);
    }
    if |s| > 1 && AllIn(s, ranges) {
      assert Matches(OneOf(ranges), s[..1]) && Matches(Plus(OneOf(ranges)), s[1..]);
    }
  }

  lemma {:induction false} TimesIs(s: string, ranges: seq<(char, char)>, lo: nat, hi: nat)
    requires lo <= hi
    ensures TimesMatches(OneOf(ranges), lo, hi, s) <==> lo <= |s| <= hi && AllIn(s, ranges)
    decreases hi
  {
    hide InRanges, Matches;
    var less := if lo > 0 then lo - 1 else 0;
    if hi > 0 {
      forall k | 0 <= k <= |s|
        ensures Matches(OneOf(ranges), s[..k]) && TimesMatches(OneOf(ranges), less, hi - 1, s[k..])
           <==> k == 1 && less <= |s| - 1 <= hi - 1 && AllIn(s, ranges)
      {
        OneOfIs(s[..k], ranges);
        TimesIs(s[k..], ranges, less, hi - 1);
        AllInSplit(s, k, ranges);
      }
      hide AllIn;
      if |s| > 0 && less <= |s| - 1 <= hi - 1 && AllIn(s, ranges) {
        assert Matches(OneOf(ranges), s[..1]) && TimesMatches(OneOf(ranges), less, hi - 1, s[1..]);
      }
    }
  }

  lemma CatLit(text: string, r: Regex, s: string)
    ensures Matches(Cat(Lit(text), r), s) <==> text <= s && Matches(r, s[|text|..])
  {
    if text <= s && Matches(r, s[|text|..]) {
      assert Matches(Lit(text), s[..|text|]);
    }
  }

  lemma CatIs(a: Regex, b: Regex, s: string)
    ensures Matches(Cat(a, b), s) <==> exists k :: 0 <= k <= |s| && Matches(a, s[..k]) && Matches(b, s[k..])
  {
  }

  lemma CatEndsLit(r: Regex, text: string, s: string)
    ensures Matches(Cat(r, Lit(text)), s)
       <==> |text| <= |s| && s[|s| - |text|..] == text && Matches(r, s[..|s| - |text|])
  {
    hide Matches;
    CatIs(r, Lit(text), s);
    forall k | 0 <= k <= |s|
      ensures Matches(Lit(text), s[k..]) <==> s[k..] == text
    {
      LitIs(text, s[k..]);
    }
  }

  lemma LitIs(text: string, s: string)
    ensures Matches(Lit(text), s) <==> s == text
  {
  }

  lemma NameRanges(c: char)
    ensures InRanges(c, NAME) <==> NameChar(c)
    ensures InRanges(c, ADDRESS) <==> AddressChar(c)
    ensures InRanges(c, DIGITS) <==> Digit(c)
  {
    assert NAME[0] == ('A', 'Z') && NAME[1] == ('a', 'z') && NAME[2] == ('0', '9') && NAME[3] == ('.', '.')
           && NAME[4] == ('_', '_') && NAME[5] == ('-', '-');
    assert ADDRESS[0] == ('0', '9') && ADDRESS[1] == ('A', 'Z') && ADDRESS[2] == ('a', 'z') && ADDRESS[3] == (':', ':')
           && ADDRESS[4] == ('.', '.') && ADDRESS[5] == ('%', '%') && ADDRESS[6] == ('_', '_')
           && ADDRESS[7] == ('-', '-');
    assert DIGITS[0] == ('0', '9');
  }

  lemma AllInIs(s: string)
    ensures AllIn(s, NAME) <==> All(s, NameChar)
    ensures AllIn(s, ADDRESS) <==> All(s, AddressChar)
    ensures AllIn(s, DIGITS) <==> All(s, Digit)
  {
    hide InRanges, NameChar, AddressChar, Digit;
    forall c
      ensures InRanges(c, NAME) <==> NameChar(c)
      ensures InRanges(c, ADDRESS) <==> AddressChar(c)
      ensures InRanges(c, DIGITS) <==> Digit(c)
    {
      NameRanges(c);
    }
  }

  lemma BracketsAre(s: string)
    ensures Matches(Cat(Lit("["), Cat(Plus(OneOf(ADDRESS)), Lit("]"))), s)
       <==> |s| >= 3 && s[0] == '[' && s[|s| - 1] == ']' && All(s[1..|s| - 1], AddressChar)
  {
    hide Matches, AddressChar, AllIn;
    CatLit("[", Cat(Plus(OneOf(ADDRESS)), Lit("]")), s);
    if "[" <= s {
      var rest := s[1..];
      assert s[|"["|..] == rest;
      CatEndsLit(Plus(OneOf(ADDRESS)), "]", rest);
      if |rest| >= 1 {
        var inner := rest[..|rest| - 1];
        PlusIs(inner, ADDRESS);
        AllInIs(inner);
        assert inner == s[1..|s| - 1];
      }
    }
  }

  lemma HostIs(s: string)
    ensures Matches(HOST, s) <==> IsHost(s)
  {
    BracketsAre(s);
    PlusIs(s, NAME);
    AllInIs(s);
    var a, b := Cat(Lit("["), Cat(Plus(OneOf(ADDRESS)), Lit("]"))), Plus(OneOf(NAME));
    OrIs(a, b, s);
    hide Matches, AllIn;
    if s != "" && s[0] == '[' {
      assert !NameChar(s[0]);
    }
  }

  lemma OrIs(a: Regex, b: Regex, s: string)
    ensures Matches(Or(a, b), s) <==> Matches(a, s) || Matches(b, s)
    ensures Matches(Opt(a), s) <==> s == "" || Matches(a, s)
  {
  }

  lemma PortIs(s: string)
    ensures Matches(PORT, s) <==> s == "" || (s[0] == ':' && s[1..] != "" && PortDigits(s[1..]))
  {
    var times := Times(OneOf(DIGITS), 1, 5);
    OrIs(Cat(Lit(":"), times), Lit(""), s);
    CatLit(":", times, s);
    if s != "" {
      TimesIs(s[1..], DIGITS, 1, 5);
      AllInIs(s[1..]);
      assert Matches(times, s[1..]) <==> TimesMatches(OneOf(DIGITS), 1, 5, s[1..]);
      hide Matches, TimesMatches, AllIn;
      assert ":" <= s ==> s[|":"|..] == s[1..];
    }
  }

  lemma TransportIs(s: string)
    ensures Matches(TRANSPORT, s) <==> TransportOf(s).Some?
  {
    var text, kinds := "?transport=", Or(Lit("udp"), Lit("tcp"));
    OrIs(Cat(Lit(text), kinds), Lit(""), s);
    CatLit(text, kinds, s);
    if text <= s {
      OrIs(Lit("udp"), Lit("tcp"), s[|text|..]);
      LitIs("udp", s[|text|..]);
      LitIs("tcp", s[|text|..]);
      assert s == text + s[|text|..];
      assert text + "udp" == "?transport=udp" && text + "tcp" == "?transport=tcp";
    } else {
      assert text <= text + "udp" == "?transport=udp" && text <= text + "tcp" == "?transport=tcp";
    }
  }

  // ---- the whole pattern ------------------------------------------------------------------

  lemma PiecesMatch(p: Parts)
    requires WellFormed(p)
    ensures Matches(PATTERN, Text(p))
  {
    hide Matches, IsHost, TransportOf, TransportText, PortDigits;
    var port, transport := if p.port == "" then "" else [':'] + p.port, TransportText(p.transport);
    var tail, word := port + transport, if p.turn then "turn" else "stun";
    assert Tail(p.port, p.transport) == tail;
    TransportReads(p.transport);
    TransportIs(transport);
    PortIs(port);
    assert port != "" ==> port[1..] == p.port;
    CatJoins(PORT, TRANSPORT, port, transport);
    HostIs(p.host);
    CatJoins(HOST, Cat(PORT, TRANSPORT), p.host, tail);
    LitIs(":", ":");
    CatJoins(Lit(":"), Cat(HOST, Cat(PORT, TRANSPORT)), ":", p.host + tail);
    LitIs("stun", word);
    LitIs("turn", word);
    OrIs(Lit("stun"), Lit("turn"), word);
    CatJoins(Or(Lit("stun"), Lit("turn")), Cat(Lit(":"), Cat(HOST, Cat(PORT, TRANSPORT))), word, ":" + (p.host + tail));
    assert Text(p) == word + (":" + (p.host + tail)) by {
      SchemeSplits(p.turn, p.host + tail);
    }
  }

  lemma SchemeSplits(turn: bool, rest: string)
    ensures Scheme(turn) + rest == (if turn then "turn" else "stun") + (":" + rest)
  {
    assert "turn" + ":" == "turn:" && "stun" + ":" == "stun:";
  }

  lemma CatJoins(a: Regex, b: Regex, s: string, t: string)
    requires Matches(a, s) && Matches(b, t)
    ensures Matches(Cat(a, b), s + t)
  {
    hide Matches;
    CatIs(a, b, s + t);
    assert (s + t)[..|s|] == s && (s + t)[|s|..] == t;
  }

  lemma CatSplits(a: Regex, b: Regex, s: string) returns (x: string, y: string)
    requires Matches(Cat(a, b), s)
    ensures s == x + y && Matches(a, x) && Matches(b, y)
  {
    hide Matches;
    CatIs(a, b, s);
    var k :| 0 <= k <= |s| && Matches(a, s[..k]) && Matches(b, s[k..]);
    x, y := s[..k], s[k..];
  }

  lemma MatchHasPieces(url: string) returns (p: Parts)
    requires Matches(PATTERN, url)
    ensures WellFormed(p) && url == Text(p)
  {
    hide Matches, IsHost, TransportOf, TransportText, PortDigits;
    var word, r1 := CatSplits(Or(Lit("stun"), Lit("turn")), Cat(Lit(":"), Cat(HOST, Cat(PORT, TRANSPORT))), url);
    var colon, r2 := CatSplits(Lit(":"), Cat(HOST, Cat(PORT, TRANSPORT)), r1);
    var host, r3 := CatSplits(HOST, Cat(PORT, TRANSPORT), r2);
    var port, transport := CatSplits(PORT, TRANSPORT, r3);
    OrIs(Lit("stun"), Lit("turn"), word);
    LitIs("stun", word);
    LitIs("turn", word);
    LitIs(":", colon);
    HostIs(host);
    PortIs(port);
    TransportIs(transport);
    TransportIsText(transport);
    p := Parts(word == "turn", host, if port == "" then "" else port[1..], TransportOf(transport).value);
    NoPort();
    assert port != "" ==> port == [':'] + port[1..];
    assert Tail(p.port, p.transport) == port + transport;
    SchemeSplits(p.turn, host + (port + transport));
  }

  lemma NoPort()
    ensures PortDigits("")
  {
  }

  /** The issuer's matcher accepts exactly the URLs that match the pattern. */
  lemma MatcherIsPattern(url: string)
    ensures Match(url).Some? <==> Matches(PATTERN, url)
  {
    hide Match, Matches, WellFormed, Text;
    if Matches(PATTERN, url) {
      var p := MatchHasPieces(url);
      MatchIff(url, p);
    }
    if Match(url).Some? {
      var p := Match(url).value;
      MatchIff(url, p);
      PiecesMatch(p);
    }
  }

  // ---- what an accepted URL means ---------------------------------------------------------

  /** The port a URL names. */
  function PortOf(p: Parts): nat
    requires PortDigits(p.port)
  {
    assert forall c :: c in p.port ==> Digit(c);
    if p.port == "" then 3478 else Number(p.port)
  }

  /** The place of the first '%', or the length. */
  predicate ZoneAt(h: string, z: nat) {
    z <= |h| && (forall i :: 0 <= i < z ==> h[i] != '%') && (z < |h| ==> h[z] == '%')
  }

  lemma {:induction false} LowerIs(h: string, z: nat)
    requires ZoneAt(h, z)
    ensures |Lower(h)| == |h|
    ensures forall i :: 0 <= i < z ==>
              Lower(h)[i] == if 'A' <= h[i] <= 'Z' then (h[i] as int + 32) as char else h[i]
    ensures forall i :: z <= i < |h| ==> Lower(h)[i] == h[i]
    decreases |h|
  {
    if h != "" && h[0] != '%' {
      LowerIs(h[1..], z - 1);
      var rest := Lower(h[1..]);
      assert Lower(h) == [LowerChar(h[0])] + rest;
      hide Lower;
      assert forall i :: 1 <= i < |h| ==> Lower(h)[i] == rest[i - 1] && h[i] == h[1..][i - 1];
    }
  }

  /** When a URL that matches is accepted. */
  predicate IsAccepted(p: Parts)
    requires PortDigits(p.port) && p.host != ""
  {
    && |Text(p)| <= 512 && (p.turn || p.transport == Unstated) && 1 <= PortOf(p) <= 65535
    && (p.host[0] == '[' ==> ':' in p.host) && |p.host| + 1 + |Decimal(PortOf(p))| <= 255
  }

  /** An accepted URL names the endpoint that it spells: its kind, its host with letters before a zone in lower case,
      its port or 3478, and TCP only if it says so. */
  lemma ParseMeans(p: Parts, z: nat)
    requires WellFormed(p) && ZoneAt(p.host, z)
    ensures p.host != "" && (Parse(Text(p)).Some? <==> IsAccepted(p))
    ensures Parse(Text(p)).Some? ==>
              var e := Parse(Text(p)).value;
              && e.turn == p.turn && e.port == PortOf(p) && (e.tcp <==> p.transport == Tcp)
              && |e.host| == |p.host|
              && (forall i :: 0 <= i < z ==>
                    e.host[i] == if 'A' <= p.host[i] <= 'Z' then (p.host[i] as int + 32) as char else p.host[i])
              && (forall i :: z <= i < |p.host| ==> e.host[i] == p.host[i])
  {
    hide Text, Parse, Number, Decimal, Lower, IsHost, ZoneAt, IsAccepted, PortOf;
    HostsHaveLength(p.host);
    ParsesTo(p);
    LowerIs(p.host, z);
  }

  lemma ParsesTo(p: Parts)
    requires WellFormed(p) && p.host != ""
    ensures Parse(Text(p)) == if IsAccepted(p) then Some(Endpoint(p.turn, Lower(p.host), PortOf(p),
                                                                  p.transport == Tcp)) else None
  {
    hide Text, Match, Number, Decimal, Lower, IsHost;
    MatchesOwnText(p);
    NotTls(p);
  }

  lemma NotTls(p: Parts)
    ensures !("turns:" <= Text(p))
  {
    assert Text(p)[4] == ':' != "turns:"[4];
  }

  /** The canonical text of an endpoint, letter by letter. */
  lemma PrintIs(e: Endpoint)
    ensures Print(e) == (if e.turn then "turn:" else "stun:") + e.host + ":" + Decimal(e.port)
                        + (if !e.turn then "" else if e.tcp then "?transport=tcp" else "?transport=udp")
  {
    hide Decimal, Print, Tail;
    PrintSplits(e);
    TailIs(e);
    var transport := if !e.turn then "" else if e.tcp then "?transport=tcp" else "?transport=udp";
    Joined(e.host, ":", Decimal(e.port), transport);
    assert Scheme(e.turn) + (e.host + ":" + Decimal(e.port) + transport)
        == Scheme(e.turn) + e.host + ":" + Decimal(e.port) + transport;
  }

  lemma Joined(a: string, b: string, c: string, d: string)
    ensures a + (b + c + d) == a + b + c + d
  {
  }

  lemma TailIs(e: Endpoint)
    ensures Tail(PartsOf(e).port, PartsOf(e).transport)
         == ":" + Decimal(e.port) + if !e.turn then "" else if e.tcp then "?transport=tcp" else "?transport=udp"
  {
    DecimalIsSomething(e.port);
    hide Decimal;
  }

  lemma PrintSplits(e: Endpoint)
    ensures var q := PartsOf(e); Print(e) == Scheme(e.turn) + (e.host + Tail(q.port, q.transport))
  {
    hide Tail;
  }

  lemma DecimalIsSomething(n: nat)
    ensures Decimal(n) != ""
  {
  }

  function Pow10(n: nat): nat {
    if n == 0 then 1 else 10 * Pow10(n - 1)
  }

  predicate AllDigits(s: string) {
    forall c :: c in s ==> Digit(c)
  }

  lemma NumberMore(s: string, c: char)
    requires AllDigits(s) && Digit(c)
    ensures AllDigits(s + [c]) && Number(s + [c]) == 10 * Number(s) + (c as int - '0' as int)
  {
    assert (s + [c])[..|s|] == s;
  }

  lemma NumberOfNothing()
    ensures Number("") == 0
  {
  }

  /** Reading digits is positional. */
  lemma {:induction false} NumberIsPositional(s: string, t: string)
    requires AllDigits(s) && AllDigits(t)
    ensures AllDigits(s + t) && Number(s + t) == Number(s) * Pow10(|t|) + Number(t)
    decreases |t|
  {
    hide Number, Digit;
    if t == "" {
      NumberOfNothing();
      assert s + t == s;
    } else {
      var front, c := t[..|t| - 1], t[|t| - 1];
      assert forall x :: x in front ==> x in t;
      NumberIsPositional(s, front);
      NumberMore(s + front, c);
      NumberMore(front, c);
      assert s + t == s + front + [c] && t == front + [c];
      assert Number(s) * Pow10(|t|) == 10 * (Number(s) * Pow10(|front|));
    }
  }

  /** And each digit counts what it shows. */
  lemma NumberOfDigit(c: char)
    requires Digit(c)
    ensures Number([c]) == c as int - '0' as int
  {
    NumberOfNothing();
    NumberMore("", c);
    assert "" + [c] == [c];
  }

  /** Printed numbers have no leading zero. */
  lemma {:induction false} DecimalIsPlain(n: nat)
    ensures n > 0 ==> Decimal(n)[0] != '0'
    ensures n < 10 ==> |Decimal(n)| == 1
  {
    if n >= 10 {
      DecimalIsPlain(n / 10);
    }
  }
}
