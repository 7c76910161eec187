/** What clients get: every configured endpoint once, TURN endpoints with the secret configured for them. */
module IceFacts {
  import opened IceEndpoint
  import opened Options
  import opened IceServers
  import Orders

  function AllUrls(servers: seq<Server>): seq<string> {
    if servers == [] then [] else AllUrls(servers[..|servers| - 1]) + servers[|servers| - 1].urls
  }

  predicate IsTurnUrl(url: string) {
    "turn:" <= url
  }

  function CountUrls(urls: seq<string>, turn: bool): nat {
    if urls == [] then 0
    else CountUrls(urls[..|urls| - 1], turn) + if IsTurnUrl(urls[|urls| - 1]) == turn then 1 else 0
  }

  lemma AllUrlsStep(servers: seq<Server>, s: Server)
    ensures AllUrls(servers + [s]) == AllUrls(servers) + s.urls
  {
    assert (servers + [s])[..|servers|] == servers;
  }

  lemma PrintAllAppend(a: seq<Endpoint>, b: seq<Endpoint>)
    ensures PrintAll(a + b) == PrintAll(a) + PrintAll(b)
  {
    hide Print;
  }

  /** The URLs of all entries, one after the other, are the configured endpoints in the order of their first mention. */
  lemma {:induction false} IssuedUrls(entries: seq<Entry>, d: string)
    ensures AllUrls(ServersFor(entries, d)) == PrintAll(FirstSeen(Uses(Items(entries, d))))
    decreases |entries|
  {
    hide PrintAll, FirstSeen, Uses, ItemsOf, CredentialsFor;
    if entries == [] {
      Nothing(d);
    } else {
      var front, e := entries[..|entries| - 1], entries[|entries| - 1];
      var before, own := Uses(Items(front, d)), Uses(ItemsOf(e, d));
      IssuedUrls(front, d);
      UsesAppend(Items(front, d), ItemsOf(e, d));
      FirstSeenGrows(before, own);
      assert FirstSeen(before + own) == FirstSeen(before) + Added(before, own);
      PrintAllAppend(FirstSeen(before), Added(before, own));
      var secret := if SecretOf(e, d).Some? then SecretOf(e, d).value else "";
      ServerUrls(ServersFor(front, d), Added(before, own), secret);
    }
  }

  lemma Nothing(d: string)
    ensures AllUrls(ServersFor([], d)) == [] == PrintAll(FirstSeen(Uses(Items([], d))))
  {
  }

  lemma ServerUrls(servers: seq<Server>, added: seq<Endpoint>, secret: string)
    ensures AllUrls(servers + ServerOf(added, secret)) == AllUrls(servers) + PrintAll(added)
  {
    hide CredentialsFor, Print;
    if added == [] {
      assert servers + [] == servers;
      assert AllUrls(servers) + PrintAll(added) == AllUrls(servers);
    } else {
      AllUrlsStep(servers, Server(PrintAll(added), CredentialsFor(added, secret)));
    }
  }

  lemma CountUrlsStep(urls: seq<string>, url: string, turn: bool)
    ensures CountUrls(urls + [url], turn) == CountUrls(urls, turn) + if IsTurnUrl(url) == turn then 1 else 0
  {
    hide IsTurnUrl;
    assert (urls + [url])[..|urls|] == urls;
  }

  lemma {:induction false} CountPrinted(es: seq<Endpoint>, turn: bool)
    ensures CountUrls(PrintAll(es), turn) == Count(es, turn)
  {
    hide Print, PrintAll, CountUrls, IsTurnUrl;
    if es == [] {
      NonePrinted(turn);
    } else {
      var front, e := es[..|es| - 1], es[|es| - 1];
      CountPrinted(front, turn);
      assert es == front + [e];
      PrintAllStep(front, e);
      CountUrlsStep(PrintAll(front), Print(e), turn);
      TurnShows(e);
    }
  }

  lemma NonePrinted(turn: bool)
    ensures CountUrls(PrintAll([]), turn) == 0
  {
  }

  lemma TurnShows(e: Endpoint)
    ensures IsTurnUrl(Print(e)) == e.turn
  {
    hide Print;
    SchemeShows(e);
  }

  lemma DistinctPrinted(es: seq<Endpoint>)
    requires Orders.Distinct(es) && forall i :: 0 <= i < |es| ==> Canonical(es[i])
    ensures Orders.Distinct(PrintAll(es))
  {
    hide Print, Canonical;
    forall i, j | 0 <= i < j < |es|
      ensures PrintAll(es)[i] != PrintAll(es)[j]
    {
      SameTextIff(es[i], es[j]);
    }
  }

  lemma FirstSeenIsCanonical(items: seq<Item>)
    ensures forall i :: 0 <= i < |FirstSeen(Uses(items))| ==> Canonical(FirstSeen(Uses(items))[i])
  {
    hide Canonical, FirstSeen, Uses;
    var es, us := FirstSeen(Uses(items)), Uses(items);
    FirstSeenMembers(us);
    UsesAreCanonical(items);
    forall i | 0 <= i < |es|
      ensures Canonical(es[i])
    {
      assert es[i] in es;
      var j :| 0 <= j < |us| && us[j].endpoint == es[i];
    }
  }

  /** No URL is issued twice, in one entry or across entries; at most 8 of each kind are issued; and each is its own
      canonical form, so a client that reads it gets the endpoint it was issued for. */
  lemma IssuedAreDistinct(c: Config)
    requires Acceptable(c)
    ensures var urls := AllUrls(ServersFor(c.servers.value, c.defaultSecret));
            && Orders.Distinct(urls)
            && CountUrls(urls, true) <= MAX_PER_KIND && CountUrls(urls, false) <= MAX_PER_KIND
            && (forall i :: 0 <= i < |urls| ==> Parse(urls[i]).Some? && Print(Parse(urls[i]).value) == urls[i])
  {
    var entries, d := c.servers.value, c.defaultSecret;
    var es := FirstSeen(Uses(Items(entries, d)));
    hide Print, Canonical, Parse, Count, FirstSeen, Uses, Items, ServersFor, CountUrls, AllUrls, ShapeOk;
    IssuedUrls(entries, d);
    FirstSeenMembers(Uses(Items(entries, d)));
    FirstSeenIsCanonical(Items(entries, d));
    DistinctPrinted(es);
    CountPrinted(es, true);
    CountPrinted(es, false);
    forall i | 0 <= i < |es|
      ensures Parse(PrintAll(es)[i]) == Some(es[i])
    {
      PrintParses(es[i]);
    }
  }

  // ---- credentials ------------------------------------------------------------------------

  predicate FirstTurnUrlAt(urls: seq<string>, k: nat) {
    k < |urls| && IsTurnUrl(urls[k]) && forall j :: 0 <= j < k ==> !IsTurnUrl(urls[j])
  }

  /** What a client can rely on in one entry: it lists something; it has credentials exactly when it lists a TURN URL;
      and their host and port are those of its first TURN URL. */
  ghost predicate ServerOk(s: Server) {
    && s.urls != []
    && (s.credentials.Some? <==> exists k: nat :: FirstTurnUrlAt(s.urls, k))
    && (forall k: nat :: FirstTurnUrlAt(s.urls, k) ==>
          && s.credentials.Some? && Parse(s.urls[k]).Some?
          && s.credentials.value.host == Unbracket(Parse(s.urls[k]).value.host)
          && s.credentials.value.port == Parse(s.urls[k]).value.port)
  }

  lemma {:induction false} FirstTurnFound(es: seq<Endpoint>)
    ensures FirstTurn(es).Some? <==> exists k :: 0 <= k < |es| && es[k].turn
  {
    if es != [] {
      var front := es[..|es| - 1];
      FirstTurnFound(front);
      if k :| 0 <= k < |front| && front[k].turn {
        assert es[k].turn;
      }
    }
  }

  lemma {:induction false} FirstTurnAt(es: seq<Endpoint>, k: nat)
    requires k < |es| && es[k].turn && forall j :: 0 <= j < k ==> !es[j].turn
    ensures FirstTurn(es) == Some(es[k])
    decreases |es|
  {
    var front := es[..|es| - 1];
    if k < |front| {
      FirstTurnAt(front, k);
    } else {
      FirstTurnFound(front);
      assert forall j :: 0 <= j < |front| ==> front[j] == es[j];
    }
  }

  lemma {:induction false} LeastTurn(es: seq<Endpoint>, k: nat) returns (m: nat)
    requires k < |es| && es[k].turn
    ensures m <= k && es[m].turn && forall j :: 0 <= j < m ==> !es[j].turn
  {
    if j :| 0 <= j < k && es[j].turn {
      m := LeastTurn(es, j);
    } else {
      m := k;
    }
  }

  /** The first TURN URL printed is that of the first TURN endpoint. */
  lemma FirstTurnPrinted(es: seq<Endpoint>, k: nat)
    requires FirstTurnUrlAt(PrintAll(es), k)
    ensures FirstTurn(es) == Some(es[k])
  {
    hide Print, FirstTurn, IsTurnUrl;
    forall i | 0 <= i <= k
      ensures es[i].turn == IsTurnUrl(PrintAll(es)[i])
    {
      TurnShows(es[i]);
    }
    FirstTurnAt(es, k);
  }

  lemma TurnIsPrinted(es: seq<Endpoint>)
    requires FirstTurn(es).Some?
    ensures exists k: nat :: FirstTurnUrlAt(PrintAll(es), k)
  {
    hide Print, FirstTurn, IsTurnUrl;
    FirstTurnFound(es);
    var k :| 0 <= k < |es| && es[k].turn;
    var m := LeastTurn(es, k);
    forall i | 0 <= i <= m
      ensures es[i].turn == IsTurnUrl(PrintAll(es)[i])
    {
      TurnShows(es[i]);
    }
    assert FirstTurnUrlAt(PrintAll(es), m);
  }

  lemma NewServerOk(added: seq<Endpoint>, secret: string)
    requires added != [] && forall i :: 0 <= i < |added| ==> Canonical(added[i])
    ensures ServerOk(Server(PrintAll(added), CredentialsFor(added, secret)))
  {
    hide Print, Canonical, Parse, FirstTurn, Unbracket, FirstTurnUrlAt;
    var urls := PrintAll(added);
    if FirstTurn(added).Some? {
      TurnIsPrinted(added);
    }
    forall k: nat | FirstTurnUrlAt(urls, k)
      ensures k < |added| && FirstTurn(added) == Some(added[k]) && Parse(urls[k]) == Some(added[k])
    {
      FirstUrlIsOne(urls, k);
      FirstTurnPrinted(added, k);
      PrintParses(added[k]);
    }
  }

  lemma FirstUrlIsOne(urls: seq<string>, k: nat)
    requires FirstTurnUrlAt(urls, k)
    ensures k < |urls|
  {
  }

  /** Every issued entry is in order. */
  lemma {:induction false} EveryServerIsOk(entries: seq<Entry>, d: string)
    ensures forall k :: 0 <= k < |ServersFor(entries, d)| ==> ServerOk(ServersFor(entries, d)[k])
    decreases |entries|
  {
    if entries != [] {
      var front, e := entries[..|entries| - 1], entries[|entries| - 1];
      var added := Added(Uses(Items(front, d)), Uses(ItemsOf(e, d)));
      EveryServerIsOk(front, d);
      AddedIsCanonical(Items(front, d), ItemsOf(e, d));
      hide Added, Canonical, CredentialsFor, ServerOk, Uses, Items;
      if added != [] {
        assert forall i :: 0 <= i < |added| ==> added[i] in added;
        NewServerOk(added, if SecretOf(e, d).Some? then SecretOf(e, d).value else "");
      }
    }
  }

  // ---- secrets ----------------------------------------------------------------------------

  predicate ServedBy(s: Server, u: Use) {
    Print(u.endpoint) in s.urls
    && (u.endpoint.turn ==> s.credentials.Some? && s.credentials.value.secret == u.secret)
  }

  predicate Served(servers: seq<Server>, u: Use) {
    exists k :: 0 <= k < |servers| && ServedBy(servers[k], u)
  }

  lemma ServedMore(servers: seq<Server>, more: seq<Server>, u: Use)
    requires Served(servers, u)
    ensures Served(servers + more, u)
  {
    hide ServedBy;
    var k :| 0 <= k < |servers| && ServedBy(servers[k], u);
    assert (servers + more)[k] == servers[k];
  }

  lemma NewlyServed(servers: seq<Server>, added: seq<Endpoint>, u: Use)
    requires u.endpoint in added
    ensures Served(servers + ServerOf(added, u.secret), u)
  {
    var s := Server(PrintAll(added), CredentialsFor(added, u.secret));
    assert ServedBy(s, u) by {
      FirstTurnIs(added);
      hide Print, FirstTurn;
      var i :| 0 <= i < |added| && added[i] == u.endpoint;
      assert PrintAll(added)[i] == Print(u.endpoint);
    }
    hide ServedBy, CredentialsFor, PrintAll;
    assert (servers + ServerOf(added, u.secret))[|servers|] == s;
  }

  lemma SameUseServed(s: seq<Server>, u: Use, v: Use)
    requires Served(s, u) && u.endpoint == v.endpoint && (u.endpoint.turn ==> u.secret == v.secret)
    ensures Served(s, v)
  {
    var k :| 0 <= k < |s| && ServedBy(s[k], u);
    hide Print;
    assert ServedBy(s[k], v);
  }

  lemma OldOrAdded(before: seq<Use>, own: seq<Use>, i: nat)
    requires i < |own|
    ensures own[i].endpoint in FirstSeen(before) || own[i].endpoint in Added(before, own)
  {
    hide FirstSeen;
    FirstSeenGrows(before, own);
    FirstSeenMembers(before + own);
    var all := before + own;
    assert all[|before| + i] == own[i];
    assert own[i].endpoint in FirstSeen(all);
    assert FirstSeen(all) == FirstSeen(before) + Added(before, own);
  }

  lemma EntryServed(before: seq<Use>, own: seq<Use>, was: seq<Server>, secret: string, i: nat)
    requires Agree(before + own) && i < |own| && own[i].secret == secret
    requires forall j :: 0 <= j < |before| ==> Served(was, before[j])
    ensures Served(was + ServerOf(Added(before, own), secret), own[i])
  {
    hide FirstSeen, Added, ServerOf, Served;
    var u := own[i];
    OldOrAdded(before, own, i);
    if u.endpoint in FirstSeen(before) {
      FirstSeenMembers(before);
      var j :| 0 <= j < |before| && before[j].endpoint == u.endpoint;
      assert (before + own)[j] == before[j] && (before + own)[|before| + i] == u;
      ServedMore(was, ServerOf(Added(before, own), secret), before[j]);
      SameUseServed(was + ServerOf(Added(before, own), secret), before[j], u);
    } else {
      NewlyServed(was, Added(before, own), u);
    }
  }

  lemma EntriesServed(before: seq<Use>, own: seq<Use>, was: seq<Server>, secret: string)
    requires Agree(before + own) && forall i :: 0 <= i < |own| ==> own[i].secret == secret
    requires forall j :: 0 <= j < |before| ==> Served(was, before[j])
    ensures forall i :: 0 <= i < |before + own| ==> Served(was + ServerOf(Added(before, own), secret),
        (before + own)[i])
  {
    hide Added, ServerOf, Served, Agree;
    forall i | 0 <= i < |before + own|
      ensures Served(was + ServerOf(Added(before, own), secret), (before + own)[i])
    {
      if i < |before| {
        ServedMore(was, ServerOf(Added(before, own), secret), before[i]);
      } else {
        EntryServed(before, own, was, secret, i - |before|);
      }
    }
  }

  lemma {:induction false} EveryUseIsServed(entries: seq<Entry>, d: string)
    requires Agree(Uses(Items(entries, d)))
    ensures forall i :: 0 <= i < |Uses(Items(entries, d))| ==> Served(ServersFor(entries, d), Uses(Items(entries,
        d))[i])
    decreases |entries|
  {
    hide Uses, ItemsOf, ServerOf, Added, Served, SecretOf, Agree;
    if entries == [] {
      NoUses();
    } else {
      var front, e := entries[..|entries| - 1], entries[|entries| - 1];
      var secret := if SecretOf(e, d).Some? then SecretOf(e, d).value else "";
      var before, own := Uses(Items(front, d)), Uses(ItemsOf(e, d));
      UsesAppend(Items(front, d), ItemsOf(e, d));
      OwnSecret(e, d, secret);
      AgreePrefix(before, before + own);
      EveryUseIsServed(front, d);
      EntriesServed(before, own, ServersFor(front, d), secret);
    }
  }

  /** Every configured URL is issued, in canonical form, and a TURN URL in an entry whose credentials use the secret
      configured with it, wherever in the configuration it was repeated. */
  lemma ServedWithItsSecret(c: Config, n: nat, k: nat)
    requires Acceptable(c) && n < |c.servers.value| && k < |ValuesOf(c.servers.value[n])|
    ensures var value := ValuesOf(c.servers.value[n])[k];
            && SecretOf(c.servers.value[n], c.defaultSecret).Some? && value.Str? && Parse(value.text).Some?
            && Served(ServersFor(c.servers.value, c.defaultSecret),
                      Use(Parse(value.text).value, SecretOf(c.servers.value[n], c.defaultSecret).value))
  {
    hide Uses, Items, ItemsOf, ServersFor, Served, Parse, FirstSeen, Count, Agree, UseOf;
    var entries, d := c.servers.value, c.defaultSecret;
    var items, own := Items(entries, d), ItemsOf(entries[n], d);
    assert ShapeOk(entries[n], d);
    OwnItems(entries[n], d);
    ItemsStep(entries, d, n);
    ItemsPrefix(entries, d, n + 1);
    EveryUseIsServed(entries, d);
    var i := |Items(entries[..n], d)| + k;
    assert items[i] == Items(entries[..n + 1], d)[i] == own[k];
    UsesOfGood(items, i);
    UseIs(own[k]);
  }

  lemma UseIs(it: Item)
    requires UseOf(it).Some?
    ensures it.value.Str? && Parse(it.value.text).Some? && UseOf(it).value == Use(Parse(it.value.text).value, it.secret)
  {
    hide Parse;
  }

  lemma {:induction false} UsesOfGood(items: seq<Item>, i: nat)
    requires i < |items| && forall j :: 0 <= j < |items| ==> UseOf(items[j]).Some?
    ensures |Uses(items)| == |items| && Uses(items)[i] == UseOf(items[i]).value
    decreases |items|
  {
    hide UseOf;
    var front := items[..|items| - 1];
    if front == [] {
      assert Uses(front) == [];
    } else {
      UsesOfGood(front, if i < |front| then i else 0);
    }
  }

  // ---- what credentials are made from -------------------------------------------------------

  /** What the credential issuer's constructor asks for. */
  predicate Usable(c: Credentials) {
    0 < |c.secret| <= MAX_SECRET && c.host != "" && c.port > 0
  }

  lemma {:induction false} TurnUsesHaveSecrets(items: seq<Item>)
    ensures forall i :: 0 <= i < |Uses(items)| && Uses(items)[i].endpoint.turn ==> Uses(items)[i].secret != ""
  {
    hide Parse;
    if items != [] {
      TurnUsesHaveSecrets(items[..|items| - 1]);
    }
  }

  lemma OneIsUsable(before: seq<Use>, own: seq<Use>, secret: string)
    requires forall e :: e in Added(before, own) ==> Canonical(e)
    requires forall i :: 0 <= i < |own| ==>
               own[i].secret == secret && (own[i].endpoint.turn ==> 0 < |secret| <= MAX_SECRET)
    ensures forall s :: s in ServerOf(Added(before, own), secret) && s.credentials.Some? ==> Usable(s.credentials.value)
  {
    hide FirstSeen, FirstTurn, Canonical, Unbracket;
    FirstSeenGrows(before, own);
    var added := Added(before, own);
    assert FirstSeen(before + own) == FirstSeen(before) + added;
    if FirstTurn(added).Some? {
      var u := SigningUse(before, own, added);
      FirstTurnIs(added);
      HostHasName(FirstTurn(added).value);
    }
  }

  lemma {:induction false} UsableSoFar(entries: seq<Entry>, d: string)
    requires SecretsFit(Uses(Items(entries, d)))
    ensures forall s :: s in ServersFor(entries, d) && s.credentials.Some? ==> Usable(s.credentials.value)
    decreases |entries|
  {
    hide Uses, ItemsOf, ServerOf, Added, Usable, SecretOf, Canonical;
    if entries != [] {
      var front, e := entries[..|entries| - 1], entries[|entries| - 1];
      var secret := if SecretOf(e, d).Some? then SecretOf(e, d).value else "";
      var before, own := Uses(Items(front, d)), Uses(ItemsOf(e, d));
      UsesAppend(Items(front, d), ItemsOf(e, d));
      OwnSecret(e, d, secret);
      TurnUsesHaveSecrets(ItemsOf(e, d));
      AddedIsCanonical(Items(front, d), ItemsOf(e, d));
      SecretsFitPart(before, own);
      UsableSoFar(front, d);
      OneIsUsable(before, own, secret);
    }
  }

  lemma SecretsFitPart(a: seq<Use>, b: seq<Use>)
    requires SecretsFit(a + b)
    ensures SecretsFit(a) && SecretsFit(b)
  {
    assert forall i :: 0 <= i < |a| ==> (a + b)[i] == a[i];
    assert forall i :: 0 <= i < |b| ==> (a + b)[|a| + i] == b[i];
  }

  /** Every issued entry's credentials meet what making credentials asks for, so that never fails after acceptance. */
  lemma CredentialsAreUsable(c: Config)
    requires Acceptable(c)
    ensures forall s :: s in ServersFor(c.servers.value, c.defaultSecret) && s.credentials.Some? ==>
              Usable(s.credentials.value)
  {
    hide Items, Uses, ServersFor, ItemsOk, ShapeOk, Usable;
    UsableSoFar(c.servers.value, c.defaultSecret);
  }
}
