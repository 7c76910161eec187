/** The ICE servers handed to clients: reading, de-duplicating and crediting the configured endpoints. */
module IceServers {
  import opened IceEndpoint
  import opened Options
  import Orders

  const MAX_ENTRIES := 16
  const MAX_URLS := 32
  const MAX_PER_KIND := 8
  const MIN_TTL := 60
  const MAX_TTL := 86400
  const MAX_SECRET := 0x7fff_ffff

  // ---- the configuration as JSON gives it -------------------------------------------------

  datatype Value = Str(text: string) | NotStr

  datatype Urls = Missing | One(url: string) | Many(values: seq<Value>) | Malformed

  datatype SharedSecret = Unset | Secret(text: string) | NotAString

  datatype Entry = Entry(urls: Urls, secret: SharedSecret) | NotAnObject

  datatype Config = Config(servers: Option<seq<Entry>>, defaultSecret: string, ttl: nat)

  datatype Credentials = Credentials(secret: string, host: string, port: nat)

  datatype Server = Server(urls: seq<string>, credentials: Option<Credentials>)

  /** The constructor throws on everything it does not accept. */
  datatype Outcome = Accepted(servers: seq<Server>) | Rejected

  function ValuesOf(e: Entry): seq<Value> {
    if e.NotAnObject? then []
    else match e.urls
      case One(url) => [Str(url)]
      case Many(values) => values
      case _ => []
  }

  function SecretOf(e: Entry, defaultSecret: string): Option<string> {
    if e.NotAnObject? || e.secret.NotAString? then None
    else if e.secret.Unset? then Some(defaultSecret) else Some(e.secret.text)
  }

  predicate ShapeOk(e: Entry, d: string) {
    ValuesOf(e) != [] && SecretOf(e, d).Some?
  }

  /** One configured URL with the secret of its entry. */
  datatype Item = Item(value: Value, secret: string)

  /** One configured endpoint with the secret of its entry. */
  datatype Use = Use(endpoint: Endpoint, secret: string)

  function ItemsOf(e: Entry, d: string): seq<Item> {
    if SecretOf(e, d).None? then []
    else seq(|ValuesOf(e)|, i requires 0 <= i < |ValuesOf(e)| => Item(ValuesOf(e)[i], SecretOf(e, d).value))
  }

  /** All configured URLs, in order. */
  function Items(entries: seq<Entry>, d: string): seq<Item> {
    if entries == [] then [] else Items(entries[..|entries| - 1], d) + ItemsOf(entries[|entries| - 1], d)
  }

  function UseOf(it: Item): Option<Use> {
    if it.value.NotStr? then None
    else
      var e := Parse(it.value.text);
      if e.None? || (e.value.turn && it.secret == "") then None else Some(Use(e.value, it.secret))
  }

  function Uses(items: seq<Item>): seq<Use> {
    if items == [] then []
    else
      var u := UseOf(items[|items| - 1]);
      Uses(items[..|items| - 1]) + if u.Some? then [u.value] else []
  }

  /** The endpoints used, each where it occurs first. */
  function FirstSeen(us: seq<Use>): seq<Endpoint> {
    if us == [] then []
    else
      var front, e := FirstSeen(us[..|us| - 1]), us[|us| - 1].endpoint;
      if e in front then front else front + [e]
  }

  function Count(es: seq<Endpoint>, turn: bool): nat {
    if es == [] then 0 else Count(es[..|es| - 1], turn) + if es[|es| - 1].turn == turn then 1 else 0
  }

  /** No TURN endpoint is configured with two different secrets. */
  predicate Agree(us: seq<Use>) {
    forall i, j :: 0 <= i < |us| && 0 <= j < |us| && us[i].endpoint == us[j].endpoint && us[i].endpoint.turn
                   ==> us[i].secret == us[j].secret
  }

  predicate ItemsOk(items: seq<Item>) {
    && |items| <= MAX_URLS
    && (forall i :: 0 <= i < |items| ==> UseOf(items[i]).Some?)
    && Agree(Uses(items))
    && Count(FirstSeen(Uses(items)), true) <= MAX_PER_KIND
    && Count(FirstSeen(Uses(items)), false) <= MAX_PER_KIND
  }

  /** No secret is too long to sign with; entries without a TURN endpoint do not sign. */
  predicate SecretsFit(us: seq<Use>) {
    forall i :: 0 <= i < |us| && us[i].endpoint.turn ==> |us[i].secret| <= MAX_SECRET
  }

  /** The configurations the server starts with. */
  predicate Acceptable(c: Config) {
    && c.servers.Some? && |c.servers.value| <= MAX_ENTRIES && MIN_TTL <= c.ttl <= MAX_TTL
    && (forall i :: 0 <= i < |c.servers.value| ==> ShapeOk(c.servers.value[i], c.defaultSecret))
    && ItemsOk(Items(c.servers.value, c.defaultSecret))
    && SecretsFit(Uses(Items(c.servers.value, c.defaultSecret)))
  }

  // ---- what is issued ---------------------------------------------------------------------

  function PrintAll(es: seq<Endpoint>): seq<string> {
    seq(|es|, i requires 0 <= i < |es| => Print(es[i]))
  }

  function FirstTurn(es: seq<Endpoint>): Option<Endpoint> {
    if es == [] then None
    else
      var front, e := FirstTurn(es[..|es| - 1]), es[|es| - 1];
      if front.Some? || !e.turn then front else Some(e)
  }

  /** The host without the brackets of an address. */
  function Unbracket(h: string): string {
    if |h| >= 2 && h[0] == '[' then h[1..|h| - 1] else h
  }

  function CredentialsFor(added: seq<Endpoint>, secret: string): Option<Credentials> {
    var t := FirstTurn(added);
    if t.None? then None else Some(Credentials(secret, Unbracket(t.value.host), t.value.port))
  }

  /** The endpoints an entry adds to those used before it. */
  function Added(before: seq<Use>, own: seq<Use>): seq<Endpoint> {
    FirstSeenGrows(before, own);
    FirstSeen(before + own)[|FirstSeen(before)|..]
  }

  function ServerOf(added: seq<Endpoint>, secret: string): seq<Server> {
    if added == [] then [] else [Server(PrintAll(added), CredentialsFor(added, secret))]
  }

  function ServersFor(entries: seq<Entry>, d: string): seq<Server> {
    if entries == [] then []
    else
      var front, e := entries[..|entries| - 1], entries[|entries| - 1];
      ServersFor(front, d)
      + ServerOf(Added(Uses(Items(front, d)), Uses(ItemsOf(e, d))), if SecretOf(e, d).Some? then SecretOf(e, d).value
      else "")
  }

  // ---- facts about lists of uses ----------------------------------------------------------

  lemma {:induction false} FirstTurnIs(es: seq<Endpoint>)
    ensures var t := FirstTurn(es);
            (t.Some? ==> t.value in es && t.value.turn) && (t.Some? <==> exists e :: e in es && e.turn)
  {
    if es != [] {
      FirstTurnIs(es[..|es| - 1]);
      Orders.SplitLast(es);
    }
  }

  lemma FirstSeenStep(us: seq<Use>, u: Use)
    ensures FirstSeen(us + [u]) == if u.endpoint in FirstSeen(us) then FirstSeen(us) else FirstSeen(us) + [u.endpoint]
  {
    assert (us + [u])[..|us|] == us;
  }

  lemma {:induction false} FirstSeenGrows(a: seq<Use>, b: seq<Use>)
    ensures FirstSeen(a) <= FirstSeen(a + b)
    decreases |b|
  {
    if b == [] {
      assert a + b == a;
    } else {
      var front, u := b[..|b| - 1], b[|b| - 1];
      FirstSeenGrows(a, front);
      FirstSeenStep(a + front, u);
      assert a + b == a + front + [u];
    }
  }

  lemma {:induction false} FirstSeenMembers(us: seq<Use>)
    ensures forall e :: e in FirstSeen(us) <==> exists i :: 0 <= i < |us| && us[i].endpoint == e
    ensures Orders.Distinct(FirstSeen(us))
  {
    if us != [] {
      var front := us[..|us| - 1];
      FirstSeenMembers(front);
      forall e
        ensures e in FirstSeen(us) <==> exists i :: 0 <= i < |us| && us[i].endpoint == e
      {
        if exists i :: 0 <= i < |us| && us[i].endpoint == e {
          var i :| 0 <= i < |us| && us[i].endpoint == e;
          if i < |front| {
            assert front[i].endpoint == e;
          }
        }
        if e in FirstSeen(front) {
          var i :| 0 <= i < |front| && front[i].endpoint == e;
          assert us[i].endpoint == e;
        }
      }
    }
  }

  lemma {:induction false} CountGrows(a: seq<Endpoint>, b: seq<Endpoint>, turn: bool)
    requires a <= b
    ensures Count(a, turn) <= Count(b, turn)
    decreases |b|
  {
    if |a| < |b| {
      CountGrows(a, b[..|b| - 1], turn);
    } else {
      assert a == b;
    }
  }

  lemma UsesStep(items: seq<Item>, it: Item)
    ensures Uses(items + [it]) == Uses(items) + if UseOf(it).Some? then [UseOf(it).value] else []
  {
    assert (items + [it])[..|items|] == items;
  }

  lemma {:induction false} UsesAppend(a: seq<Item>, b: seq<Item>)
    ensures Uses(a + b) == Uses(a) + Uses(b)
    decreases |b|
  {
    hide UseOf, Uses;
    if b == [] {
      assert a + b == a;
      NoUses();
    } else {
      var front, it := b[..|b| - 1], b[|b| - 1];
      var one := if UseOf(it).Some? then [UseOf(it).value] else [];
      UsesAppend(a, front);
      UsesStep(a + front, it);
      UsesStep(front, it);
      Orders.SplitLast(b);
      Orders.Concat(a, front, [it]);
      Orders.Concat(Uses(a), Uses(front), one);
    }
  }

  lemma NoUses()
    ensures Uses([]) == []
  {
  }

  lemma {:induction false} UsesAreCanonical(items: seq<Item>)
    ensures forall i :: 0 <= i < |Uses(items)| ==> Canonical(Uses(items)[i].endpoint)
  {
    if items != [] {
      UsesAreCanonical(items[..|items| - 1]);
      var it := items[|items| - 1];
      if UseOf(it).Some? {
        ParsedIsCanonical(it.value.text);
      }
    }
  }

  lemma AddedIsCanonical(before: seq<Item>, own: seq<Item>)
    ensures forall e :: e in Added(Uses(before), Uses(own)) ==> Canonical(e)
  {
    var all := Uses(before) + Uses(own);
    UsesAppend(before, own);
    UsesAreCanonical(before + own);
    FirstSeenMembers(all);
    FirstSeenGrows(Uses(before), Uses(own));
    forall e | e in Added(Uses(before), Uses(own))
      ensures Canonical(e)
    {
      assert e in FirstSeen(all);
      var i :| 0 <= i < |all| && all[i].endpoint == e;
    }
  }

  lemma AgreePrefix(us: seq<Use>, all: seq<Use>)
    requires us <= all && Agree(all)
    ensures Agree(us)
  {
  }

  /** What is wrong with the URLs so far stays wrong. */
  lemma PrefixOk(items: seq<Item>, all: seq<Item>)
    requires items <= all && ItemsOk(all)
    ensures ItemsOk(items)
  {
    hide UseOf, Uses, FirstSeen, Count;
    var rest := all[|items|..];
    assert all == items + rest;
    UsesAppend(items, rest);
    var us := Uses(items);
    AgreePrefix(us, Uses(all));
    hide Agree;
    assert forall i :: 0 <= i < |items| ==> all[i] == items[i];
    FirstSeenGrows(us, Uses(rest));
    CountGrows(FirstSeen(us), FirstSeen(Uses(all)), true);
    CountGrows(FirstSeen(us), FirstSeen(Uses(all)), false);
  }

  lemma {:induction false} ItemsPrefix(entries: seq<Entry>, d: string, n: nat)
    requires n <= |entries|
    ensures Items(entries[..n], d) <= Items(entries, d)
    decreases |entries|
  {
    if n < |entries| {
      var front := entries[..|entries| - 1];
      assert entries[..n] == front[..n];
      ItemsPrefix(front, d, n);
    } else {
      assert entries[..n] == entries;
    }
  }

  lemma ItemsStep(entries: seq<Entry>, d: string, n: nat)
    requires n < |entries|
    ensures Items(entries[..n + 1], d) == Items(entries[..n], d) + ItemsOf(entries[n], d)
  {
    assert entries[..n + 1][..n] == entries[..n];
  }

  /** One bad URL, and the configuration is bad. */
  lemma BadItemsRefused(c: Config, n: nat, k: nat)
    requires c.servers.Some? && n < |c.servers.value| && k <= |ItemsOf(c.servers.value[n], c.defaultSecret)|
    requires !ItemsOk(Items(c.servers.value[..n], c.defaultSecret) + ItemsOf(c.servers.value[n], c.defaultSecret)[..k])
    ensures !Acceptable(c)
  {
    hide Items, ItemsOk, ItemsOf, ShapeOk;
    var entries, d := c.servers.value, c.defaultSecret;
    var own := ItemsOf(entries[n], d);
    ItemsStep(entries, d, n);
    ItemsPrefix(entries, d, n + 1);
    if ItemsOk(Items(entries, d)) {
      PrefixOk(Items(entries[..n], d) + own[..k], Items(entries, d));
    }
  }

  // ---- the issuer's books -----------------------------------------------------------------

  function Key(u: Use): string {
    if u.endpoint.turn then u.secret else ""
  }

  predicate Entered(seen: map<string, string>, u: Use) {
    Print(u.endpoint) in seen && seen[Print(u.endpoint)] == Key(u)
  }

  predicate ComesFrom(text: string, us: seq<Use>) {
    exists i :: 0 <= i < |us| && Print(us[i].endpoint) == text
  }

  predicate AllCanonical(us: seq<Use>) {
    forall i :: 0 <= i < |us| ==> Canonical(us[i].endpoint)
  }

  /** `seen` and the two counters describe the endpoints used so far. */
  ghost predicate Books(done: seq<Use>, seen: map<string, string>, turns: nat, stuns: nat) {
    && AllCanonical(done)
    && (forall i :: 0 <= i < |done| ==> Entered(seen, done[i]))
    && (forall text :: text in seen ==> ComesFrom(text, done))
    && turns == Count(FirstSeen(done), true) && stuns == Count(FirstSeen(done), false)
  }

  lemma ComesFromMore(text: string, us: seq<Use>, u: Use)
    ensures ComesFrom(text, us + [u]) <==> ComesFrom(text, us) || Print(u.endpoint) == text
  {
    var all := us + [u];
    assert all[|us|] == u;
    if ComesFrom(text, us) {
      var i :| 0 <= i < |us| && Print(us[i].endpoint) == text;
      assert all[i] == us[i];
    }
    if i :| 0 <= i < |all| && Print(all[i].endpoint) == text && i < |us| {
      assert all[i] == us[i];
    }
  }

  lemma SeenIff(done: seq<Use>, seen: map<string, string>, turns: nat, stuns: nat, e: Endpoint)
    requires Books(done, seen, turns, stuns) && Canonical(e)
    ensures Print(e) in seen <==> e in FirstSeen(done)
    ensures Print(e) in seen ==> exists i :: 0 <= i < |done| && done[i].endpoint == e && seen[Print(e)] == Key(done[i])
  {
    hide Print, Canonical, Count, FirstSeen;
    FirstSeenMembers(done);
    if Print(e) in seen {
      assert ComesFrom(Print(e), done);
      var i :| 0 <= i < |done| && Print(done[i].endpoint) == Print(e);
      SameTextIff(done[i].endpoint, e);
      assert Entered(seen, done[i]);
    }
    if e in FirstSeen(done) {
      var i :| 0 <= i < |done| && done[i].endpoint == e;
      assert Entered(seen, done[i]);
    }
  }

  lemma AllEntered(done: seq<Use>, seen: map<string, string>, u: Use)
    requires forall i :: 0 <= i < |done| ==> Entered(seen, done[i])
    requires Entered(seen, u)
    ensures forall i :: 0 <= i < |done + [u]| ==> Entered(seen, (done + [u])[i])
  {
    hide Entered;
  }

  lemma AllCanonicalStep(done: seq<Use>, u: Use)
    requires AllCanonical(done) && Canonical(u.endpoint)
    ensures AllCanonical(done + [u])
  {
    hide Canonical;
  }

  lemma Repeated(done: seq<Use>, seen: map<string, string>, turns: nat, stuns: nat, u: Use)
    requires Books(done, seen, turns, stuns) && Canonical(u.endpoint) && Print(u.endpoint) in seen
    ensures FirstSeen(done + [u]) == FirstSeen(done)
    ensures seen[Print(u.endpoint)] == Key(u) ==> Books(done + [u], seen, turns, stuns)
    ensures seen[Print(u.endpoint)] != Key(u) ==> u.endpoint.turn && !Agree(done + [u])
  {
    hide Print, Canonical, Count, FirstSeen, ComesFrom, AllCanonical, Entered;
    SeenIff(done, seen, turns, stuns, u.endpoint);
    FirstSeenStep(done, u);
    AllCanonicalStep(done, u);
    if seen[Print(u.endpoint)] == Key(u) {
      RepeatedIsEntered(done, seen, u);
      forall text | text in seen
        ensures ComesFrom(text, done + [u])
      {
        ComesFromMore(text, done, u);
      }
    } else {
      var i :| 0 <= i < |done| && done[i].endpoint == u.endpoint && seen[Print(u.endpoint)] == Key(done[i]);
      assert (done + [u])[i] == done[i] && (done + [u])[|done|] == u;
    }
  }

  lemma RepeatedIsEntered(done: seq<Use>, seen: map<string, string>, u: Use)
    requires forall i :: 0 <= i < |done| ==> Entered(seen, done[i])
    requires Print(u.endpoint) in seen && seen[Print(u.endpoint)] == Key(u)
    ensures forall i :: 0 <= i < |done + [u]| ==> Entered(seen, (done + [u])[i])
  {
    hide Print;
    AllEntered(done, seen, u);
  }

  lemma InsertedIsEntered(done: seq<Use>, seen: map<string, string>, u: Use)
    requires forall i :: 0 <= i < |done| ==> Entered(seen, done[i])
    requires Print(u.endpoint) !in seen
    ensures var now := seen[Print(u.endpoint) := Key(u)];
            forall i :: 0 <= i < |done + [u]| ==> Entered(now, (done + [u])[i])
  {
    hide Print;
    var now := seen[Print(u.endpoint) := Key(u)];
    forall i | 0 <= i < |done|
      ensures Entered(now, done[i])
    {
      assert Entered(seen, done[i]);
    }
    AllEntered(done, now, u);
  }

  lemma CountStep(es: seq<Endpoint>, e: Endpoint, turn: bool)
    ensures Count(es + [e], turn) == Count(es, turn) + if e.turn == turn then 1 else 0
  {
    assert (es + [e])[..|es|] == es;
  }

  lemma Inserted(done: seq<Use>, seen: map<string, string>, turns: nat, stuns: nat, u: Use)
    requires Books(done, seen, turns, stuns) && Canonical(u.endpoint) && Print(u.endpoint) !in seen
    ensures FirstSeen(done + [u]) == FirstSeen(done) + [u.endpoint]
    ensures Books(done + [u], seen[Print(u.endpoint) := Key(u)],
                  if u.endpoint.turn then turns + 1 else turns, if u.endpoint.turn then stuns else stuns + 1)
  {
    hide Print, Canonical, Count, FirstSeen, ComesFrom, AllCanonical, Entered;
    SeenIff(done, seen, turns, stuns, u.endpoint);
    FirstSeenStep(done, u);
    CountStep(FirstSeen(done), u.endpoint, true);
    CountStep(FirstSeen(done), u.endpoint, false);
    AllCanonicalStep(done, u);
    InsertedIsEntered(done, seen, u);
    forall text | text in seen || text == Print(u.endpoint)
      ensures ComesFrom(text, done + [u])
    {
      ComesFromMore(text, done, u);
    }
  }

  lemma BooksAgree(done: seq<Use>, seen: map<string, string>, turns: nat, stuns: nat)
    requires Books(done, seen, turns, stuns)
    ensures Agree(done)
  {
    hide Print, Canonical, Count, FirstSeen, ComesFrom;
    forall i, j | 0 <= i < |done| && 0 <= j < |done| && done[i].endpoint == done[j].endpoint && done[i].endpoint.turn
      ensures done[i].secret == done[j].secret
    {
      assert Entered(seen, done[i]) && Entered(seen, done[j]);
    }
  }

  // ---- secrets ----------------------------------------------------------------------------

  lemma UsesPrefix(a: seq<Item>, b: seq<Item>)
    requires a <= b
    ensures Uses(a) <= Uses(b)
  {
    hide Uses;
    assert b == a + b[|a|..];
    UsesAppend(a, b[|a|..]);
  }

  /** A secret that is too long, in an entry that signs, makes the configuration bad. */
  lemma LongSecretRefused(c: Config, n: nat, u: Use)
    requires c.servers.Some? && n < |c.servers.value| && u.endpoint.turn && |u.secret| > MAX_SECRET
    requires u in Uses(Items(c.servers.value[..n], c.defaultSecret) + ItemsOf(c.servers.value[n], c.defaultSecret))
    ensures !Acceptable(c)
  {
    hide Items, Uses, ItemsOf, ItemsOk, ShapeOk;
    var entries, d := c.servers.value, c.defaultSecret;
    ItemsStep(entries, d, n);
    ItemsPrefix(entries, d, n + 1);
    UsesPrefix(Items(entries[..n + 1], d), Items(entries, d));
    var us, all := Uses(Items(entries[..n + 1], d)), Uses(Items(entries, d));
    var i :| 0 <= i < |us| && us[i] == u;
    assert all[i] == u;
  }

  /** An entry that adds no TURN endpoint brings no secret that was not there before. */
  lemma SecretsStillFit(before: seq<Use>, own: seq<Use>, added: seq<Endpoint>)
    requires SecretsFit(before) && Agree(before + own) && FirstSeen(before + own) == FirstSeen(before) + added
    requires FirstTurn(added).None? || forall i :: 0 <= i < |own| ==> |own[i].secret| <= MAX_SECRET
    ensures SecretsFit(before + own)
  {
    hide FirstSeen, FirstTurn;
    var all := before + own;
    FirstTurnIs(added);
    FirstSeenMembers(before);
    FirstSeenMembers(all);
    forall i | 0 <= i < |all| && all[i].endpoint.turn
      ensures |all[i].secret| <= MAX_SECRET
    {
      if |before| <= i && FirstTurn(added).None? {
        assert all[i].endpoint in FirstSeen(all);
        var j :| 0 <= j < |before| && before[j].endpoint == all[i].endpoint;
        assert all[j] == before[j];
      }
    }
  }

  /** The uses an entry makes carry its secret. */
  lemma {:induction false} UsesCarrySecret(items: seq<Item>, secret: string)
    requires forall i :: 0 <= i < |items| ==> items[i].secret == secret
    ensures forall i :: 0 <= i < |Uses(items)| ==> Uses(items)[i].secret == secret
  {
    hide Parse;
    if items != [] {
      UsesCarrySecret(items[..|items| - 1], secret);
    }
  }

  lemma OwnSecret(e: Entry, d: string, secret: string)
    requires SecretOf(e, d).Some? ==> secret == SecretOf(e, d).value
    ensures forall i :: 0 <= i < |Uses(ItemsOf(e, d))| ==> Uses(ItemsOf(e, d))[i].secret == secret
  {
    hide Uses;
    UsesCarrySecret(ItemsOf(e, d), secret);
  }

  /** Which endpoint a signing entry signs for. */
  lemma SigningUse(before: seq<Use>, own: seq<Use>, added: seq<Endpoint>) returns (u: Use)
    requires FirstSeen(before + own) == FirstSeen(before) + added && FirstTurn(added).Some?
    ensures u in own && u.endpoint.turn
  {
    hide FirstSeen, FirstTurn;
    var all, e := before + own, FirstTurn(added).value;
    FirstTurnIs(added);
    FirstSeenMembers(before);
    FirstSeenMembers(all);
    assert e in FirstSeen(all);
    AddedIsNew(FirstSeen(before), added, e);
    assert forall i :: 0 <= i < |before| ==> before[i].endpoint != e;
    var i :| 0 <= i < |all| && all[i].endpoint == e;
    u := all[i];
  }

  lemma AddedIsNew(known: seq<Endpoint>, added: seq<Endpoint>, e: Endpoint)
    requires Orders.Distinct(known + added) && e in added
    ensures e !in known
  {
    var j :| 0 <= j < |added| && added[j] == e;
    assert (known + added)[|known| + j] == e;
    assert forall i :: 0 <= i < |known| ==> (known + added)[i] == known[i];
  }

  // ---- reading the configuration ----------------------------------------------------------

  lemma ItemsOkStep(past: seq<Item>, it: Item)
    requires ItemsOk(past)
    ensures ItemsOk(past + [it]) <==>
            && |past| < MAX_URLS && UseOf(it).Some?
            && Agree(Uses(past) + [UseOf(it).value])
            && Count(FirstSeen(Uses(past) + [UseOf(it).value]), true) <= MAX_PER_KIND
            && Count(FirstSeen(Uses(past) + [UseOf(it).value]), false) <= MAX_PER_KIND
  {
    hide UseOf, Uses, Agree, FirstSeen, Count;
    UsesStep(past, it);
    assert (past + [it])[|past|] == it;
    assert forall i :: 0 <= i < |past| ==> (past + [it])[i] == past[i];
  }

  lemma PrintAllStep(es: seq<Endpoint>, e: Endpoint)
    ensures PrintAll(es + [e]) == PrintAll(es) + [Print(e)]
  {
    hide Print;
  }

  lemma FirstTurnStep(es: seq<Endpoint>, e: Endpoint)
    ensures FirstTurn(es + [e]) == if FirstTurn(es).Some? || !e.turn then FirstTurn(es) else Some(e)
  {
    assert (es + [e])[..|es|] == es;
  }

  lemma HostHasName(e: Endpoint)
    requires Canonical(e)
    ensures Unbracket(e.host) != "" && e.port > 0
  {
  }

  /** The credential host and port noted so far are those of the first TURN endpoint added. */
  predicate Named(added: seq<Endpoint>, host: string, port: nat) {
    var t := FirstTurn(added);
    if t.None? then host == "" else host != "" && host == Unbracket(t.value.host) && port == t.value.port
  }

  lemma NamedStep(added: seq<Endpoint>, host: string, port: nat, e: Endpoint)
    requires Named(added, host, port) && Canonical(e)
    ensures var first := e.turn && host == "";
            Named(added + [e], if first then Unbracket(e.host) else host, if first then e.port else port)
  {
    hide FirstTurn, Unbracket, Canonical;
    FirstTurnStep(added, e);
    HostHasName(e);
  }

  lemma NamedMeans(added: seq<Endpoint>, host: string, port: nat)
    requires Named(added, host, port)
    ensures host != "" <==> FirstTurn(added).Some?
  {
    hide FirstTurn, Unbracket;
  }

  lemma NobodyNamed()
    ensures Named([], "", 0)
  {
  }

  lemma ServersStep(entries: seq<Entry>, d: string, n: nat, added: seq<Endpoint>, host: string, port: nat)
    requires n < |entries| && SecretOf(entries[n], d).Some?
    requires var before, own := Items(entries[..n], d), ItemsOf(entries[n], d);
             FirstSeen(Uses(before + own)) == FirstSeen(Uses(before)) + added
    requires Named(added, host, port)
    ensures ServersFor(entries[..n + 1], d) == ServersFor(entries[..n], d)
            + if added == [] then []
              else [Server(PrintAll(added), if host == "" then None else Some(Credentials(SecretOf(entries[n],
                  d).value, host, port)))]
  {
    hide FirstSeen, Uses, Items, ItemsOf, PrintAll, FirstTurn, Unbracket;
    UsesAppend(Items(entries[..n], d), ItemsOf(entries[n], d));
    assert entries[..n + 1][..n] == entries[..n];
    assert Added(Uses(Items(entries[..n], d)), Uses(ItemsOf(entries[n], d))) == added;
  }

  /** The constructor's loops. */
  method BuildServers(c: Config) returns (r: Outcome)
    ensures r.Accepted? <==> Acceptable(c)
    ensures r.Accepted? ==> r.servers == ServersFor(c.servers.value, c.defaultSecret)
  {
    hide ItemsOk, Items, ItemsOf, Uses, FirstSeen, Count, Books, Print, Canonical, Parse, PrintAll, FirstTurn,
        ServersFor, Agree, Unbracket, SecretsFit, Named;
    if c.servers.None? || |c.servers.value| > MAX_ENTRIES || c.ttl < MIN_TTL || c.ttl > MAX_TTL {
      return Rejected;
    }
    var entries, d := c.servers.value, c.defaultSecret;
    var seen: map<string, string> := map[];
    var stuns, turns, count := 0, 0, 0;
    var servers: seq<Server> := [];
    NothingYet(d);
    assert entries[..0] == [];
    for n := 0 to |entries|
      invariant forall i :: 0 <= i < n ==> ShapeOk(entries[i], d)
      invariant ItemsOk(Items(entries[..n], d)) && count == |Items(entries[..n], d)|
      invariant Books(Uses(Items(entries[..n], d)), seen, turns, stuns) && SecretsFit(Uses(Items(entries[..n], d)))
      invariant turns <= MAX_PER_KIND && stuns <= MAX_PER_KIND
      invariant servers == ServersFor(entries[..n], d)
    {
      var values, configured := ValuesOf(entries[n]), SecretOf(entries[n], d);
      if values == [] || configured.None? {
        return Rejected;
      }
      var secret := configured.value;
      ghost var before, own := Items(entries[..n], d), ItemsOf(entries[n], d);
      OwnItems(entries[n], d);
      ghost var added: seq<Endpoint> := [];
      var urls: seq<string> := [];
      var host, port := "", 0;
      assert before + own[..0] == before;
      NobodyNamed();
      for k := 0 to |values|
        invariant ItemsOk(before + own[..k]) && count == |before| + k
        invariant Books(Uses(before + own[..k]), seen, turns, stuns)
        invariant turns <= MAX_PER_KIND && stuns <= MAX_PER_KIND
        invariant FirstSeen(Uses(before + own[..k])) == FirstSeen(Uses(before)) + added
        invariant urls == PrintAll(added) && (urls == [] <==> added == []) && Named(added, host, port)
      {
        ghost var past, it := before + own[..k], own[k];
        assert before + own[..k + 1] == past + [it];
        ItemsOkStep(past, it);
        UsesStep(past, it);
        count := count + 1;
        if count > MAX_URLS || values[k].NotStr? {
          BadItemsRefused(c, n, k + 1);
          return Rejected;
        }
        var e := Parse(values[k].text);
        if e.None? || (e.value.turn && secret == "") {
          BadItemsRefused(c, n, k + 1);
          return Rejected;
        }
        ParsedIsCanonical(values[k].text);
        var turn, canonical := e.value.turn, Print(e.value);
        var key := if turn then secret else "";
        ghost var u := Use(e.value, secret);
        assert UseOf(it) == Some(u);
        if canonical in seen {
          Repeated(Uses(past), seen, turns, stuns, u);
          if turn && seen[canonical] != secret {
            BadItemsRefused(c, n, k + 1);
            return Rejected;
          }
        } else {
          Inserted(Uses(past), seen, turns, stuns, u);
          seen := seen[canonical := key];
          if turn {
            turns := turns + 1;
          } else {
            stuns := stuns + 1;
          }
          BooksCount(Uses(past + [it]), seen, turns, stuns);
          if turns > MAX_PER_KIND || stuns > MAX_PER_KIND {
            BadItemsRefused(c, n, k + 1);
            return Rejected;
          }
          PrintAllStep(added, e.value);
          NamedStep(added, host, port, e.value);
          if turn && host == "" {
            host, port := Unbracket(e.value.host), e.value.port;
          }
          added := added + [e.value];
          urls := urls + [canonical];
        }
        BooksCount(Uses(past + [it]), seen, turns, stuns);
      }
      assert own[..|values|] == own;
      ItemsStep(entries, d, n);
      UsesAppend(before, own);
      OwnSecret(entries[n], d, secret);
      BooksAgree(Uses(before + own), seen, turns, stuns);
      NamedMeans(added, host, port);
      if host != "" && |secret| > MAX_SECRET {
        ghost var u := SigningUse(Uses(before), Uses(own), added);
        LongSecretRefused(c, n, u);
        return Rejected;
      }
      SecretsStillFit(Uses(before), Uses(own), added);
      ServersStep(entries, d, n, added, host, port);
      if urls != [] {
        servers := servers + [Server(urls, if host == "" then None else Some(Credentials(secret, host, port)))];
      }
    }
    assert entries[..|entries|] == entries;
    r := Accepted(servers);
  }

  lemma NothingYet(d: string)
    ensures Items([], d) == [] && ItemsOk([]) && Books(Uses([]), map[], 0, 0) && ServersFor([], d) == []
    ensures PrintAll([]) == [] && FirstTurn([]) == None && SecretsFit(Uses([]))
  {
  }

  lemma OwnItems(e: Entry, d: string)
    requires SecretOf(e, d).Some?
    ensures |ItemsOf(e, d)| == |ValuesOf(e)|
    ensures forall k :: 0 <= k < |ValuesOf(e)| ==> ItemsOf(e, d)[k] == Item(ValuesOf(e)[k], SecretOf(e, d).value)
  {
  }

  lemma BooksCount(done: seq<Use>, seen: map<string, string>, turns: nat, stuns: nat)
    requires Books(done, seen, turns, stuns)
    ensures turns == Count(FirstSeen(done), true) && stuns == Count(FirstSeen(done), false) && Agree(done)
  {
    BooksAgree(done, seen, turns, stuns);
  }
}
