/** Which configurations are accepted and what is issued for them, said of the places in the configuration. */
module IceMeaning {
  import opened IceEndpoint
  import opened Options
  import opened IceServers
  import IceFacts
  import Orders

  // ---- places -----------------------------------------------------------------------------

  /** The value at place k of entry n. */
  predicate ValueAt(entries: seq<Entry>, n: nat, k: nat, v: Value) {
    && n < |entries| && entries[n].Entry?
    && match entries[n].urls
       case One(url) => k == 0 && v == Str(url)
       case Many(values) => k < |values| && values[k] == v
       case _ => false
  }

  /** The secret of entry n: its own, or the default. */
  predicate SecretAt(entries: seq<Entry>, d: string, n: nat, secret: string) {
    && n < |entries| && entries[n].Entry?
    && match entries[n].secret
       case Unset => secret == d
       case Secret(text) => secret == text
       case NotAString => false
  }

  /** Entry n names the endpoint at place k, with this secret. */
  ghost predicate NamedAt(entries: seq<Entry>, d: string, n: nat, k: nat, e: Endpoint, secret: string) {
    SecretAt(entries, d, n, secret)
    && exists text :: ValueAt(entries, n, k, Str(text)) && Parse(text) == Some(e)
  }

  function UrlCount(entries: seq<Entry>): nat {
    if entries == [] then 0
    else
      var e := entries[|entries| - 1];
      UrlCount(entries[..|entries| - 1])
      + if e.Entry? && e.urls.One? then 1 else if e.Entry? && e.urls.Many? then |e.urls.values| else 0
  }

  /** An object whose "urls" is a string or a list with something in it, and whose secret, if given, is a string. */
  predicate EntryOk(e: Entry) {
    e.Entry? && (e.urls.One? || (e.urls.Many? && e.urls.values != [])) && !e.secret.NotAString?
  }

  // ---- places and items -------------------------------------------------------------------

  lemma OneEntry(entries: seq<Entry>, d: string, n: nat)
    requires n < |entries|
    ensures ShapeOk(entries[n], d) <==> EntryOk(entries[n])
    ensures forall k: nat, v ::
              ValueAt(entries, n, k, v) <==> k < |ValuesOf(entries[n])| && ValuesOf(entries[n])[k] == v
    ensures forall s :: SecretAt(entries, d, n, s) <==> SecretOf(entries[n], d) == Some(s)
  {
  }

  predicate ItemAt(entries: seq<Entry>, d: string, n: nat, k: nat, it: Item) {
    ValueAt(entries, n, k, it.value) && SecretAt(entries, d, n, it.secret)
  }

  lemma {:induction false} ItemsAreAt(entries: seq<Entry>, d: string, it: Item)
    ensures it in Items(entries, d) <==> exists n: nat, k: nat :: ItemAt(entries, d, n, k, it)
    decreases |entries|
  {
    if entries == [] {
    } else {
      var m := |entries| - 1;
      var front := entries[..m];
      ItemsAreAt(front, d, it);
      OneEntry(entries, d, m);
      assert Items(entries, d) == Items(front, d) + ItemsOf(entries[m], d);
      hide Items, ValueAt, SecretAt, ItemsOf, ValuesOf, SecretOf;
      forall n: nat, k: nat | n < m
        ensures ItemAt(front, d, n, k, it) <==> ItemAt(entries, d, n, k, it)
      {
        PlaceStays(entries, m, d, n, k, it);
      }
      OwnItem(entries, d, it);
      if n: nat, k: nat :| ItemAt(entries, d, n, k, it) {
        PlaceIsInside(entries, d, n, k, it);
      }
      if it in Items(front, d) {
        var n: nat, k: nat :| ItemAt(front, d, n, k, it);
        PlaceIsInside(front, d, n, k, it);
      }
    }
  }

  lemma PlaceStays(entries: seq<Entry>, m: nat, d: string, n: nat, k: nat, it: Item)
    requires n < m <= |entries|
    ensures ItemAt(entries[..m], d, n, k, it) <==> ItemAt(entries, d, n, k, it)
  {
  }

  lemma PlaceIsInside(entries: seq<Entry>, d: string, n: nat, k: nat, it: Item)
    requires ItemAt(entries, d, n, k, it)
    ensures n < |entries|
  {
  }

  lemma OwnItem(entries: seq<Entry>, d: string, it: Item)
    requires entries != []
    ensures var m := |entries| - 1; it in ItemsOf(entries[m], d) <==> exists k: nat :: ItemAt(entries, d, m, k, it)
  {
    var m := |entries| - 1;
    OneEntry(entries, d, m);
    hide ValueAt, SecretAt, ValuesOf, SecretOf;
    var own := ItemsOf(entries[m], d);
    if it in own {
      var k :| 0 <= k < |own| && own[k] == it;
      assert ItemAt(entries, d, m, k, it);
    }
    if k: nat :| ItemAt(entries, d, m, k, it) {
      assert own[k] == it;
    }
  }

  lemma {:induction false} ItemsCount(entries: seq<Entry>, d: string)
    requires forall n :: 0 <= n < |entries| ==> EntryOk(entries[n])
    ensures |Items(entries, d)| == UrlCount(entries)
    decreases |entries|
  {
    if entries != [] {
      var m := |entries| - 1;
      assert EntryOk(entries[m]);
      ItemsCount(entries[..m], d);
    }
  }

  lemma {:induction false} UsesMembers(items: seq<Item>, u: Use)
    ensures u in Uses(items) <==> exists it :: it in items && UseOf(it) == Some(u)
  {
    hide UseOf;
    if items != [] {
      var front, last := items[..|items| - 1], items[|items| - 1];
      UsesMembers(front, u);
      Orders.SplitLast(items);
      UsesStep(front, last);
    }
  }

  lemma UseIsNamed(entries: seq<Entry>, d: string, u: Use)
    ensures u in Uses(Items(entries, d))
       <==> (exists n: nat, k: nat :: NamedAt(entries, d, n, k, u.endpoint, u.secret))
            && (u.endpoint.turn ==> u.secret != "")
  {
    hide Uses, Items, ValueAt, SecretAt, Parse;
    UsesMembers(Items(entries, d), u);
    if u in Uses(Items(entries, d)) {
      var it :| it in Items(entries, d) && UseOf(it) == Some(u);
      ItemsAreAt(entries, d, it);
      var n: nat, k: nat :| ItemAt(entries, d, n, k, it);
      assert it.value == Str(it.value.text);
      assert NamedAt(entries, d, n, k, u.endpoint, u.secret);
    }
    if n: nat, k: nat :| NamedAt(entries, d, n, k, u.endpoint, u.secret) && (u.endpoint.turn ==> u.secret != "") {
      var text :| ValueAt(entries, n, k, Str(text)) && Parse(text) == Some(u.endpoint);
      var it := Item(Str(text), u.secret);
      assert ItemAt(entries, d, n, k, it);
      ItemsAreAt(entries, d, it);
      assert UseOf(it) == Some(u);
    }
  }

  // ---- counting ---------------------------------------------------------------------------

  function OfKind(es: set<Endpoint>, turn: bool): set<Endpoint> {
    set e | e in es && e.turn == turn
  }

  lemma {:induction false} CountIsSize(es: seq<Endpoint>, turn: bool)
    requires Orders.Distinct(es)
    ensures Count(es, turn) == |OfKind(Orders.Elements(es), turn)|
  {
    if es == [] {
      assert OfKind(Orders.Elements(es), turn) == {};
    } else {
      var front, e := es[..|es| - 1], es[|es| - 1];
      CountIsSize(front, turn);
      Orders.SplitLast(es);
      assert e !in front;
      var was, now := OfKind(Orders.Elements(front), turn), OfKind(Orders.Elements(es), turn);
      if e.turn == turn {
        assert now == was + {e};
      } else {
        assert now == was;
      }
    }
  }

  /** The endpoints of one kind among the uses. */
  function Endpoints(us: seq<Use>, turn: bool): set<Endpoint> {
    set i | 0 <= i < |us| && us[i].endpoint.turn == turn :: us[i].endpoint
  }

  lemma SeenIsEndpoints(us: seq<Use>, turn: bool)
    ensures Count(FirstSeen(us), turn) == |Endpoints(us, turn)|
  {
    hide FirstSeen, Count;
    FirstSeenMembers(us);
    CountIsSize(FirstSeen(us), turn);
    assert OfKind(Orders.Elements(FirstSeen(us)), turn) == Endpoints(us, turn);
  }

  // ---- which configurations are accepted ---------------------------------------------------

  /** Every value is a string that the issuer accepts as a URL. */
  ghost predicate ValuesOk(entries: seq<Entry>) {
    forall n: nat, k: nat, v :: ValueAt(entries, n, k, v) ==> v.Str? && Parse(v.text).Some?
  }

  /** Every TURN endpoint is named with a secret that is not empty and not too long to sign with. */
  ghost predicate SecretsOk(entries: seq<Entry>, d: string) {
    forall n: nat, k: nat, e, s :: NamedAt(entries, d, n, k, e, s) && e.turn ==> 0 < |s| <= 0x7fff_ffff
  }

  /** No TURN endpoint is named with two secrets. */
  ghost predicate SecretsAgree(entries: seq<Entry>, d: string) {
    forall n: nat, k: nat, m: nat, l: nat, e, s, t ::
      NamedAt(entries, d, n, k, e, s) && NamedAt(entries, d, m, l, e, t) && e.turn ==> s == t
  }

  ghost predicate IsNamed(entries: seq<Entry>, d: string, e: Endpoint) {
    exists n: nat, k: nat, s :: NamedAt(entries, d, n, k, e, s)
  }

  /** Of one kind, at most eight different endpoints are named. */
  ghost predicate AtMostEight(entries: seq<Entry>, d: string, turn: bool) {
    forall es: set<Endpoint> :: (forall e :: e in es ==> e.turn == turn && IsNamed(entries, d, e)) ==> |es| <= 8
  }

  /** What a server starts with. */
  ghost predicate GoodConfig(c: Config) {
    && c.servers.Some? && |c.servers.value| <= 16 && 60 <= c.ttl <= 86400
    && (forall n :: 0 <= n < |c.servers.value| ==> EntryOk(c.servers.value[n]))
    && UrlCount(c.servers.value) <= 32 && ValuesOk(c.servers.value)
    && SecretsOk(c.servers.value, c.defaultSecret) && SecretsAgree(c.servers.value, c.defaultSecret)
    && AtMostEight(c.servers.value, c.defaultSecret, true) && AtMostEight(c.servers.value, c.defaultSecret, false)
  }

  ghost predicate AllUses(items: seq<Item>) {
    forall it :: it in items ==> UseOf(it).Some?
  }

  /** Every TURN endpoint has a secret. */
  ghost predicate SecretsGiven(entries: seq<Entry>, d: string) {
    forall n: nat, k: nat, e, s :: NamedAt(entries, d, n, k, e, s) && e.turn ==> s != ""
  }

  lemma AllUsesIff(entries: seq<Entry>, d: string)
    requires forall n :: 0 <= n < |entries| ==> EntryOk(entries[n])
    ensures AllUses(Items(entries, d)) <==> ValuesOk(entries) && SecretsGiven(entries, d)
  {
    hide Items, Parse, ValueAt, SecretAt;
    if AllUses(Items(entries, d)) {
      forall n: nat, k: nat, v | ValueAt(entries, n, k, v)
        ensures v.Str? && Parse(v.text).Some?
      {
        var it := ValueIsItem(entries, d, n, k, v);
        UsableItem(it);
      }
      forall n: nat, k: nat, e, s | NamedAt(entries, d, n, k, e, s) && e.turn
        ensures s != ""
      {
        var text :| ValueAt(entries, n, k, Str(text)) && Parse(text) == Some(e);
        assert ItemAt(entries, d, n, k, Item(Str(text), s));
        ItemsAreAt(entries, d, Item(Str(text), s));
        UsableItem(Item(Str(text), s));
      }
    }
    if ValuesOk(entries) && SecretsGiven(entries, d) {
      forall it | it in Items(entries, d)
        ensures UseOf(it).Some?
      {
        ItemsAreAt(entries, d, it);
        var n: nat, k: nat :| ItemAt(entries, d, n, k, it);
        assert it.value == Str(it.value.text);
        assert NamedAt(entries, d, n, k, Parse(it.value.text).value, it.secret);
      }
    }
  }

  lemma UsableItem(it: Item)
    requires UseOf(it).Some?
    ensures it.value.Str? && Parse(it.value.text).Some? && (Parse(it.value.text).value.turn ==> it.secret != "")
  {
    hide Parse;
  }

  lemma ValueIsItem(entries: seq<Entry>, d: string, n: nat, k: nat, v: Value) returns (it: Item)
    requires (forall m :: 0 <= m < |entries| ==> EntryOk(entries[m])) && ValueAt(entries, n, k, v)
    ensures it in Items(entries, d) && it.value == v
  {
    hide Items;
    assert n < |entries| && EntryOk(entries[n]);
    it := Item(v, if entries[n].secret.Unset? then d else entries[n].secret.text);
    assert ItemAt(entries, d, n, k, it);
    ItemsAreAt(entries, d, it);
  }

  lemma UseIsSomewhere(us: seq<Use>, u: Use)
    ensures u in us <==> exists i :: 0 <= i < |us| && us[i] == u
  {
  }

  /** The conditions on secrets, read off the uses. */
  lemma SecretsIff(entries: seq<Entry>, d: string)
    requires SecretsGiven(entries, d)
    ensures var us := Uses(Items(entries, d));
            && (SecretsFit(us) <==> SecretsOk(entries, d)) && (Agree(us) <==> SecretsAgree(entries, d))
  {
    hide Uses, Items, NamedAt;
    var us := Uses(Items(entries, d));
    forall n: nat, k: nat, e, s | NamedAt(entries, d, n, k, e, s)
      ensures exists i :: 0 <= i < |us| && us[i] == Use(e, s)
    {
      UseIsNamed(entries, d, Use(e, s));
      UseIsSomewhere(us, Use(e, s));
    }
    forall u | u in us
      ensures exists n: nat, k: nat :: NamedAt(entries, d, n, k, u.endpoint, u.secret)
    {
      UseIsNamed(entries, d, u);
    }
    if SecretsFit(us) {
      forall n: nat, k: nat, e, s | NamedAt(entries, d, n, k, e, s) && e.turn
        ensures 0 < |s| <= 0x7fff_ffff
      {
        var i :| 0 <= i < |us| && us[i] == Use(e, s);
      }
    }
    if Agree(us) {
      forall n: nat, k: nat, m: nat, l: nat, e, s, t |
        NamedAt(entries, d, n, k, e, s) && NamedAt(entries, d, m, l, e, t) && e.turn
        ensures s == t
      {
        var i :| 0 <= i < |us| && us[i] == Use(e, s);
        var j :| 0 <= j < |us| && us[j] == Use(e, t);
      }
    }
    if SecretsOk(entries, d) {
      forall i | 0 <= i < |us| && us[i].endpoint.turn
        ensures |us[i].secret| <= MAX_SECRET
      {
        assert us[i] in us;
      }
    }
    if SecretsAgree(entries, d) {
      forall i, j | 0 <= i < |us| && 0 <= j < |us| && us[i].endpoint == us[j].endpoint && us[i].endpoint.turn
        ensures us[i].secret == us[j].secret
      {
        assert us[i] in us && us[j] in us;
      }
    }
  }

  lemma EightIff(entries: seq<Entry>, d: string, turn: bool)
    requires SecretsGiven(entries, d)
    ensures Count(FirstSeen(Uses(Items(entries, d))), turn) <= 8 <==> AtMostEight(entries, d, turn)
  {
    hide Uses, Items, NamedAt, FirstSeen, Count;
    var us := Uses(Items(entries, d));
    SeenIsEndpoints(us, turn);
    var all := Endpoints(us, turn);
    forall e
      ensures e in all <==> e.turn == turn && IsNamed(entries, d, e)
    {
      EndpointIsNamed(entries, d, turn, e);
    }
    hide Endpoints;
    forall es: set<Endpoint> | forall e :: e in es ==> e.turn == turn && IsNamed(entries, d, e)
      ensures |es| <= |all|
    {
      assert es <= all;
      FewerIn(es, all);
    }
  }

  lemma FewerIn<T>(a: set<T>, b: set<T>)
    requires a <= b
    ensures |a| <= |b|
  {
    assert b == a + (b - a);
  }

  lemma EndpointIsNamed(entries: seq<Entry>, d: string, turn: bool, e: Endpoint)
    requires SecretsGiven(entries, d)
    ensures e in Endpoints(Uses(Items(entries, d)), turn) <==> e.turn == turn && IsNamed(entries, d, e)
  {
    hide Uses, Items, NamedAt;
    var us := Uses(Items(entries, d));
    if e in Endpoints(us, turn) {
      var i :| 0 <= i < |us| && us[i].endpoint == e;
      UseIsNamed(entries, d, us[i]);
    }
    if e.turn == turn && IsNamed(entries, d, e) {
      var n: nat, k: nat, s :| NamedAt(entries, d, n, k, e, s);
      UseIsNamed(entries, d, Use(e, s));
      var i :| 0 <= i < |us| && us[i] == Use(e, s);
      assert us[i].endpoint == e;
    }
  }

  lemma AllAreUses(items: seq<Item>)
    ensures AllUses(items) <==> forall i :: 0 <= i < |items| ==> UseOf(items[i]).Some?
  {
    hide UseOf;
  }

  lemma ShapesAre(entries: seq<Entry>, d: string)
    ensures (forall n :: 0 <= n < |entries| ==> ShapeOk(entries[n], d))
       <==> (forall n :: 0 <= n < |entries| ==> EntryOk(entries[n]))
  {
    forall n | 0 <= n < |entries|
      ensures ShapeOk(entries[n], d) <==> EntryOk(entries[n])
    {
      OneEntry(entries, d, n);
    }
  }

  /** The issuer accepts exactly the good configurations. */
  lemma AcceptableIff(c: Config)
    ensures Acceptable(c) <==> GoodConfig(c)
  {
    if c.servers.Some? {
      var entries, d := c.servers.value, c.defaultSecret;
      ShapesAre(entries, d);
      hide ShapeOk, EntryOk, SecretsFit, ValuesOk, SecretsAgree, AtMostEight, UseOf, Uses, Items, Agree, FirstSeen,
          Count, UrlCount, AllUses, SecretsGiven, SecretsOk;
      if forall n :: 0 <= n < |entries| ==> EntryOk(entries[n]) {
        ItemsCount(entries, d);
        AllAreUses(Items(entries, d));
        AllUsesIff(entries, d);
        OkIsGiven(entries, d);
        if SecretsGiven(entries, d) {
          SecretsIff(entries, d);
          EightIff(entries, d, true);
          EightIff(entries, d, false);
        }
      }
    }
  }

  lemma OkIsGiven(entries: seq<Entry>, d: string)
    ensures SecretsOk(entries, d) ==> SecretsGiven(entries, d)
  {
    hide NamedAt;
  }

  // ---- what an entry adds -----------------------------------------------------------------

  /** In a list of uses, one endpoint is mentioned before another. */
  predicate MentionedBefore(us: seq<Use>, a: Endpoint, b: Endpoint) {
    exists k :: 0 <= k < |us| && us[k].endpoint == a && forall m :: 0 <= m <= k ==> us[m].endpoint != b
  }

  lemma {:induction false} SeenInOrder(us: seq<Use>, i: nat, j: nat)
    requires i < j < |FirstSeen(us)|
    ensures MentionedBefore(us, FirstSeen(us)[i], FirstSeen(us)[j])
    decreases |us|
  {
    var front, last := us[..|us| - 1], us[|us| - 1].endpoint;
    hide FirstSeen;
    FirstSeenStep(front, us[|us| - 1]);
    assert us == front + [us[|us| - 1]];
    if j < |FirstSeen(front)| {
      SeenInOrder(front, i, j);
      var a, b := FirstSeen(us)[i], FirstSeen(us)[j];
      var k :| 0 <= k < |front| && front[k].endpoint == a && forall m :: 0 <= m <= k ==> front[m].endpoint != b;
      assert us[k].endpoint == a && forall m :: 0 <= m <= k ==> us[m] == front[m];
    } else {
      FirstSeenMembers(front);
      var a := FirstSeen(us)[i];
      assert a in FirstSeen(front) && last !in FirstSeen(front);
      var k :| 0 <= k < |front| && front[k].endpoint == a;
      assert us[k].endpoint == a && forall m :: 0 <= m <= k ==> us[m] == front[m];
    }
  }

  /** What an entry adds: the endpoints that it mentions and nothing before it does, each once, in the order in which it
      mentions them. */
  lemma AddedMeans(before: seq<Use>, own: seq<Use>)
    ensures var es := Added(before, own);
            && Orders.Distinct(es)
            && (forall e :: e in es <==>
                  (exists k :: 0 <= k < |own| && own[k].endpoint == e)
                  && !exists k :: 0 <= k < |before| && before[k].endpoint == e)
            && (forall i, j :: 0 <= i < j < |es| ==> MentionedBefore(own, es[i], es[j]))
  {
    hide FirstSeen;
    var all, es, known := before + own, Added(before, own), FirstSeen(before);
    FirstSeenGrows(before, own);
    FirstSeenMembers(before);
    FirstSeenMembers(all);
    assert FirstSeen(all) == known + es;
    AddedApart(known, es);
    forall e
      ensures e in es <==> (exists k :: 0 <= k < |own| && own[k].endpoint == e) && e !in known
    {
      AddedMember(before, own, e);
    }
    forall i, j | 0 <= i < j < |es|
      ensures MentionedBefore(own, es[i], es[j])
    {
      SeenInOrder(all, |known| + i, |known| + j);
      assert FirstSeen(all)[|known| + i] == es[i] && FirstSeen(all)[|known| + j] == es[j];
      assert es[i] in es;
      MentionedInOwn(before, own, es[i], es[j]);
    }
  }

  lemma AddedApart(known: seq<Endpoint>, es: seq<Endpoint>)
    requires Orders.Distinct(known + es)
    ensures Orders.Distinct(es) && forall e :: e in es ==> e !in known
  {
    forall i, j | 0 <= i < j < |es|
      ensures es[i] != es[j]
    {
      assert (known + es)[|known| + i] == es[i] && (known + es)[|known| + j] == es[j];
    }
    forall e | e in es
      ensures e !in known
    {
      AddedIsNew(known, es, e);
    }
  }

  lemma AddedMember(before: seq<Use>, own: seq<Use>, e: Endpoint)
    ensures e in Added(before, own)
       <==> (exists k :: 0 <= k < |own| && own[k].endpoint == e) && e !in FirstSeen(before)
  {
    hide FirstSeen;
    var all, es, known := before + own, Added(before, own), FirstSeen(before);
    FirstSeenGrows(before, own);
    FirstSeenMembers(before);
    FirstSeenMembers(all);
    assert FirstSeen(all) == known + es;
    AddedApart(known, es);
    if k :| 0 <= k < |own| && own[k].endpoint == e {
      assert all[|before| + k].endpoint == e;
      assert e in known + es;
    }
    if e in es {
      assert e in known + es;
      var i :| 0 <= i < |all| && all[i].endpoint == e;
      assert forall m :: 0 <= m < |before| ==> all[m] == before[m];
      if |before| <= i {
        assert own[i - |before|].endpoint == e;
      }
    }
  }

  lemma MentionedInOwn(before: seq<Use>, own: seq<Use>, a: Endpoint, b: Endpoint)
    requires MentionedBefore(before + own, a, b) && forall k :: 0 <= k < |before| ==> before[k].endpoint != a
    ensures MentionedBefore(own, a, b)
  {
    var all := before + own;
    var k :| 0 <= k < |all| && all[k].endpoint == a && forall m :: 0 <= m <= k ==> all[m].endpoint != b;
    assert forall m :: 0 <= m < |before| ==> all[m] == before[m];
    forall m | 0 <= m <= k - |before|
      ensures own[m].endpoint != b
    {
      assert all[|before| + m] == own[m];
    }
    assert own[k - |before|].endpoint == a;
  }

  /** Each entry of the configuration that adds endpoints becomes one entry of what is issued, listing their texts, with
      credentials if there is a TURN endpoint among them: the entry's secret and the host, without brackets, and port of
      the first of these. An entry that adds none becomes none. */
  lemma EntryIssues(entries: seq<Entry>, d: string, n: nat, secret: string)
    requires n < |entries| && SecretAt(entries, d, n, secret)
    ensures var es := Added(Uses(Items(entries[..n], d)), Uses(ItemsOf(entries[n], d)));
            var issued, more := ServersFor(entries[..n], d), ServersFor(entries[..n + 1], d);
            if es == [] then more == issued
            else
              |more| == |issued| + 1 && more[..|issued|] == issued && IssuesAs(more[|issued|], es, secret)
  {
    hide Added, Uses, Items, ItemsOf, Print, FirstTurn, Unbracket, PrintAll, CredentialsFor, Canonical, IssuesAs;
    var es := Added(Uses(Items(entries[..n], d)), Uses(ItemsOf(entries[n], d)));
    assert entries[..n + 1][..n] == entries[..n] && entries[..n + 1][n] == entries[n];
    assert SecretOf(entries[n], d) == Some(secret);
    if es == [] {
      assert ServersFor(entries[..n], d) + [] == ServersFor(entries[..n], d);
    } else {
      AddedIsCanonical(Items(entries[..n], d), ItemsOf(entries[n], d));
      assert forall i :: 0 <= i < |es| ==> es[i] in es;
      ServerIssues(es, secret);
    }
  }

  predicate IssuesAs(s: Server, es: seq<Endpoint>, secret: string) {
    && |s.urls| == |es| && (forall i :: 0 <= i < |es| ==> s.urls[i] == Print(es[i]))
    && (s.credentials.None? <==> forall i :: 0 <= i < |es| ==> !es[i].turn)
    && forall k :: 0 <= k < |es| && es[k].turn && (forall i :: 0 <= i < k ==> !es[i].turn) ==>
         && s.credentials.Some? && s.credentials.value.secret == secret && s.credentials.value.port == es[k].port
         && BracketsOff(es[k].host, s.credentials.value.host)
  }

  lemma ServerIssues(es: seq<Endpoint>, secret: string)
    requires forall i :: 0 <= i < |es| ==> Canonical(es[i])
    ensures IssuesAs(Server(PrintAll(es), CredentialsFor(es, secret)), es, secret)
  {
    hide Print, FirstTurn, Unbracket, Canonical;
    IceFacts.FirstTurnFound(es);
    forall k | 0 <= k < |es| && es[k].turn && (forall i :: 0 <= i < k ==> !es[i].turn)
      ensures FirstTurn(es) == Some(es[k]) && BracketsOff(es[k].host, Unbracket(es[k].host))
    {
      IceFacts.FirstTurnAt(es, k);
      UnbracketMeans(es[k]);
    }
  }

  /** The second text is the first without the brackets around an address. */
  predicate BracketsOff(h: string, bare: string) {
    h in {bare, "[" + bare + "]"} && !("[" <= bare)
  }

  lemma UnbracketMeans(e: Endpoint)
    requires Canonical(e)
    ensures BracketsOff(e.host, Unbracket(e.host))
  {
    hide Decimal;
    var h := e.host;
    if h[0] == '[' {
      assert h == "[" + h[1..|h| - 1] + "]";
      assert AddressChar(h[1..|h| - 1][0]);
    } else {
      assert NameChar(h[0]);
    }
  }
}
