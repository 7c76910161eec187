/** The two reports of where the online clients are, and when they agree. */
module GeoReport {
  import opened Identity
  import opened Orders
  import Sums
  import opened GeoDistribution
  import TextSearch

  // ---- ranking ----------------------------------------------------------------------------

  datatype Row = Row(name: string, count: nat)

  /** Most clients first, then by name. */
  predicate RanksBefore(a: Row, b: Row) {
    a.count > b.count || (a.count == b.count && StringLess(a.name, b.name))
  }

  function ByRank(): (Row, Row) -> bool {
    (a, b) => RanksBefore(a, b)
  }

  lemma ByRankOrders()
    ensures StrictOrder(ByRank())
  {
    hide StringLess;
    forall a: Row
      ensures !RanksBefore(a, a)
    {
      StringLessIrreflexive(a.name);
    }
    forall a: Row, b: Row, c: Row | RanksBefore(a, b) && RanksBefore(b, c)
      ensures RanksBefore(a, c)
    {
      if a.count == b.count == c.count {
        StringLessTransitive(a.name, b.name, c.name);
      }
    }
    forall a: Row, b: Row
      ensures a == b || RanksBefore(a, b) || RanksBefore(b, a)
    {
      StringLessTotal(a.name, b.name);
    }
  }

  ghost predicate IsRanking(rows: seq<Row>, m: map<string, nat>) {
    && StrictlySorted(rows, ByRank())
    && forall r :: r in rows <==> r.name in m && m[r.name] == r.count
  }

  lemma RankingIsUnique(a: seq<Row>, b: seq<Row>, m: map<string, nat>)
    requires IsRanking(a, m) && IsRanking(b, m)
    ensures a == b
  {
    hide ByRank, StrictlySorted;
    ByRankOrders();
    assert forall r :: r in a <==> r in b;
    SortedIsUnique(a, b, ByRank());
  }

  /** The entries of a hash map in whatever order it keeps them, then sorted; they are distinct, so dropping repeats
      changes nothing. */
  method Rank(m: map<string, nat>) returns (rows: seq<Row>)
    ensures IsRanking(rows, m)
  {
    hide ByRank, StrictlySorted, SortUnique;
    var left := m.Keys;
    rows := [];
    while left != {}
      invariant left <= m.Keys
      invariant forall r :: r in rows <==> r.name in m && r.name !in left && m[r.name] == r.count
      decreases left
    {
      var name :| name in left;
      rows := rows + [Row(name, m[name])];
      left := left - {name};
    }
    ByRankOrders();
    SortUniqueSorts(rows, ByRank());
    rows := SortUnique(rows, ByRank());
  }

  // ---- the reports ------------------------------------------------------------------------

  datatype Distribution = Distribution(total: nat, domestic: nat, foreign: nat, unknown: nat,
                                       provinces: seq<Row>, countries: seq<Row>)

  ghost predicate ReportsTally(r: Distribution, t: Tally) {
    && r.total == t.total && r.domestic == t.domestic && r.foreign == t.foreign && r.unknown == t.unknown
    && IsRanking(r.provinces, t.provinces) && IsRanking(r.countries, t.countries)
  }

  /** The report counts the clients `ids`, each by its kind. */
  ghost predicate Reports(r: Distribution, kinds: map<Id, Kind>, ids: set<Id>) {
    exists t :: Describes(t, kinds, ids) && ReportsTally(r, t)
  }

  /** Neither the order in which the clients are counted nor that of the hash maps shows in the report. */
  lemma ReportIsUnique(r: Distribution, s: Distribution, kinds: map<Id, Kind>, ids: set<Id>)
    requires Reports(r, kinds, ids) && Reports(s, kinds, ids)
    ensures r == s
  {
    hide Describes, IsRanking;
    var t :| Describes(t, kinds, ids) && ReportsTally(r, t);
    var u :| Describes(u, kinds, ids) && ReportsTally(s, u);
    DescribesOne(t, u, kinds, ids);
    RankingIsUnique(r.provinces, s.provinces, t.provinces);
    RankingIsUnique(r.countries, s.countries, t.countries);
  }

  method Publish(t: Tally) returns (r: Distribution)
    ensures ReportsTally(r, t)
  {
    hide IsRanking;
    var provinces := Rank(t.provinces);
    var countries := Rank(t.countries);
    r := Distribution(t.total, t.domestic, t.foreign, t.unknown, provinces, countries);
  }

  // ---- in memory --------------------------------------------------------------------------

  /** A client without network information is of unknown origin. */
  function MemoryKinds(ids: set<Id>, info: map<Id, Place>, rules: Rules): map<Id, Kind> {
    map d | d in ids :: if d in info then KindOf(rules, info[d]) else Unknown
  }

  /** The elements of a hash set in whatever order it keeps them. */
  method ListOf(s: set<Id>) returns (l: seq<Id>)
    ensures Distinct(l) && Elements(l) == s
  {
    var left := s;
    l := [];
    while left != {}
      invariant left <= s && Distinct(l) && forall d :: d in l <==> d in s - left
      decreases left
    {
      var d :| d in left;
      DistinctMore(l, d);
      l := l + [d];
      left := left - {d};
    }
  }

  lemma NobodyDescribed(kinds: map<Id, Kind>)
    requires forall d :: d in kinds ==> kinds[d] != Foreign("")
    ensures Describes(NOBODY, kinds, {})
  {
  }

  lemma MemoryKindsNamed(ids: set<Id>, info: map<Id, Place>, rules: Rules)
    ensures MemoryKinds(ids, info, rules).Keys == ids
    ensures forall d :: d in ids ==> MemoryKinds(ids, info, rules)[d] != Foreign("")
  {
  }

  lemma NextOf(l: seq<Id>, i: nat)
    requires Distinct(l) && i < |l|
    ensures Elements(l[..i + 1]) == Elements(l[..i]) + {l[i]} && l[i] !in Elements(l[..i])
  {
    assert l[..i + 1] == l[..i] + [l[i]];
  }

  /** PresenceManager's report. Logins put web clients and other devices into different sets. */
  method InMemory(devices: set<Id>, webClients: set<Id>, info: map<Id, Place>, rules: Rules) returns (r: Distribution)
    requires devices !! webClients
    ensures Reports(r, MemoryKinds(devices + webClients, info, rules), devices + webClients)
  {
    hide Describes, ReportsTally, Distinct, Elements, MemoryKinds, KindOf, Add;
    ghost var ids := devices + webClients;
    ghost var kinds := MemoryKinds(ids, info, rules);
    MemoryKindsNamed(ids, info, rules);
    var listed := ListOf(devices);
    var web := ListOf(webClients);
    var online := listed + web;
    BothListed(listed, web);
    var t := NOBODY;
    NobodyDescribed(kinds);
    NoneListed(online);
    for i := 0 to |online|
      invariant Describes(t, kinds, Elements(online[..i]))
    {
      var d := online[i];
      var kind := if d in info then KindOf(rules, info[d]) else Unknown;
      NextOf(online, i);
      OneOfKind(ids, info, rules, online, i);
      AddDescribes(t, kinds, Elements(online[..i]), {d}, kind);
      t := Add(t, kind, 1);
    }
    assert online[..|online|] == online;
    r := Publish(t);
  }

  lemma BothListed(a: seq<Id>, b: seq<Id>)
    requires Distinct(a) && Distinct(b) && Elements(a) !! Elements(b)
    ensures Distinct(a + b) && Elements(a + b) == Elements(a) + Elements(b)
  {
    forall i, j | 0 <= i < j < |a + b|
      ensures (a + b)[i] != (a + b)[j]
    {
      assert (a + b)[i] in (if i < |a| then Elements(a) else Elements(b));
      assert (a + b)[j] in (if j < |a| then Elements(a) else Elements(b));
    }
  }

  lemma NoneListed(l: seq<Id>)
    ensures Elements(l[..0]) == {}
  {
  }

  lemma OneOfKind(ids: set<Id>, info: map<Id, Place>, rules: Rules, online: seq<Id>, i: nat)
    requires Elements(online) == ids && i < |online|
    ensures var d := online[i]; var kind := if d in info then KindOf(rules, info[d]) else Unknown;
            AllOf(MemoryKinds(ids, info, rules), {d}, kind) && kind != Foreign("")
  {
    assert online[i] in Elements(online);
  }

  // ---- in the table -----------------------------------------------------------------------

  datatype GeoRow = GeoRow(online: bool, place: Place)

  /** LIKE 'C-%': SQLite's LIKE folds ASCII case, so "c-" is matched as well. */
  predicate IsCloneLike(d: Id) {
    HasPrefix(d, "C-") || HasPrefix(d, "c-")
  }

  lemma CloneLikeIsLike(d: Id)
    ensures TextSearch.Like("C-%", d) <==> IsCloneLike(d)
  {
    assert "C-%"[1..] == "-%" && "-%"[1..] == "%" && "%"[1..] == "";
    if |d| >= 2 {
      assert d[1..][1..] == d[2..];
      assert TextSearch.Like("", d[2..][|d| - 2..]);
      assert TextSearch.Like("%", d[2..]);
    }
  }

  /** The rows the query selects. */
  function Selected(rows: map<Id, GeoRow>): set<Id> {
    set d | d in rows && rows[d].online && !IsCloneLike(d)
  }

  function TableKinds(rows: map<Id, GeoRow>, rules: Rules): map<Id, Kind> {
    map d | d in rows :: KindOf(rules, rows[d].place)
  }

  /** One group of the query's GROUP BY. */
  function At(rows: map<Id, GeoRow>, p: Place): set<Id> {
    set d | d in Selected(rows) && rows[d].place == p
  }

  function AtAny(rows: map<Id, GeoRow>, ps: set<Place>): set<Id> {
    set d | d in Selected(rows) && rows[d].place in ps
  }

  lemma GroupGrows(rows: map<Id, GeoRow>, ps: set<Place>, p: Place)
    requires p !in ps
    ensures AtAny(rows, ps + {p}) == AtAny(rows, ps) + At(rows, p) && AtAny(rows, ps) !! At(rows, p)
  {
    hide Selected;
  }

  lemma GroupIsOfKind(rows: map<Id, GeoRow>, rules: Rules, p: Place)
    ensures AllOf(TableKinds(rows, rules), At(rows, p), KindOf(rules, p)) && KindOf(rules, p) != Foreign("")
  {
  }

  lemma TableKindsNamed(rows: map<Id, GeoRow>, rules: Rules)
    ensures forall d :: d in TableKinds(rows, rules) ==> TableKinds(rows, rules)[d] != Foreign("")
    ensures AtAny(rows, {}) == {}
    ensures AtAny(rows, set d | d in Selected(rows) :: rows[d].place) == Selected(rows)
  {
  }

  /** DeviceDBManager's report: one result row for each distinct place, in any order. */
  method FromTable(rows: map<Id, GeoRow>, rules: Rules) returns (r: Distribution)
    ensures Reports(r, TableKinds(rows, rules), Selected(rows))
  {
    hide Describes, ReportsTally, TableKinds, KindOf, Add, AtAny, At, Selected;
    ghost var kinds := TableKinds(rows, rules);
    TableKindsNamed(rows, rules);
    NobodyDescribed(kinds);
    var places := Places(rows);
    var left, t := places, NOBODY;
    assert places - left == {};
    while left != {}
      invariant left <= places && Describes(t, kinds, AtAny(rows, places - left))
      decreases left
    {
      var p :| p in left;
      var count := |At(rows, p)|;
      GroupGrows(rows, places - left, p);
      GroupIsOfKind(rows, rules, p);
      PlaceIsTaken(rows, p);
      AddDescribes(t, kinds, AtAny(rows, places - left), At(rows, p), KindOf(rules, p));
      t := Add(t, KindOf(rules, p), count);
      assert places - (left - {p}) == places - left + {p};
      left := left - {p};
    }
    assert places - left == places;
    r := Publish(t);
  }

  function Places(rows: map<Id, GeoRow>): set<Place> {
    set d | d in Selected(rows) :: rows[d].place
  }

  lemma PlaceIsTaken(rows: map<Id, GeoRow>, p: Place)
    requires p in Places(rows)
    ensures At(rows, p) != {}
  {
    var d :| d in Selected(rows) && rows[d].place == p;
    assert d in At(rows, p);
  }

  // ---- agreement --------------------------------------------------------------------------

  /** Memory and table hold the same clients and places: every online row that is not a controller's is in the presence
      sets, with the row's place as its network information, or with none where the row's columns are empty. */
  predicate SameData(ids: set<Id>, info: map<Id, Place>, rows: map<Id, GeoRow>) {
    && ids == (set d | d in rows && rows[d].online && !IsCloneClient(d))
    && forall d :: d in ids ==> rows[d].place == if d in info then info[d] else NOWHERE
  }

  lemma SameKinds(ids: set<Id>, info: map<Id, Place>, rows: map<Id, GeoRow>, rules: Rules)
    requires SameData(ids, info, rows) && KindOf(rules, NOWHERE) == Unknown
    ensures forall d :: d in ids ==>
              d in TableKinds(rows, rules) && MemoryKinds(ids, info, rules)[d] == TableKinds(rows, rules)[d]
  {
    hide KindOf;
  }

  lemma SameDescription(t: Tally, kinds: map<Id, Kind>, kinds': map<Id, Kind>, ids: set<Id>)
    requires Describes(t, kinds, ids) && ids <= kinds'.Keys && forall d :: d in ids ==> kinds[d] == kinds'[d]
    requires forall d :: d in kinds' ==> kinds'[d] != Foreign("")
    ensures Describes(t, kinds', ids)
  {
    forall k
      ensures OfKind(kinds, ids, k) == OfKind(kinds', ids, k)
    {
    }
    forall domestic
      ensures Side(kinds, ids, domestic) == Side(kinds', ids, domestic)
    {
    }
    hide OfKind, Side, CountOk, KindFor;
  }

  lemma SameReport(r: Distribution, kinds: map<Id, Kind>, kinds': map<Id, Kind>, ids: set<Id>)
    requires Reports(r, kinds, ids) && ids <= kinds.Keys && ids <= kinds'.Keys
    requires forall d :: d in ids ==> kinds[d] == kinds'[d]
    requires forall d :: d in kinds' ==> kinds'[d] != Foreign("")
    ensures Reports(r, kinds', ids)
  {
    hide Describes, ReportsTally;
    var t :| Describes(t, kinds, ids) && ReportsTally(r, t);
    SameDescription(t, kinds, kinds', ids);
  }

  lemma ReportsTotal(r: Distribution, kinds: map<Id, Kind>, ids: set<Id>)
    requires Reports(r, kinds, ids)
    ensures r.total == |ids|
  {
    hide IsRanking, CountsNames, OfKind, Side;
  }

  /** Over the same data the per-client tally and the grouped tally give the same report, unless a client whose id
      begins with a lower-case "c-" is online: the query leaves that one out. */
  lemma ReportsAgreeIff(ids: set<Id>, info: map<Id, Place>, rows: map<Id, GeoRow>, rules: Rules, r: Distribution,
      s: Distribution)
    requires SameData(ids, info, rows) && KindOf(rules, NOWHERE) == Unknown
    requires Reports(r, MemoryKinds(ids, info, rules), ids) && Reports(s, TableKinds(rows, rules), Selected(rows))
    ensures r == s <==> forall d :: d in ids ==> !HasPrefix(d, "c-")
  {
    var sel := Selected(rows);
    assert sel <= ids;
    assert sel == ids <==> forall d :: d in ids ==> !HasPrefix(d, "c-");
    SameKinds(ids, info, rows, rules);
    TableKindsNamed(rows, rules);
    MemoryKindsNamed(ids, info, rules);
    hide Reports, SameData, KindOf, MemoryKinds, TableKinds, Selected, HasPrefix, AtAny;
    if sel == ids {
      SameReport(r, MemoryKinds(ids, info, rules), TableKinds(rows, rules), ids);
      ReportIsUnique(r, s, TableKinds(rows, rules), ids);
    } else {
      ReportsTotal(r, MemoryKinds(ids, info, rules), ids);
      ReportsTotal(s, TableKinds(rows, rules), sel);
      ProperlyFewer(sel, ids);
    }
  }

  lemma ProperlyFewer(a: set<Id>, b: set<Id>)
    requires a <= b && a != b
    ensures |a| < |b|
  {
    assert b == a + (b - a);
    assert b - a != {};
  }

  /** The published numbers: the three parts make the whole, the listed countries account for all foreign clients, the
      listed provinces for no more than the domestic ones, and nothing is listed without a client. */
  lemma PublishedPartsAddUp(r: Distribution, kinds: map<Id, Kind>, ids: set<Id>)
    requires Reports(r, kinds, ids)
    ensures r.total == r.domestic + r.foreign + r.unknown == |ids|
    ensures RowSum(r.countries) == r.foreign && RowSum(r.provinces) <= r.domestic
  {
    hide Describes, IsRanking, OfKind, Sums.Sum, RowSum;
    var t :| Describes(t, kinds, ids) && ReportsTally(r, t);
    ReportsTotal(r, kinds, ids);
    PartsAddUp(t, kinds, ids);
    RankingSum(r.countries, t.countries);
    RankingSum(r.provinces, t.provinces);
  }

  function RowSum(rows: seq<Row>): nat {
    if rows == [] then 0 else rows[0].count + RowSum(rows[1..])
  }

  lemma RankingRest(rows: seq<Row>, m: map<string, nat>)
    requires IsRanking(rows, m) && rows != []
    ensures var name := rows[0].name; name in m && m[name] == rows[0].count && IsRanking(rows[1..], m - {name})
  {
    ByRankOrders();
    HeadIsLeast(rows, ByRank());
    hide ByRank;
    var name := rows[0].name;
    assert rows[0] in rows;
    forall r
      ensures r in rows[1..] <==> r.name in m - {name} && (m - {name})[r.name] == r.count
    {
    }
  }

  lemma RankedNames(rows: seq<Row>, m: map<string, nat>)
    requires IsRanking(rows, m)
    ensures forall name :: name in m ==> Row(name, m[name]) in rows
  {
  }

  lemma {:induction false} RankingSum(rows: seq<Row>, m: map<string, nat>)
    requires IsRanking(rows, m)
    ensures RowSum(rows) == Sums.Sum(m.Keys, CountIn(m))
    decreases |rows|
  {
    if rows == [] {
      RankedNames(rows, m);
      assert m.Keys == {};
    } else {
      var name := rows[0].name;
      var rest := m - {name};
      RankingRest(rows, m);
      hide IsRanking, Sums.Sum;
      RankingSum(rows[1..], rest);
      Sums.SumRemove(m.Keys, CountIn(m), name);
      Sums.SumCongruent(rest.Keys, CountIn(rest), CountIn(m));
      assert rest.Keys == m.Keys - {name};
    }
  }
}
