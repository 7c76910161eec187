/** What the two reports publish, read off the clients' places alone. */
module GeoMeaning {
  import opened Identity
  import Orders
  import opened GeoDistribution
  import opened GeoReport

  /** The province that a client's region and location name, "" if they name none or nothing is known of the client. */
  function ProvinceOf(rules: Rules, places: map<Id, Place>, d: Id): string {
    if d in places then rules.province(places[d].region, places[d].location) else ""
  }

  function CountryOf(rules: Rules, places: map<Id, Place>, d: Id): string {
    if d in places then rules.trim(places[d].country) else ""
  }

  /** In China: a province is known, or the country is China. */
  predicate InChina(rules: Rules, places: map<Id, Place>, d: Id) {
    d in places && (ProvinceOf(rules, places, d) != "" || rules.isChina(CountryOf(rules, places, d)))
  }

  predicate Abroad(rules: Rules, places: map<Id, Place>, d: Id) {
    d in places && !InChina(rules, places, d) && CountryOf(rules, places, d) != ""
  }

  function Inside(rules: Rules, places: map<Id, Place>, ids: set<Id>): set<Id> {
    set d | d in ids && InChina(rules, places, d)
  }

  function Outside(rules: Rules, places: map<Id, Place>, ids: set<Id>): set<Id> {
    set d | d in ids && Abroad(rules, places, d)
  }

  function InProvince(rules: Rules, places: map<Id, Place>, ids: set<Id>, name: string): set<Id> {
    set d | d in ids && ProvinceOf(rules, places, d) == name
  }

  function InCountry(rules: Rules, places: map<Id, Place>, ids: set<Id>, name: string): set<Id> {
    set d | d in ids && Abroad(rules, places, d) && CountryOf(rules, places, d) == name
  }

  /** The larger count first; of equal counts the name whose first differing character is smaller, or that ends
      first. */
  ghost predicate Ranked(rows: seq<Row>) {
    forall i, j :: 0 <= i < j < |rows| ==>
      || rows[i].count > rows[j].count
      || (rows[i].count == rows[j].count && Orders.Precedes(rows[i].name, rows[j].name))
  }

  /** The report says how many clients there are, how many in China, abroad and at no known place, and lists each
      province and each foreign country that has a client, with the number of its clients. */
  ghost predicate Says(r: Distribution, rules: Rules, places: map<Id, Place>, ids: set<Id>) {
    && r.total == |ids|
    && r.domestic == |Inside(rules, places, ids)|
    && r.foreign == |Outside(rules, places, ids)|
    && r.unknown == |ids - Inside(rules, places, ids) - Outside(rules, places, ids)|
    && Ranked(r.provinces) && Ranked(r.countries)
    && (forall row :: row in r.provinces
           <==> row.name != "" && row.count == |InProvince(rules, places, ids, row.name)| > 0)
    && (forall row :: row in r.countries
           <==> row.name != "" && row.count == |InCountry(rules, places, ids, row.name)| > 0)
  }

  /** The kinds that a tally counts by. */
  ghost predicate KindsFit(kinds: map<Id, Kind>, rules: Rules, places: map<Id, Place>, ids: set<Id>) {
    && ids <= kinds.Keys
    && forall d :: d in ids ==> kinds[d] == if d in places then KindOf(rules, places[d]) else Unknown
  }

  lemma KindsMean(kinds: map<Id, Kind>, rules: Rules, places: map<Id, Place>, ids: set<Id>, d: Id)
    requires KindsFit(kinds, rules, places, ids) && d in ids
    ensures kinds[d].Domestic? <==> InChina(rules, places, d)
    ensures kinds[d].Foreign? <==> Abroad(rules, places, d)
    ensures kinds[d].Domestic? ==> kinds[d].province == ProvinceOf(rules, places, d)
    ensures ProvinceOf(rules, places, d) != "" ==> kinds[d].Domestic?
    ensures kinds[d].Foreign? ==> kinds[d].country == CountryOf(rules, places, d) != ""
  {
  }

  lemma SidesMean(kinds: map<Id, Kind>, rules: Rules, places: map<Id, Place>, ids: set<Id>)
    requires KindsFit(kinds, rules, places, ids)
    ensures Side(kinds, ids, true) == Inside(rules, places, ids)
    ensures Side(kinds, ids, false) == Outside(rules, places, ids)
    ensures OfKind(kinds, ids, Unknown) == ids - Inside(rules, places, ids) - Outside(rules, places, ids)
  {
    hide InChina, Abroad, KindOf;
    forall d | d in ids
      ensures kinds[d].Domestic? <==> InChina(rules, places, d)
      ensures kinds[d].Foreign? <==> Abroad(rules, places, d)
    {
      KindsMean(kinds, rules, places, ids, d);
    }
  }

  lemma NamedMean(kinds: map<Id, Kind>, rules: Rules, places: map<Id, Place>, ids: set<Id>, name: string)
    requires KindsFit(kinds, rules, places, ids) && name != ""
    ensures OfKind(kinds, ids, KindFor(Provinces, name)) == InProvince(rules, places, ids, name)
    ensures OfKind(kinds, ids, KindFor(Countries, name)) == InCountry(rules, places, ids, name)
  {
    hide InChina, Abroad, KindOf, ProvinceOf, CountryOf;
    forall d | d in ids
      ensures kinds[d] == Domestic(name) <==> ProvinceOf(rules, places, d) == name
      ensures kinds[d] == Foreign(name) <==> Abroad(rules, places, d) && CountryOf(rules, places, d) == name
    {
      KindsMean(kinds, rules, places, ids, d);
    }
  }

  lemma RowsMean(h: Heading, rows: seq<Row>, m: map<string, nat>, kinds: map<Id, Kind>, ids: set<Id>, row: Row)
    requires IsRanking(rows, m) && CountsNames(h, m, kinds, ids)
    ensures row in rows <==> row.count == |OfKind(kinds, ids, KindFor(h, row.name))| > 0
  {
    hide OfKind, KindFor;
    assert CountOk(m, row.name, OfKind(kinds, ids, KindFor(h, row.name)));
  }

  lemma RankedMeans(rows: seq<Row>, m: map<string, nat>)
    requires IsRanking(rows, m)
    ensures Ranked(rows)
  {
    hide Orders.StringLess, Orders.Precedes;
    forall i, j | 0 <= i < j < |rows|
      ensures RanksBefore(rows[i], rows[j])
    {
      assert ByRank()(rows[i], rows[j]);
    }
    forall a: string, b: string
      ensures Orders.StringLess(a, b) ==> Orders.Precedes(a, b)
    {
      Orders.StringLessMeans(a, b);
    }
  }

  lemma NobodyNameless(kinds: map<Id, Kind>, ids: set<Id>)
    requires forall d :: d in kinds ==> kinds[d] != Foreign("")
    ensures OfKind(kinds, ids, KindFor(Provinces, "")) == {} == OfKind(kinds, ids, KindFor(Countries, ""))
  {
  }

  lemma ReportSays(r: Distribution, kinds: map<Id, Kind>, rules: Rules, places: map<Id, Place>, ids: set<Id>)
    requires Reports(r, kinds, ids) && KindsFit(kinds, rules, places, ids)
    ensures Says(r, rules, places, ids)
  {
    hide OfKind, KindFor, KindsFit, CountsNames, IsRanking, Ranked, Side, Inside, Outside, InProvince, InCountry;
    var t :| Describes(t, kinds, ids) && ReportsTally(r, t);
    SidesMean(kinds, rules, places, ids);
    RankedMeans(r.provinces, t.provinces);
    RankedMeans(r.countries, t.countries);
    NobodyNameless(kinds, ids);
    forall row
      ensures row in r.provinces <==> row.name != "" && row.count == |InProvince(rules, places, ids, row.name)| > 0
      ensures row in r.countries <==> row.name != "" && row.count == |InCountry(rules, places, ids, row.name)| > 0
    {
      RowsMean(Provinces, r.provinces, t.provinces, kinds, ids, row);
      RowsMean(Countries, r.countries, t.countries, kinds, ids, row);
      if row.name != "" {
        NamedMean(kinds, rules, places, ids, row.name);
      }
    }
  }

  /** The report made in memory is about the online clients and what their network information says. */
  lemma InMemorySays(r: Distribution, ids: set<Id>, info: map<Id, Place>, rules: Rules)
    requires Reports(r, MemoryKinds(ids, info, rules), ids)
    ensures Says(r, rules, info, ids)
  {
    hide Reports, KindOf, Says;
    ReportSays(r, MemoryKinds(ids, info, rules), rules, info, ids);
  }

  /** The report made from the table is about the rows that are online and whose id does not begin with "C-" or "c-",
      and what their columns say. */
  lemma FromTableSays(r: Distribution, rows: map<Id, GeoRow>, rules: Rules)
    requires Reports(r, TableKinds(rows, rules), Selected(rows))
    ensures Says(r, rules, map d | d in rows :: rows[d].place,
                 set d | d in rows && rows[d].online && !("C-" <= d) && !("c-" <= d))
  {
    hide Reports, KindOf, Says;
    var places, ids := map d | d in rows :: rows[d].place,
                       set d | d in rows && rows[d].online && !("C-" <= d) && !("c-" <= d);
    assert Selected(rows) == ids;
    ReportSays(r, TableKinds(rows, rules), rules, places, ids);
  }
}
