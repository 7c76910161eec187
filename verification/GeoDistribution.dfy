/** Where the online clients are: the tally over the presence sets in memory and the grouped query over the table. */
module GeoDistribution {
  import opened Identity
  import Sums

  datatype Place = Place(country: string, region: string, location: string)

  const NOWHERE := Place("", "", "")

  /** The classifier both tallies use: the province a region and location name ("" if none), trimming, and the test
      for a country name that means China. */
  datatype Rules = Rules(province: (string, string) -> string, trim: string -> string, isChina: string -> bool)

  /** Domestic("") is a domestic client whose province is not known. */
  datatype Kind = Domestic(province: string) | Foreign(country: string) | Unknown

  function KindOf(r: Rules, p: Place): Kind {
    var province, country := r.province(p.region, p.location), r.trim(p.country);
    if province != "" then Domestic(province)
    else if r.isChina(country) then Domestic("")
    else if country != "" then Foreign(country)
    else Unknown
  }

  datatype Tally = Tally(total: nat, domestic: nat, foreign: nat, unknown: nat,
                         provinces: map<string, nat>, countries: map<string, nat>)

  const NOBODY := Tally(0, 0, 0, 0, map[], map[])

  function Raise(m: map<string, nat>, name: string, n: nat): map<string, nat> {
    m[name := if name in m then m[name] + n else n]
  }

  /** One pass through either counting loop, for n clients of one kind. */
  function Add(t: Tally, k: Kind, n: nat): Tally {
    var u := t.(total := t.total + n);
    match k
    case Domestic(p) => u.(domestic := t.domestic + n,
        provinces := if p == "" then t.provinces else Raise(t.provinces, p, n))
    case Foreign(c) => u.(foreign := t.foreign + n, countries := Raise(t.countries, c, n))
    case Unknown => u.(unknown := t.unknown + n)
  }

  // ---- what a tally means -----------------------------------------------------------------

  function OfKind(kinds: map<Id, Kind>, ids: set<Id>, k: Kind): set<Id> {
    set d | d in ids && d in kinds && kinds[d] == k
  }

  predicate OnSide(k: Kind, domestic: bool) {
    if domestic then k.Domestic? else k.Foreign?
  }

  function Side(kinds: map<Id, Kind>, ids: set<Id>, domestic: bool): set<Id> {
    set d | d in ids && d in kinds && OnSide(kinds[d], domestic)
  }

  datatype Heading = Provinces | Countries

  /** The kind a listed name counts. The empty name is never listed; it maps to a kind nobody has. */
  function KindFor(h: Heading, name: string): Kind {
    if h.Countries? || name == "" then Foreign(name) else Domestic(name)
  }

  predicate CountOk(m: map<string, nat>, name: string, s: set<Id>) {
    (name in m <==> s != {}) && (name in m ==> m[name] == |s|)
  }

  ghost predicate CountsNames(h: Heading, m: map<string, nat>, kinds: map<Id, Kind>, ids: set<Id>) {
    forall name :: CountOk(m, name, OfKind(kinds, ids, KindFor(h, name)))
  }

  /** Every number is the number of clients it stands for, and exactly the names that occur are listed. */
  ghost predicate Describes(t: Tally, kinds: map<Id, Kind>, ids: set<Id>) {
    && ids <= kinds.Keys && (forall d :: d in kinds ==> kinds[d] != Foreign(""))
    && t.total == |ids| && t.unknown == |OfKind(kinds, ids, Unknown)|
    && t.domestic == |Side(kinds, ids, true)| && t.foreign == |Side(kinds, ids, false)|
    && CountsNames(Provinces, t.provinces, kinds, ids)
    && CountsNames(Countries, t.countries, kinds, ids)
  }

  lemma SameCounts(h: Heading, m: map<string, nat>, n: map<string, nat>, kinds: map<Id, Kind>, ids: set<Id>)
    requires CountsNames(h, m, kinds, ids) && CountsNames(h, n, kinds, ids)
    ensures m == n
  {
    hide OfKind, KindFor;
    forall name
      ensures name in m <==> name in n
      ensures name in m ==> m[name] == n[name]
    {
      assert CountOk(m, name, OfKind(kinds, ids, KindFor(h, name)));
      assert CountOk(n, name, OfKind(kinds, ids, KindFor(h, name)));
    }
  }

  /** The numbers say all there is: one tally at most describes the same clients. */
  lemma DescribesOne(t: Tally, u: Tally, kinds: map<Id, Kind>, ids: set<Id>)
    requires Describes(t, kinds, ids) && Describes(u, kinds, ids)
    ensures t == u
  {
    hide OfKind, CountsNames;
    SameCounts(Provinces, t.provinces, u.provinces, kinds, ids);
    SameCounts(Countries, t.countries, u.countries, kinds, ids);
  }

  // ---- counting ---------------------------------------------------------------------------

  predicate AllOf(kinds: map<Id, Kind>, g: set<Id>, k: Kind) {
    forall d :: d in g ==> d in kinds && kinds[d] == k
  }

  lemma OfKindGrows(kinds: map<Id, Kind>, ids: set<Id>, g: set<Id>, k: Kind, j: Kind)
    requires ids !! g && AllOf(kinds, g, k)
    ensures OfKind(kinds, ids + g, j) == if j == k then OfKind(kinds, ids, j) + g else OfKind(kinds, ids, j)
    ensures |OfKind(kinds, ids + g, j)| == |OfKind(kinds, ids, j)| + if j == k then |g| else 0
  {
    if j == k {
      assert OfKind(kinds, ids + g, j) == OfKind(kinds, ids, j) + g;
      assert OfKind(kinds, ids, j) !! g;
    } else {
      assert OfKind(kinds, ids + g, j) == OfKind(kinds, ids, j);
    }
  }

  lemma NamesStay(h: Heading, m: map<string, nat>, kinds: map<Id, Kind>, ids: set<Id>, g: set<Id>, k: Kind)
    requires ids !! g && AllOf(kinds, g, k)
    requires CountsNames(h, m, kinds, ids) && forall name :: KindFor(h, name) != k
    ensures CountsNames(h, m, kinds, ids + g)
  {
    hide OfKind, KindFor, AllOf, CountOk;
    forall name
      ensures CountOk(m, name, OfKind(kinds, ids + g, KindFor(h, name)))
    {
      assert CountOk(m, name, OfKind(kinds, ids, KindFor(h, name)));
      OfKindGrows(kinds, ids, g, k, KindFor(h, name));
    }
  }

  lemma KindForIsInjective(h: Heading, a: string, b: string)
    ensures KindFor(h, a) == KindFor(h, b) <==> a == b
  {
  }

  lemma NamesGrow(h: Heading, m: map<string, nat>, kinds: map<Id, Kind>, ids: set<Id>, g: set<Id>, name: string)
    requires ids !! g && g != {} && AllOf(kinds, g, KindFor(h, name))
    requires CountsNames(h, m, kinds, ids)
    ensures CountsNames(h, Raise(m, name, |g|), kinds, ids + g)
  {
    hide OfKind, KindFor, AllOf;
    forall other
      ensures CountOk(Raise(m, name, |g|), other, OfKind(kinds, ids + g, KindFor(h, other)))
    {
      assert CountOk(m, other, OfKind(kinds, ids, KindFor(h, other)));
      OfKindGrows(kinds, ids, g, KindFor(h, name), KindFor(h, other));
      KindForIsInjective(h, name, other);
    }
  }

  lemma SideGrows(kinds: map<Id, Kind>, ids: set<Id>, g: set<Id>, k: Kind, domestic: bool)
    requires ids !! g && AllOf(kinds, g, k)
    ensures |Side(kinds, ids + g, domestic)| == |Side(kinds, ids, domestic)| + if OnSide(k, domestic) then |g| else 0
  {
    hide OnSide;
    var was, now := Side(kinds, ids, domestic), Side(kinds, ids + g, domestic);
    if OnSide(k, domestic) {
      assert now == was + g;
      assert was !! g;
    } else {
      assert now == was;
    }
  }

  /** Counting a group of clients of one kind at once is right, whether the group is one client or all of a place. */
  lemma AddDescribes(t: Tally, kinds: map<Id, Kind>, ids: set<Id>, g: set<Id>, k: Kind)
    requires Describes(t, kinds, ids) && ids !! g && g != {} && AllOf(kinds, g, k) && k != Foreign("")
    ensures Describes(Add(t, k, |g|), kinds, ids + g)
  {
    hide OfKind, CountsNames, Side, Raise, KindFor;
    OfKindGrows(kinds, ids, g, k, Unknown);
    SideGrows(kinds, ids, g, k, true);
    SideGrows(kinds, ids, g, k, false);
    NameKinds();
    if k.Domestic? && k.province != "" {
      NamesGrow(Provinces, t.provinces, kinds, ids, g, k.province);
    } else {
      NamesStay(Provinces, t.provinces, kinds, ids, g, k);
    }
    if k.Foreign? {
      NamesGrow(Countries, t.countries, kinds, ids, g, k.country);
    } else {
      NamesStay(Countries, t.countries, kinds, ids, g, k);
    }
    assert |ids + g| == |ids| + |g|;
  }

  lemma NameKinds()
    ensures forall name :: KindFor(Countries, name) == Foreign(name)
    ensures forall name :: KindFor(Provinces, name) == if name == "" then Foreign("") else Domestic(name)
  {
  }

  // ---- sums -------------------------------------------------------------------------------

  function CountIn(m: map<string, nat>): string -> int {
    name => if name in m then m[name] else 0
  }

  function Listed(h: Heading, kinds: map<Id, Kind>, ids: set<Id>, names: set<string>): set<Id> {
    set name, d | name in names && d in OfKind(kinds, ids, KindFor(h, name)) :: d
  }

  lemma ListedSplits(h: Heading, kinds: map<Id, Kind>, ids: set<Id>, names: set<string>, name: string)
    requires name in names
    ensures var here, there := OfKind(kinds, ids, KindFor(h, name)), Listed(h, kinds, ids, names - {name});
            Listed(h, kinds, ids, names) == here + there && here !! there
  {
    hide KindFor;
    var here, there := OfKind(kinds, ids, KindFor(h, name)), Listed(h, kinds, ids, names - {name});
    forall d | d in there
      ensures d !in here
    {
      var other :| other in names - {name} && d in OfKind(kinds, ids, KindFor(h, other));
      KindForIsInjective(h, name, other);
    }
    assert Listed(h, kinds, ids, names) <= here + there;
    assert Listed(h, kinds, ids, names) >= here + there;
  }

  lemma {:induction false} NamesPartition(h: Heading, m: map<string, nat>, kinds: map<Id, Kind>, ids: set<Id>,
      names: set<string>)
    requires CountsNames(h, m, kinds, ids) && names <= m.Keys
    ensures Sums.Sum(names, CountIn(m)) == |Listed(h, kinds, ids, names)|
    decreases names
  {
    if names == {} {
      assert Listed(h, kinds, ids, names) == {};
    } else {
      hide OfKind, KindFor, Listed, Sums.Sum;
      var name :| name in names;
      NamesPartition(h, m, kinds, ids, names - {name});
      Sums.SumRemove(names, CountIn(m), name);
      ListedSplits(h, kinds, ids, names, name);
      assert CountOk(m, name, OfKind(kinds, ids, KindFor(h, name)));
    }
  }

  lemma CountriesListForeign(m: map<string, nat>, kinds: map<Id, Kind>, ids: set<Id>)
    requires CountsNames(Countries, m, kinds, ids)
    ensures Listed(Countries, kinds, ids, m.Keys) == Side(kinds, ids, false)
  {
    forall d | d in Side(kinds, ids, false)
      ensures d in Listed(Countries, kinds, ids, m.Keys)
    {
      var name := kinds[d].country;
      assert d in OfKind(kinds, ids, KindFor(Countries, name));
      assert CountOk(m, name, OfKind(kinds, ids, KindFor(Countries, name)));
    }
  }

  lemma ProvincesListDomestic(m: map<string, nat>, kinds: map<Id, Kind>, ids: set<Id>)
    requires CountsNames(Provinces, m, kinds, ids) && forall d :: d in kinds ==> kinds[d] != Foreign("")
    ensures var listed, plain := Listed(Provinces, kinds, ids, m.Keys), OfKind(kinds, ids, Domestic(""));
            Side(kinds, ids, true) == listed + plain && listed !! plain
  {
    var listed, plain := Listed(Provinces, kinds, ids, m.Keys), OfKind(kinds, ids, Domestic(""));
    forall d | d in Side(kinds, ids, true)
      ensures d in listed + plain
    {
      var name := kinds[d].province;
      if name != "" {
        assert d in OfKind(kinds, ids, KindFor(Provinces, name));
        assert CountOk(m, name, OfKind(kinds, ids, KindFor(Provinces, name)));
      }
    }
  }

  /** The parts add up: every client is domestic, foreign or unknown; the countries' counts sum to the foreign clients;
      the provinces' counts sum to the domestic clients whose province is known. */
  lemma PartsAddUp(t: Tally, kinds: map<Id, Kind>, ids: set<Id>)
    requires Describes(t, kinds, ids)
    ensures t.total == t.domestic + t.foreign + t.unknown
    ensures Sums.Sum(t.countries.Keys, CountIn(t.countries)) == t.foreign
    ensures Sums.Sum(t.provinces.Keys, CountIn(t.provinces)) + |OfKind(kinds, ids, Domestic(""))| == t.domestic
  {
    SidesPartition(kinds, ids);
    hide OfKind, Side, Listed, CountsNames, KindFor, Sums.Sum;
    NamesPartition(Countries, t.countries, kinds, ids, t.countries.Keys);
    CountriesListForeign(t.countries, kinds, ids);
    NamesPartition(Provinces, t.provinces, kinds, ids, t.provinces.Keys);
    ProvincesListDomestic(t.provinces, kinds, ids);
  }

  lemma SidesPartition(kinds: map<Id, Kind>, ids: set<Id>)
    requires ids <= kinds.Keys
    ensures |ids| == |Side(kinds, ids, true)| + |Side(kinds, ids, false)| + |OfKind(kinds, ids, Unknown)|
  {
    var dom, fgn, unk := Side(kinds, ids, true), Side(kinds, ids, false), OfKind(kinds, ids, Unknown);
    assert ids == dom + fgn + unk && dom !! fgn && dom + fgn !! unk;
  }
}
