/** The risk map's location search: a case-insensitive substring filter over
    the zone, incident and station fixtures, concatenated in that order and
    cut to five entries. */
module EntitySearch {
  import opened Text
  import opened Seqs

  datatype EntityKind = Zone | Incident | Station

  /** The fields of a fixture that search and selection use. */
  datatype Entity = Entity(id: string, name: string)

  /** A search hit, tagged with the collection it came from. */
  datatype SearchResult = SearchResult(kind: EntityKind, id: string, name: string)

  const MaxResults: nat := 5

  const Zones: seq<Entity> := [
    Entity("zone-1", "North Valley"),
    Entity("zone-2", "East Hills"),
    Entity("zone-3", "Central Plains"),
    Entity("zone-4", "South Basin")
  ]

  const Incidents: seq<Entity> := [
    Entity("fire-1", "Oak Ridge Fire"),
    Entity("fire-2", "Pine Valley Fire"),
    Entity("fire-3", "Mesa Point Fire")
  ]

  const Stations: seq<Entity> := [
    Entity("ws-1", "North Station"),
    Entity("ws-2", "East Station"),
    Entity("ws-3", "Central Station")
  ]

  /** Position of a collection in the fixed result order. */
  function Rank(k: EntityKind): nat {
    match k
    case Zone => 0
    case Incident => 1
    case Station => 2
  }

  predicate NameMatches(e: Entity, query: string) {
    IncludesIgnoringCase(e.name, query)
  }

  /** Tags every entity of one collection with its kind. */
  function Tag(kind: EntityKind, es: seq<Entity>): (r: seq<SearchResult>)
    ensures |r| == |es|
    ensures forall i :: 0 <= i < |r| ==> r[i] == SearchResult(kind, es[i].id, es[i].name)
    decreases |es|
  {
    if |es| == 0 then [] else [SearchResult(kind, es[0].id, es[0].name)] + Tag(kind, es[1..])
  }

  /** The entities of one collection whose name contains the query. */
  function Matching(kind: EntityKind, es: seq<Entity>, query: string): seq<SearchResult> {
    Tag(kind, Filter((e: Entity) => NameMatches(e, query), es))
  }

  /** Every match of every collection, zones first, then incidents, then
      stations, each in fixture order. */
  function AllMatches(query: string, zones: seq<Entity>, incidents: seq<Entity>, stations: seq<Entity>): seq<SearchResult> {
    Matching(Zone, zones, query) + Matching(Incident, incidents, query) + Matching(Station, stations, query)
  }

  /** Results are ordered zones, then incidents, then stations. */
  predicate RankSorted(r: seq<SearchResult>) {
    forall i, j :: 0 <= i < j < |r| ==> Rank(r[i].kind) <= Rank(r[j].kind)
  }

  /** A matched result carries the kind it was tagged with and a matching name. */
  lemma MatchingProperties(kind: EntityKind, es: seq<Entity>, query: string)
    ensures forall i :: 0 <= i < |Matching(kind, es, query)| ==>
              Matching(kind, es, query)[i].kind == kind
              && IncludesIgnoringCase(Matching(kind, es, query)[i].name, query)
  {
    var f := Filter((e: Entity) => NameMatches(e, query), es);
    assert forall i :: 0 <= i < |f| ==> NameMatches(f[i], query);
  }

  /** Three single-kind blocks in rank order concatenate to a sorted list. */
  lemma ConcatSorted(a: seq<SearchResult>, b: seq<SearchResult>, c: seq<SearchResult>)
    requires forall i :: 0 <= i < |a| ==> a[i].kind == Zone
    requires forall i :: 0 <= i < |b| ==> b[i].kind == Incident
    requires forall i :: 0 <= i < |c| ==> c[i].kind == Station
    ensures RankSorted(a + b + c)
  {
    var all := a + b + c;
    forall i, j | 0 <= i < j < |all|
      ensures Rank(all[i].kind) <= Rank(all[j].kind)
    {
      if i < |a| {
        assert all[i] == a[i];
      } else if i < |a| + |b| {
        assert all[i] == b[i - |a|];
        if j < |a| + |b| {
          assert all[j] == b[j - |a|];
        } else {
          assert all[j] == c[j - |a| - |b|];
        }
      } else {
        assert all[i] == c[i - |a| - |b|];
        assert all[j] == c[j - |a| - |b|];
      }
    }
  }

  /** Every element of the concatenated matches has a matching name and the
      list is in rank order. */
  lemma AllMatchesProperties(query: string, zones: seq<Entity>, incidents: seq<Entity>, stations: seq<Entity>)
    ensures var all := AllMatches(query, zones, incidents, stations);
            (forall i :: 0 <= i < |all| ==> IncludesIgnoringCase(all[i].name, query)) && RankSorted(all)
  {
    var a := Matching(Zone, zones, query);
    var b := Matching(Incident, incidents, query);
    var c := Matching(Station, stations, query);
    MatchingProperties(Zone, zones, query);
    MatchingProperties(Incident, incidents, query);
    MatchingProperties(Station, stations, query);
    ConcatSorted(a, b, c);
    var all := a + b + c;
    forall i | 0 <= i < |all|
      ensures IncludesIgnoringCase(all[i].name, query)
    {
      if i < |a| {
        assert all[i] == a[i];
      } else if i < |a| + |b| {
        assert all[i] == b[i - |a|];
      } else {
        assert all[i] == c[i - |a| - |b|];
      }
    }
  }

  /** `searchResults`: at most five hits, each containing the query
      case-insensitively, zones before incidents before stations. */
  function Search(query: string, zones: seq<Entity>, incidents: seq<Entity>, stations: seq<Entity>): (r: seq<SearchResult>)
    ensures |r| <= MaxResults
    ensures forall i :: 0 <= i < |r| ==> IncludesIgnoringCase(r[i].name, query)
    ensures RankSorted(r)
  {
    AllMatchesProperties(query, zones, incidents, stations);
    Take(AllMatches(query, zones, incidents, stations), MaxResults)
  }

  /** The hits are the first matches in the fixed order: a prefix of all
      matches, holding all of them when there are at most five. */
  lemma SearchIsPrefix(query: string, zones: seq<Entity>, incidents: seq<Entity>, stations: seq<Entity>)
    ensures var all := AllMatches(query, zones, incidents, stations);
            var r := Search(query, zones, incidents, stations);
            && |r| == (if |all| <= MaxResults then |all| else MaxResults)
            && (forall i :: 0 <= i < |r| ==> r[i] == all[i])
  {
  }

  /** The fixture collection a kind of result comes from. */
  function Collection(kind: EntityKind, zones: seq<Entity>, incidents: seq<Entity>, stations: seq<Entity>): seq<Entity> {
    match kind
    case Zone => zones
    case Incident => incidents
    case Station => stations
  }

  /** A matching entity of a collection is among that collection's matches. */
  lemma InMatching(kind: EntityKind, es: seq<Entity>, query: string, e: Entity)
    requires e in es && NameMatches(e, query)
    ensures SearchResult(kind, e.id, e.name) in Matching(kind, es, query)
  {
    var f := Filter((x: Entity) => NameMatches(x, query), es);
    assert e in f;
    var k :| 0 <= k < |f| && f[k] == e;
    assert Matching(kind, es, query)[k] == SearchResult(kind, e.id, e.name);
  }

  /** Every entity whose name matches is found when there are at most five
      matches in all. */
  lemma SearchComplete(query: string, zones: seq<Entity>, incidents: seq<Entity>, stations: seq<Entity>,
                       kind: EntityKind, e: Entity)
    requires |AllMatches(query, zones, incidents, stations)| <= MaxResults
    requires e in Collection(kind, zones, incidents, stations) && NameMatches(e, query)
    ensures SearchResult(kind, e.id, e.name) in Search(query, zones, incidents, stations)
  {
    InMatching(kind, Collection(kind, zones, incidents, stations), query, e);
    assert Search(query, zones, incidents, stations) == AllMatches(query, zones, incidents, stations);
  }

  /** The empty query is contained in every name, so it matches everything:
      the hits are the first five fixtures, not an empty list. */
  lemma EmptyQueryMatchesAll(zones: seq<Entity>, incidents: seq<Entity>, stations: seq<Entity>)
    ensures AllMatches("", zones, incidents, stations) ==
            Tag(Zone, zones) + Tag(Incident, incidents) + Tag(Station, stations)
  {
    forall e: Entity
      ensures NameMatches(e, "")
    {
      EmptyIncluded(ToLower(e.name));
    }
    FilterAll((e: Entity) => NameMatches(e, ""), zones);
    FilterAll((e: Entity) => NameMatches(e, ""), incidents);
    FilterAll((e: Entity) => NameMatches(e, ""), stations);
  }

  /** The first five of four zones followed by at least one incident are
      the zones and that incident. */
  lemma FirstFive(z: seq<SearchResult>, t: seq<SearchResult>, c: seq<SearchResult>, r: seq<SearchResult>)
    requires |z| == 4 && |t| >= 1
    requires |r| == 5 && forall i :: 0 <= i < 5 ==> r[i] == (z + t + c)[i]
    ensures r == z + [t[0]]
  {
    var expected := z + [t[0]];
    forall i | 0 <= i < 5
      ensures r[i] == expected[i]
    {
      if i < 4 {
        assert (z + t + c)[i] == z[i];
      } else {
        assert (z + t + c)[4] == t[0];
      }
    }
  }

  /** With four zones the empty query yields the zones and the first
      incident, as on the fixtures. */
  lemma EmptyQueryFirstFive(zones: seq<Entity>, incidents: seq<Entity>, stations: seq<Entity>)
    requires |zones| == 4 && |incidents| >= 1
    ensures Search("", zones, incidents, stations) ==
            Tag(Zone, zones) + [SearchResult(Incident, incidents[0].id, incidents[0].name)]
  {
    EmptyQueryMatchesAll(zones, incidents, stations);
    SearchIsPrefix("", zones, incidents, stations);
    FirstFive(Tag(Zone, zones), Tag(Incident, incidents), Tag(Station, stations), Search("", zones, incidents, stations));
  }

  /** On the fixtures the empty query yields the four zones and the first
      incident. */
  lemma EmptyQueryOnFixtures()
    ensures Search("", Zones, Incidents, Stations) ==
            Tag(Zone, Zones) + [SearchResult(Incident, "fire-1", "Oak Ridge Fire")]
  {
    EmptyQueryFirstFive(Zones, Incidents, Stations);
  }

  /** The search dropdown is rendered only for a non-empty query with at
      least one hit. */
  predicate DropdownShown(query: string, results: seq<SearchResult>) {
    query != "" && |results| > 0
  }
}
