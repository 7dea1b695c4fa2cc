/**
 * The catalogue of demonstration lakes offered by the dashboard's site
 * selector, with the display-name lookup and the free-text site search.
 */
module DemoSites {
  import opened Numerics
  import Text

  /** The two expected-risk labels the catalogue uses. */
  const HighRisk: string := "HIGH RISK"
  const LowRisk: string := "LOW RISK"

  /** One catalogue entry; `description` is optional in the catalogue's schema. */
  datatype Site = Site(
    name: string,
    city: string,
    country: string,
    lat: real,
    lon: real,
    description: Option<string>,
    expectedRisk: string)

  /**
   * The catalogue as (key, site) pairs, in declaration order (the order a
   * dict keeps), with the 24 description texts supplied by `descriptions`.
   * Facts about keys, coordinates and labels are proved for any texts.
   */
  function CatalogueOf(descriptions: seq<string>): (sites: seq<(string, Site)>)
    ensures |sites| == 24
    ensures Keys(sites) == SiteKeys
  {
    [
      ("lake_erie", Site("Lake Erie — Western Basin", "Toledo", "USA", 41.6833, -82.8833,
        DescriptionAt(descriptions, 0),
        HighRisk)),
      ("lake_okeechobee", Site("Lake Okeechobee — Florida", "Okeechobee", "USA", 26.95, -80.8,
        DescriptionAt(descriptions, 1),
        HighRisk)),
      ("chesapeake_bay", Site("Chesapeake Bay — Maryland", "Baltimore", "USA", 38.56, -76.08,
        DescriptionAt(descriptions, 2),
        HighRisk)),
      ("lake_champlain", Site("Lake Champlain — Vermont", "Burlington", "USA", 44.53, -73.34,
        DescriptionAt(descriptions, 3),
        HighRisk)),
      ("lake_winnipeg", Site("Lake Winnipeg — Manitoba", "Winnipeg", "Canada", 51.5, -96.5,
        DescriptionAt(descriptions, 4),
        HighRisk)),
      ("lake_superior", Site("Lake Superior — Great Lakes", "Duluth", "USA", 47.5, -88.0,
        DescriptionAt(descriptions, 5),
        LowRisk)),
      ("lake_tahoe", Site("Lake Tahoe — California/Nevada", "South Lake Tahoe", "USA", 39.0968, -120.0324,
        DescriptionAt(descriptions, 6),
        LowRisk)),
      ("lake_zurich", Site("Lake Zurich — Switzerland", "Zurich", "Switzerland", 47.3, 8.5833,
        DescriptionAt(descriptions, 7),
        LowRisk)),
      ("lake_balaton", Site("Lake Balaton — Hungary", "Balatonfüred", "Hungary", 46.85, 17.75,
        DescriptionAt(descriptions, 8),
        HighRisk)),
      ("baltic_sea_gotland", Site("Baltic Sea — Gulf of Finland", "Helsinki", "Finland", 59.8, 24.0,
        DescriptionAt(descriptions, 9),
        HighRisk)),
      ("lake_geneva", Site("Lake Geneva — Switzerland/France", "Geneva", "Switzerland", 46.45, 6.5,
        DescriptionAt(descriptions, 10),
        LowRisk)),
      ("lough_neagh", Site("Lough Neagh — Northern Ireland", "Belfast", "UK", 54.62, -6.39,
        DescriptionAt(descriptions, 11),
        HighRisk)),
      ("lago_di_garda", Site("Lake Garda — Italy", "Verona", "Italy", 45.65, 10.65,
        DescriptionAt(descriptions, 12),
        LowRisk)),
      ("lake_taihu", Site("Lake Taihu — China", "Wuxi", "China", 31.2333, 120.1333,
        DescriptionAt(descriptions, 13),
        HighRisk)),
      ("lake_biwa", Site("Lake Biwa — Japan", "Otsu", "Japan", 35.25, 136.1,
        DescriptionAt(descriptions, 14),
        LowRisk)),
      ("dal_lake", Site("Dal Lake — Kashmir, India", "Srinagar", "India", 34.11, 74.86,
        DescriptionAt(descriptions, 15),
        HighRisk)),
      ("lake_baikal", Site("Lake Baikal — Siberia", "Irkutsk", "Russia", 53.5, 108.0,
        DescriptionAt(descriptions, 16),
        LowRisk)),
      ("chilika_lake", Site("Chilika Lake — Odisha, India", "Puri", "India", 19.72, 85.32,
        DescriptionAt(descriptions, 17),
        HighRisk)),
      ("lake_victoria", Site("Lake Victoria — East Africa", "Kampala", "Uganda", -1.0, 33.0,
        DescriptionAt(descriptions, 18),
        HighRisk)),
      ("lake_tanganyika", Site("Lake Tanganyika — East Africa", "Bujumbura", "Burundi", -5.5, 29.5,
        DescriptionAt(descriptions, 19),
        LowRisk)),
      ("lago_rodrigo_de_freitas", Site("Rodrigo de Freitas Lagoon — Rio de Janeiro", "Rio de Janeiro", "Brazil", -22.97, -43.21,
        DescriptionAt(descriptions, 20),
        HighRisk)),
      ("lake_titicaca", Site("Lake Titicaca — Peru/Bolivia", "Puno", "Peru", -15.84, -69.35,
        DescriptionAt(descriptions, 21),
        HighRisk)),
      ("murray_river", Site("Murray River — South Australia", "Adelaide", "Australia", -34.77, 139.5,
        DescriptionAt(descriptions, 22),
        HighRisk)),
      ("lake_taupo", Site("Lake Taupo — New Zealand", "Taupo", "New Zealand", -38.77, 175.9,
        DescriptionAt(descriptions, 23),
        LowRisk))
    ]
  }

  /** The `k`-th description text, absent when `descriptions` is too short. */
  function DescriptionAt(descriptions: seq<string>, k: nat): (r: Option<string>)
    ensures r.Some? <==> k < |descriptions|
  {
    if k < |descriptions| then Some(descriptions[k]) else None
  }

  /** The catalogue's keys, in catalogue order. */
  const SiteKeys: seq<string> := [
    "lake_erie",
    "lake_okeechobee",
    "chesapeake_bay",
    "lake_champlain",
    "lake_winnipeg",
    "lake_superior",
    "lake_tahoe",
    "lake_zurich",
    "lake_balaton",
    "baltic_sea_gotland",
    "lake_geneva",
    "lough_neagh",
    "lago_di_garda",
    "lake_taihu",
    "lake_biwa",
    "dal_lake",
    "lake_baikal",
    "chilika_lake",
    "lake_victoria",
    "lake_tanganyika",
    "lago_rodrigo_de_freitas",
    "lake_titicaca",
    "murray_river",
    "lake_taupo"
  ]

  /** The description of each catalogue site, in catalogue order. */
  const Descriptions: seq<string> := [
    "Historically prone to massive cyanobacteria blooms fed by agricultural runoff from the Maumee River watershed. HIGH risk in summer months.",
    "Florida's largest freshwater lake with recurring toxic algal blooms driven by agricultural phosphorus runoff and warm tropical waters.",
    "Largest estuary in the US, affected by nutrient pollution from agricultural and urban sources causing seasonal algal blooms.",
    "Major freshwater lake with increasing cyanobacteria bloom events, particularly in Missisquoi Bay. Agricultural runoff is a key driver.",
    "One of Canada's largest lakes, experiencing massive algal blooms from agricultural nutrient loading, sometimes visible from space.",
    "The largest Great Lake by surface area. Cold, deep, and oligotrophic — generally low bloom risk.",
    "Famous for exceptional clarity. One of the deepest lakes in the US with very low nutrient levels.",
    "Well-managed European lake with strong water quality monitoring. Generally low bloom risk due to strict nutrient controls.",
    "Central Europe's largest freshwater lake. Shallow and warm in summer, historically affected by eutrophication since the 1980s.",
    "Brackish sea with chronic eutrophication. Massive summer cyanobacteria blooms are frequent, covering hundreds of km².",
    "Western Europe's largest lake. Well-monitored with recovery from past eutrophication; moderate bloom risk.",
    "Largest lake in the British Isles, experiencing worsening blue-green algal blooms from agricultural phosphorus.",
    "Italy's largest lake. Deep subalpine lake with generally good quality but increasing warming pressure.",
    "One of China's largest freshwater lakes, subject to recurring severe cyanobacteria blooms driven by urbanization and agriculture.",
    "Japan's largest freshwater lake, crucial water supply for Kyoto/Osaka. Monitoring shows increasing temperature trends.",
    "Iconic urban lake suffering severe eutrophication from sewage and agricultural runoff. High bloom risk year-round.",
    "World's deepest and oldest freshwater lake. Recently experiencing concerning Spirogyra algae blooms near shorelines.",
    "Asia's largest brackish water lagoon. Rich biodiversity but increasing eutrophication from river inflows.",
    "Africa's largest lake. Severely affected by water hyacinth and cyanobacteria blooms from untreated sewage and runoff.",
    "World's second deepest lake. Generally oligotrophic but warming rapidly, threatening its unique deep-water ecosystem.",
    "Urban coastal lagoon in Rio famous for fish kills from algal blooms and low dissolved oxygen. Heavy pollution.",
    "World's highest navigable lake at 3,812m elevation. Parts of Puno Bay severely polluted with algal growth.",
    "Australia's longest river, historically affected by massive blue-green algal blooms stretching over 1000km.",
    "New Zealand's largest lake, known for exceptional water clarity. Volcanic crater lake with very low nutrient levels."
  ]

  /** `DEMO_SITES`. */
  const Catalogue: seq<(string, Site)> := CatalogueOf(Descriptions)

  /** The keys of `sites`, in order. */
  function Keys(sites: seq<(string, Site)>): (ks: seq<string>)
    ensures |ks| == |sites|
    ensures forall i :: 0 <= i < |sites| ==> ks[i] == sites[i].0
  {
    seq(|sites|, i requires 0 <= i < |sites| => sites[i].0)
  }

  /** No key occurs twice. */
  predicate DistinctKeys(sites: seq<(string, Site)>)
  {
    forall i, j :: 0 <= i < j < |sites| ==> sites[i].0 != sites[j].0
  }

  /** `x` lies in `[-bound, bound]`. */
  predicate Within(x: real, bound: real)
  {
    -bound <= x <= bound
  }

  /** The site has a description and one of the two expected-risk labels. */
  predicate Labelled(s: Site)
  {
    s.description.Some? && (s.expectedRisk == HighRisk || s.expectedRisk == LowRisk)
  }

  /** The catalogue's 24 keys are pairwise distinct. */
  lemma SiteKeysDistinct()
    ensures forall i, j :: 0 <= i < j < |SiteKeys| ==> SiteKeys[i] != SiteKeys[j]
  {
  }

  /** Every site of the catalogue is stored under its own key. */
  lemma CatalogueKeysDistinct(descriptions: seq<string>)
    ensures DistinctKeys(CatalogueOf(descriptions))
  {
    var sites := CatalogueOf(descriptions);
    SiteKeysDistinct();
    assert forall i :: 0 <= i < 24 ==> sites[i].0 == Keys(sites)[i];
  }

  /** Every site lies at a valid latitude. */
  lemma CatalogueLatitudesValid(descriptions: seq<string>)
    ensures forall i :: 0 <= i < 24 ==> Within(CatalogueOf(descriptions)[i].1.lat, 90.0)
  {
  }

  /** Every site lies at a valid longitude. */
  lemma CatalogueLongitudesValid(descriptions: seq<string>)
    ensures forall i :: 0 <= i < 24 ==> Within(CatalogueOf(descriptions)[i].1.lon, 180.0)
  {
  }

  /** Every site carries one of the two expected-risk labels and, given 24 texts, a description. */
  lemma CatalogueLabelled(descriptions: seq<string>)
    requires |descriptions| == 24
    ensures forall i :: 0 <= i < 24 ==> Labelled(CatalogueOf(descriptions)[i].1)
  {
  }

  /** `DEMO_SITES[key]`: the site stored under `key`, or `None` where the dict raises `KeyError`. */
  function Lookup(sites: seq<(string, Site)>, key: string): (r: Option<Site>)
    ensures r.None? <==> forall i :: 0 <= i < |sites| ==> sites[i].0 != key
    ensures r.Some? ==> exists i :: 0 <= i < |sites| && sites[i] == (key, r.value)
  {
    if |sites| == 0 then None
    else if sites[0].0 == key then Some(sites[0].1)
    else
      var r := Lookup(sites[1..], key);
      assert forall i :: 1 <= i < |sites| ==> sites[i] == sites[1..][i - 1];
      r
  }

  /** With distinct keys the lookup finds the one entry that carries the key. */
  lemma LookupFindsEntry(sites: seq<(string, Site)>, i: int)
    requires DistinctKeys(sites)
    requires 0 <= i < |sites|
    ensures Lookup(sites, sites[i].0) == Some(sites[i].1)
  {
    var r := Lookup(sites, sites[i].0);
    var j :| 0 <= j < |sites| && sites[j] == (sites[i].0, r.value);
    assert j == i;
  }

  /** The selector label of a site: "City, Country — Site Name". */
  function DisplayName(s: Site): string
  {
    s.city + ", " + s.country + " — " + s.name
  }

  /**
   * `get_site_display_name` over `sites` (the dashboard passes `Catalogue`):
   * "City, Country — Site Name" for a known key, `None` for a key the
   * catalogue does not hold.
   */
  function GetSiteDisplayName(sites: seq<(string, Site)>, key: string): (r: Option<string>)
    ensures r.None? <==> key !in Keys(sites)
    ensures r.Some? ==> exists i :: 0 <= i < |sites| && sites[i].0 == key && r.value == DisplayName(sites[i].1)
  {
    match Lookup(sites, key)
    case None => None
    case Some(s) => Some(DisplayName(s))
  }

  /**
   * The lower-cased text a query is matched against: city, country, name,
   * description (empty when absent) and key, joined by single spaces.
   */
  function Searchable(key: string, s: Site): string
  {
    Text.Lower(s.city + " " + s.country + " " + s.name + " " + s.description.GetOr("") + " " + key)
  }

  /** A normalised (lower-cased, stripped) query matches an entry. */
  predicate Matches(q: string, entry: (string, Site))
  {
    Text.Contains(q, Searchable(entry.0, entry.1))
  }

  /** The positions of the entries `q` matches, in increasing order. */
  function MatchingPositions(sites: seq<(string, Site)>, q: string): (ix: seq<int>)
    ensures forall j, k :: 0 <= j < k < |ix| ==> ix[j] < ix[k]
    ensures forall i :: i in ix <==> 0 <= i < |sites| && Matches(q, sites[i])
  {
    if |sites| == 0 then []
    else
      var n := |sites| - 1;
      var prior := MatchingPositions(sites[..n], q);
      assert forall i :: 0 <= i < n ==> sites[..n][i] == sites[i];
      assert forall j :: 0 <= j < |prior| ==> prior[j] in prior;
      if Matches(q, sites[n]) then prior + [n] else prior
  }

  /** The keys of the entries `q` matches, in catalogue order. */
  function Filter(sites: seq<(string, Site)>, q: string): (ks: seq<string>)
    ensures var ix := MatchingPositions(sites, q);
      |ks| == |ix| && forall j :: 0 <= j < |ix| ==> 0 <= ix[j] < |sites| && ks[j] == sites[ix[j]].0
  {
    if |sites| == 0 then []
    else
      var n := |sites| - 1;
      var prior := Filter(sites[..n], q);
      assert forall i :: 0 <= i < n ==> sites[..n][i] == sites[i];
      if Matches(q, sites[n]) then prior + [sites[n].0] else prior
  }

  /** `search_sites(query)` over `sites`: every key for a blank query, else the matching keys in order. */
  function Search(sites: seq<(string, Site)>, query: string): seq<string>
  {
    var q := Text.Strip(Text.Lower(query));
    if q == [] then Keys(sites) else Filter(sites, q)
  }

  /**
   * `search_sites`: walks the catalogue (`sites`, which the dashboard passes
   * as `Catalogue`) once, keeping the keys whose searchable text contains the
   * lower-cased, stripped query.
   */
  method SearchSites(sites: seq<(string, Site)>, query: string) returns (results: seq<string>)
    ensures results == Search(sites, query)
  {
    var q := Text.Strip(Text.Lower(query));
    if q == [] {
      return Keys(sites);
    }
    results := [];
    var i := 0;
    while i < |sites|
      invariant 0 <= i <= |sites|
      invariant results == Filter(sites[..i], q)
    {
      var key := sites[i].0;
      var searchable := Searchable(key, sites[i].1);
      if Text.Contains(q, searchable) {
        results := results + [key];
      }
      assert sites[..i + 1][..i] == sites[..i];
      i := i + 1;
    }
    assert sites[..i] == sites;
  }

  /** A query that is empty or only whitespace returns every key, in catalogue order. */
  lemma BlankQueryReturnsAll(sites: seq<(string, Site)>, query: string)
    requires forall i :: 0 <= i < |query| ==> Text.IsSpace(query[i])
    ensures Search(sites, query) == Keys(sites)
  {
    var lowered := Text.Lower(query);
    assert forall i :: 0 <= i < |lowered| ==> Text.IsSpace(lowered[i]);
  }

  /** A key is returned for a non-blank query exactly when its entry's searchable text contains the query. */
  lemma SearchMembership(sites: seq<(string, Site)>, query: string, key: string)
    requires Text.Strip(Text.Lower(query)) != []
    ensures key in Search(sites, query) <==>
      exists i :: 0 <= i < |sites| && sites[i].0 == key && Matches(Text.Strip(Text.Lower(query)), sites[i])
  {
    var q := Text.Strip(Text.Lower(query));
    var ix := MatchingPositions(sites, q);
    var ks := Filter(sites, q);
    if key in ks {
      var j :| 0 <= j < |ks| && ks[j] == key;
      assert ix[j] in ix;
    }
    if exists i :: 0 <= i < |sites| && sites[i].0 == key && Matches(q, sites[i]) {
      var i :| 0 <= i < |sites| && sites[i].0 == key && Matches(q, sites[i]);
      assert i in ix;
      var j :| 0 <= j < |ix| && ix[j] == i;
      assert ks[j] == key;
    }
  }

  /** Over a catalogue with distinct keys the search never returns a key twice. */
  lemma SearchNoDuplicates(sites: seq<(string, Site)>, query: string)
    requires DistinctKeys(sites)
    ensures var r := Search(sites, query); forall j, k :: 0 <= j < k < |r| ==> r[j] != r[k]
  {
  }

  /** A query found in the lower-cased head of a text is found in the lower-cased whole text. */
  lemma ContainsInLoweredHead(q: string, head: string, tail: string, at: int)
    requires Text.OccursAt(q, Text.Lower(head), at)
    ensures Text.Contains(q, Text.Lower(head + tail))
  {
    Text.LowerAppend(head, tail);
    var s := Text.Lower(head + tail);
    assert s[at..at + |q|] == Text.Lower(head)[at..at + |q|];
    assert Text.OccursAt(q, s, at);
  }

  /** Over distinct keys, each site's key yields that site's selector label. */
  lemma DisplayNameOfEachSite(sites: seq<(string, Site)>, i: int)
    requires DistinctKeys(sites)
    requires 0 <= i < |sites|
    ensures GetSiteDisplayName(sites, sites[i].0) == Some(DisplayName(sites[i].1))
  {
    LookupFindsEntry(sites, i);
  }

  /** A query found in the lower-cased city, country and name of an entry matches that entry. */
  lemma MatchInHead(q: string, e: (string, Site), at: int)
    requires Text.OccursAt(q, Text.Lower(e.1.city + " " + e.1.country + " " + e.1.name), at)
    ensures Matches(q, e)
  {
    var head := e.1.city + " " + e.1.country + " " + e.1.name;
    var tail := " " + e.1.description.GetOr("") + " " + e.0;
    ContainsInLoweredHead(q, head, tail, at);
    assert head + tail == e.1.city + " " + e.1.country + " " + e.1.name + " " + e.1.description.GetOr("") + " " + e.0;
  }

  /** "usa lake" is already lower-case and stripped. */
  lemma UsaLakeNormalised()
    ensures Text.Strip(Text.Lower("usa lake")) == "usa lake"
  {
    var q := "usa lake";
    assert Text.Lower(q) == q;
    assert Text.LeadingSpaces(q) == 0;
    assert Text.TrailingSpaces(q) == 0;
    assert q[0..|q|] == q;
  }

  /**
   * A query spanning a whole middle field and the start of the next one is
   * found one character after the first field and its separating space.
   */
  lemma SpanningOccurrence(a: string, b: string, c: string, n: nat)
    requires n <= |c|
    ensures Text.OccursAt(Text.Lower(b + " " + c[..n]), Text.Lower(a + " " + b + " " + c), |a| + 1)
  {
    var s := a + " " + b + " " + c;
    var i := |a| + 1;
    var j := i + |b| + 1 + n;
    assert s[i..j] == b + " " + c[..n];
    assert Text.Lower(s)[i..j] == Text.Lower(s[i..j]);
  }

  /** The lower-cased "Toledo USA Lake Erie — Western Basin" holds "usa lake" at position 7. */
  lemma LoweredToledo()
    ensures Text.OccursAt("usa lake", Text.Lower("Toledo" + " " + "USA" + " " + "Lake Erie — Western Basin"), 7)
  {
    var c := "Lake Erie — Western Basin";
    assert c[..4] == "Lake";
    SpanningOccurrence("Toledo", "USA", c, 4);
    assert Text.Lower("USA" + " " + "Lake") == "usa lake";
  }

  /** "usa lake" finds Lake Erie, whose searchable text begins "toledo usa lake erie". */
  lemma UsaLakeFindsLakeErie(descriptions: seq<string>)
    ensures "lake_erie" in Search(CatalogueOf(descriptions), "usa lake")
  {
    var sites := CatalogueOf(descriptions);
    var e := sites[0];
    assert e.0 == "lake_erie" && e.1.city == "Toledo" && e.1.country == "USA";
    assert e.1.name == "Lake Erie — Western Basin";
    LoweredToledo();
    MatchInHead("usa lake", e, 7);
    UsaLakeNormalised();
    SearchMembership(sites, "usa lake", "lake_erie");
  }
}
