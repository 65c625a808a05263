/** The search results page: the fixed search database, the effect that
    rebuilds the result list whenever the `q` parameter changes, the result
    selection, and the icon, colour and count labels. */
module SearchPage {
  import opened Common

  /** One database record; the detail sections other than the application
      list are display text and are not modelled. */
  datatype SearchEntry = SearchEntry(
    id: string,
    title: string,
    kind: string,
    category: string,
    description: string,
    applications: seq<string>)

  /** The database in its object order, which is the order `Object.entries` visits it. */
  const Database: seq<SearchEntry> := [
    SearchEntry("technetium-99m", "Technetium-99m", "Isotope", "Medical",
      "Most widely used radioisotope in nuclear medicine",
      ["SPECT imaging", "Heart scans", "Bone scans", "Brain imaging"]),
    SearchEntry("cobalt-60", "Cobalt-60", "Isotope", "Medical/Industrial",
      "High-energy gamma source for cancer treatment and sterilization",
      ["External beam radiotherapy", "Food sterilization", "Medical device sterilization", "Industrial radiography"]),
    SearchEntry("iodine-131", "Iodine-131", "Isotope", "Medical",
      "Thyroid treatment and thyroid cancer therapy",
      ["Thyroid ablation", "Thyroid cancer treatment", "Hyperthyroidism therapy"]),
    SearchEntry("plutonium-238", "Plutonium-238", "Isotope", "Space Technology",
      "Radioisotope thermoelectric generator fuel for space missions",
      ["RTG power systems", "Deep space missions", "Mars rovers", "Outer planet probes"]),
    SearchEntry("cesium-137", "Cesium-137", "Isotope", "Industrial",
      "Industrial gauging and level detection systems",
      ["Thickness gauging", "Level detection", "Well logging", "Industrial radiography"])
  ]

  /** Some application, lower-cased, contains `queryLower`. */
  predicate AnyApplicationIncludes(apps: seq<string>, queryLower: string) {
    apps != [] && (Includes(ToLower(apps[0]), queryLower) || AnyApplicationIncludes(apps[1..], queryLower))
  }

  lemma {:induction false} AnyApplicationIncludesIff(apps: seq<string>, queryLower: string)
    ensures AnyApplicationIncludes(apps, queryLower)
      <==> exists k :: 0 <= k < |apps| && Includes(ToLower(apps[k]), queryLower)
  {
    if apps != [] {
      AnyApplicationIncludesIff(apps[1..], queryLower);
      if AnyApplicationIncludes(apps[1..], queryLower) {
        var k :| 0 <= k < |apps[1..]| && Includes(ToLower(apps[1..][k]), queryLower);
        assert apps[1..][k] == apps[k + 1];
      }
      forall k | 1 <= k < |apps| && Includes(ToLower(apps[k]), queryLower)
        ensures AnyApplicationIncludes(apps[1..], queryLower)
      {
        assert apps[1..][k - 1] == apps[k];
      }
    }
  }

  /** The effect's test: the key as written, and the title, description,
      category and each application lower-cased, against the lower-cased query. */
  predicate Matches(e: SearchEntry, queryLower: string) {
    Includes(e.id, queryLower)
    || Includes(ToLower(e.title), queryLower)
    || Includes(ToLower(e.description), queryLower)
    || Includes(ToLower(e.category), queryLower)
    || AnyApplicationIncludes(e.applications, queryLower)
  }

  /** An application list matching a query matches every prefix of it. */
  lemma {:induction false} AnyApplicationIncludesPrefix(apps: seq<string>, queryLower: string, k: nat)
    requires AnyApplicationIncludes(apps, queryLower) && k <= |queryLower|
    ensures AnyApplicationIncludes(apps, queryLower[..k])
  {
    if Includes(ToLower(apps[0]), queryLower) {
      IncludesPrefix(ToLower(apps[0]), queryLower, k);
    } else {
      AnyApplicationIncludesPrefix(apps[1..], queryLower, k);
    }
  }

  /** A record matching a query matches every prefix of it. */
  lemma {:induction false} MatchesPrefix(e: SearchEntry, queryLower: string, k: nat)
    requires Matches(e, queryLower) && k <= |queryLower|
    ensures Matches(e, queryLower[..k])
  {
    if Includes(e.id, queryLower) {
      IncludesPrefix(e.id, queryLower, k);
    } else if Includes(ToLower(e.title), queryLower) {
      IncludesPrefix(ToLower(e.title), queryLower, k);
    } else if Includes(ToLower(e.description), queryLower) {
      IncludesPrefix(ToLower(e.description), queryLower, k);
    } else if Includes(ToLower(e.category), queryLower) {
      IncludesPrefix(ToLower(e.category), queryLower, k);
    } else {
      AnyApplicationIncludesPrefix(e.applications, queryLower, k);
    }
  }

  /** A longer query only removes records from the results. */
  lemma {:induction false} ExtendingQueryNarrows(db: seq<SearchEntry>, query: string, more: string)
    ensures forall e :: e in SearchSpec(db, query + more) ==> e in SearchSpec(db, query)
  {
    ToLowerConcat(query, more);
    var longer := ToLower(query + more);
    assert longer[..|query|] == ToLower(query);
    forall e | e in SearchSpec(db, query + more)
      ensures e in SearchSpec(db, query)
    {
      MatchesPrefix(e, longer, |query|);
    }
  }

  /** The list a non-empty query produces from `db`: the matching records, in order. */
  function SearchSpec(db: seq<SearchEntry>, query: string): seq<SearchEntry> {
    Filter(db, e => Matches(e, ToLower(query)))
  }

  /** `searchParams.get('q') || ''`: a missing parameter is the empty query. */
  function QueryOf(param: Option<string>): (query: string)
    ensures param.Some? ==> query == param.value
    ensures param.None? ==> query == ""
  {
    if param.Some? then param.value else ""
  }

  /** No two records share an id. */
  predicate IdsDistinct(db: seq<SearchEntry>) {
    forall i, j :: 0 <= i < j < |db| ==> db[i].id != db[j].id
  }

  lemma {:induction false} DatabaseIdsDistinct()
    ensures IdsDistinct(Database)
  {
    assert Database[0].id[0] == 't' && Database[1].id[1] == 'o' && Database[2].id[0] == 'i';
    assert Database[3].id[0] == 'p' && Database[4].id[1] == 'e';
    assert Database[1].id[0] == 'c' && Database[4].id[0] == 'c';
  }

  /** Filtering a database with distinct ids leaves distinct ids. */
  lemma {:induction false} FilterKeepsIdsDistinct(db: seq<SearchEntry>, p: SearchEntry -> bool)
    requires IdsDistinct(db)
    ensures IdsDistinct(Filter(db, p))
  {
    assert Distinct(db);
    FilterDistinct(db, p);
    var r := Filter(db, p);
    forall i, j | 0 <= i < j < |r| ensures r[i].id != r[j].id {
      assert r[i] in db && r[j] in db;
      var a :| 0 <= a < |db| && db[a] == r[i];
      var b :| 0 <= b < |db| && db[b] == r[j];
      assert a != b;
    }
  }

  /** The results are exactly the matching records (sound and complete), in
      database order, each at most once and with pairwise distinct ids. */
  lemma {:induction false} SearchSpecCharacterised(db: seq<SearchEntry>, query: string)
    requires IdsDistinct(db)
    ensures forall e :: e in SearchSpec(db, query) <==> e in db && Matches(e, ToLower(query))
    ensures IsSubsequence(SearchSpec(db, query), db)
    ensures IdsDistinct(SearchSpec(db, query))
  {
    var p := e => Matches(e, ToLower(query));
    FilterIsSubsequence(db, p);
    FilterKeepsIdsDistinct(db, p);
  }

  /** Only the lower-cased query matters: queries differing in letter case find the same records. */
  lemma {:induction false} SearchIgnoresQueryCase(db: seq<SearchEntry>, query: string, other: string)
    requires ToLower(query) == ToLower(other)
    ensures SearchSpec(db, query) == SearchSpec(db, other)
  {
  }

  /** A record whose fourth application is "Industrial radiography" matches "radiography". */
  lemma {:induction false} IndustrialRadiographyMatches(e: SearchEntry)
    requires |e.applications| == 4 && e.applications[3] == "Industrial radiography"
    ensures Matches(e, "radiography")
  {
    var low := ToLower(e.applications[3]);
    assert OccursAt(low, "radiography", 11);
    AnyApplicationIncludesIff(e.applications, "radiography");
  }

  /** A word from two application lists finds both records; the query's
      letter case does not matter. */
  lemma {:induction false} RadiographyFindsCobaltAndCesium()
    ensures Database[1] in SearchSpec(Database, "Radiography")
    ensures Database[4] in SearchSpec(Database, "Radiography")
  {
    assert ToLower("Radiography") == "radiography";
    IndustrialRadiographyMatches(Database[1]);
    IndustrialRadiographyMatches(Database[4]);
  }

  /** The key is not lower-cased, but every key is already lower case, so
      the key test is case-blind as well. */
  lemma {:induction false} KeysAreLowerCase()
    ensures forall k :: 0 <= k < |Database| ==> ToLower(Database[k].id) == Database[k].id
  {
    forall k | 0 <= k < |Database| ensures ToLower(Database[k].id) == Database[k].id {
      ToLowerNoUpper(Database[k].id);
    }
  }

  /** `getIcon`: isotopes by category, with an atom for any other category;
      a search icon for anything that is not an isotope. */
  function GetIcon(kind: string, category: string): (icon: string)
    ensures kind != "Isotope" ==> icon == "ri-search-line"
    ensures kind == "Isotope" ==> icon != "ri-search-line"
    ensures kind == "Isotope" && category !in {"Medical", "Industrial", "Space Technology"} ==> icon == "ri-atom-line"
  {
    if kind == "Isotope" then
      if category == "Medical" then "ri-heart-pulse-line"
      else if category == "Industrial" then "ri-hammer-line"
      else if category == "Space Technology" then "ri-rocket-line"
      else "ri-atom-line"
    else "ri-search-line"
  }

  /** `getCategoryColor`: red, blue and purple for the three known categories, gray otherwise. */
  function GetCategoryColor(category: string): (classes: string)
    ensures category !in {"Medical", "Industrial", "Space Technology"} ==>
      classes == "bg-gray-50 text-gray-700 border-gray-200"
  {
    if category == "Medical" then "bg-red-50 text-red-700 border-red-200"
    else if category == "Industrial" then "bg-blue-50 text-blue-700 border-blue-200"
    else if category == "Space Technology" then "bg-purple-50 text-purple-700 border-purple-200"
    else "bg-gray-50 text-gray-700 border-gray-200"
  }

  /** The fourth character of each colour is the initial of the colour's name. */
  lemma {:induction false} MedicalColorMark()
    ensures GetCategoryColor("Medical")[3] == 'r'
  {
    assert GetCategoryColor("Medical") == "bg-red-50 text-red-700 border-red-200";
  }

  lemma {:induction false} IndustrialColorMark()
    ensures GetCategoryColor("Industrial")[3] == 'b'
  {
    assert GetCategoryColor("Industrial") == "bg-blue-50 text-blue-700 border-blue-200";
  }

  lemma {:induction false} SpaceColorMark()
    ensures GetCategoryColor("Space Technology")[3] == 'p'
  {
    assert GetCategoryColor("Space Technology") == "bg-purple-50 text-purple-700 border-purple-200";
  }

  /** Each of the three known categories has its own colour, none of them gray. */
  lemma {:induction false} CategoryColorsDistinct(a: string, b: string)
    requires a in {"Medical", "Industrial", "Space Technology"}
    requires b in {"Medical", "Industrial", "Space Technology"}
    requires a != b
    ensures GetCategoryColor(a) != GetCategoryColor(b)
    ensures GetCategoryColor(a) != "bg-gray-50 text-gray-700 border-gray-200"
  {
    MedicalColorMark();
    IndustrialColorMark();
    SpaceColorMark();
    assert "bg-gray-50 text-gray-700 border-gray-200"[3] == 'g';
    assert GetCategoryColor(a)[3] != GetCategoryColor(b)[3];
  }

  /** The combined category of Cobalt-60 is none of the known ones, so it
      gets the atom icon and the gray badge. */
  lemma {:induction false} CobaltFallsBackToDefaults()
    ensures GetIcon(Database[1].kind, Database[1].category) == "ri-atom-line"
    ensures GetCategoryColor(Database[1].category) == "bg-gray-50 text-gray-700 border-gray-200"
  {
  }

  /** The line under the heading: "Searching..." while loading, otherwise
      the number of results with "result" made plural unless there is one. */
  function CountLabel(isLoading: bool, count: nat): (line: string)
    ensures isLoading ==> line == "Searching..."
    ensures !isLoading ==> |line| == 13 + |NatToString(count)| + (if count != 1 then 1 else 0)
    ensures !isLoading ==> line[..6] == "Found " && line[6..6 + |NatToString(count)|] == NatToString(count)
    ensures !isLoading ==> (line[|line| - 1] == 's' <==> count != 1)
  {
    if isLoading then "Searching..."
    else "Found " + NatToString(count) + " result" + (if count != 1 then "s" else "")
  }

  /** The page component: result list, loading flag and selected result. */
  class SearchResultsPage {
    const db: seq<SearchEntry>
    var results: seq<SearchEntry>
    var isLoading: bool
    var selected: Option<SearchEntry>

    constructor ()
      ensures db == Database && IdsDistinct(db)
      ensures results == [] && isLoading && selected == None
    {
      db := Database;
      DatabaseIdsDistinct();
      results := [];
      isLoading := true;
      selected := None;
    }

    /** The effect run for the current `q` parameter: an empty query keeps
        the previous list; any other query replaces it with the matching
        records. Loading ends either way. */
    method QueryEffect(param: Option<string>)
      modifies this
      ensures QueryOf(param) == "" ==> results == old(results)
      ensures QueryOf(param) != "" ==> results == SearchSpec(db, QueryOf(param))
      ensures !isLoading && selected == old(selected)
    {
      isLoading := true;
      var query := QueryOf(param);
      if query != "" {
        var searchResults: seq<SearchEntry> := [];
        var queryLower := ToLower(query);
        var p := e => Matches(e, queryLower);
        var i := 0;
        while i < |db|
          invariant 0 <= i <= |db|
          invariant searchResults == Filter(db[..i], p)
          invariant selected == old(selected)
        {
          var e := db[i];
          FilterSnoc(db[..i], e, p);
          assert db[..i + 1] == db[..i] + [e];
          if Matches(e, queryLower) {
            searchResults := searchResults + [e];
          }
          i := i + 1;
        }
        assert db[..i] == db;
        results := searchResults;
      }
      isLoading := false;
    }

    /** A click on a result card selects it. */
    method SelectResult(k: nat)
      requires k < |results|
      modifies this
      ensures results == old(results) && isLoading == old(isLoading)
      ensures selected == Some(results[k])
    {
      selected := Some(results[k]);
    }

    /** The card of result `k` is highlighted: its id is the selected one's. */
    predicate IsHighlighted(k: nat)
      reads this
      requires k < |results|
    {
      selected.Some? && selected.value.id == results[k].id
    }

    /** After a search at most one card is highlighted. */
    lemma {:induction false} AtMostOneHighlighted(query: string, k: nat, m: nat)
      requires IdsDistinct(db) && results == SearchSpec(db, query)
      requires k < |results| && m < |results| && IsHighlighted(k) && IsHighlighted(m)
      ensures k == m
    {
      SearchSpecCharacterised(db, query);
    }
  }
}
