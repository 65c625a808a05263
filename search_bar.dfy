/** The header search box: a fixed list of items, the effect that refilters
    it on every change of the query, the dropdown's open flag, and the
    handlers for picking a result, clearing, focusing and clicking outside. */
module SearchBar {
  import opened Common

  /** One entry of the search list; `id` is only a React key. */
  datatype SearchItem = SearchItem(id: int, title: string, kind: string, description: string, category: string)

  const SearchData: seq<SearchItem> := [
    SearchItem(1, "Technetium-99m", "isotope", "Medical imaging isotope", "Medicine"),
    SearchItem(2, "Cobalt-60", "isotope", "Cancer treatment and sterilization", "Medicine"),
    SearchItem(3, "Iodine-131", "isotope", "Thyroid treatment", "Medicine"),
    SearchItem(4, "Cesium-137", "isotope", "Industrial gauging", "Industry"),
    SearchItem(5, "Americium-241", "isotope", "Smoke detectors", "Industry"),
    SearchItem(6, "Plutonium-238", "isotope", "Space power systems", "Space"),
    SearchItem(7, "Medical Imaging", "application", "Nuclear medicine procedures", "Medicine"),
    SearchItem(8, "Food Irradiation", "application", "Food preservation technology", "Agriculture"),
    SearchItem(9, "Non-Destructive Testing", "application", "Industrial quality control", "Industry"),
    SearchItem(10, "Cancer Treatment", "application", "Radiotherapy procedures", "Medicine"),
    SearchItem(11, "Nuclear Medicine Market", "topic", "$8.2 billion industry", "Economics"),
    SearchItem(12, "ROI Calculator", "tool", "Investment return analysis", "Economics")
  ]

  /** The most results the dropdown lists. */
  const MaxResults := 8

  /** Title, description or category contains the lower-cased query, each lower-cased. */
  predicate ItemMatches(item: SearchItem, queryLower: string) {
    Includes(ToLower(item.title), queryLower)
    || Includes(ToLower(item.description), queryLower)
    || Includes(ToLower(item.category), queryLower)
  }

  /** An item matching a query matches every prefix of it. */
  lemma {:induction false} ItemMatchesPrefix(item: SearchItem, queryLower: string, k: nat)
    requires ItemMatches(item, queryLower) && k <= |queryLower|
    ensures ItemMatches(item, queryLower[..k])
  {
    if Includes(ToLower(item.title), queryLower) {
      IncludesPrefix(ToLower(item.title), queryLower, k);
    } else if Includes(ToLower(item.description), queryLower) {
      IncludesPrefix(ToLower(item.description), queryLower, k);
    } else {
      IncludesPrefix(ToLower(item.category), queryLower, k);
    }
  }

  /** Typing further characters only removes items from the matches. */
  lemma {:induction false} ExtendingQueryNarrows(data: seq<SearchItem>, query: string, more: string)
    ensures forall x :: x in AllMatches(data, query + more) ==> x in AllMatches(data, query)
  {
    ToLowerConcat(query, more);
    var longer := ToLower(query + more);
    assert longer[..|query|] == ToLower(query);
    forall x | x in AllMatches(data, query + more)
      ensures x in AllMatches(data, query)
    {
      ItemMatchesPrefix(x, longer, |query|);
    }
  }

  /** All items of `data` matching `query`, in order. */
  function AllMatches(data: seq<SearchItem>, query: string): seq<SearchItem> {
    Filter(data, item => ItemMatches(item, ToLower(query)))
  }

  /** `filter(...).slice(0, 8)`: the first eight matches, in list order. */
  function FilterResults(data: seq<SearchItem>, query: string): (r: seq<SearchItem>)
    ensures |r| <= MaxResults
    ensures forall x :: x in r ==> x in data && ItemMatches(x, ToLower(query))
    ensures |r| == Min(MaxResults, |AllMatches(data, query)|)
    ensures r == AllMatches(data, query)[..|r|]
    ensures |AllMatches(data, query)| <= MaxResults ==>
      forall x :: x in data && ItemMatches(x, ToLower(query)) ==> x in r
  {
    Take(AllMatches(data, query), MaxResults)
  }

  function Min(a: int, b: int): int {
    if a <= b then a else b
  }

  /** The results keep the order of the list: they are a subsequence of it. */
  lemma {:induction false} FilterResultsSubsequence(data: seq<SearchItem>, query: string)
    ensures IsSubsequence(FilterResults(data, query), data)
  {
    var all := AllMatches(data, query);
    FilterIsSubsequence(data, item => ItemMatches(item, ToLower(query)));
    PrefixIsSubsequence(all, |FilterResults(data, query)|);
    SubsequenceTransitive(FilterResults(data, query), all, data);
  }

  /** What the dropdown lists for a query: nothing below two characters. */
  function ResultsFor(data: seq<SearchItem>, query: string): (r: seq<SearchItem>)
    ensures |query| <= 1 ==> r == []
    ensures |query| > 1 ==> r == FilterResults(data, query)
  {
    if |query| > 1 then FilterResults(data, query) else []
  }

  /** Every item's id is distinct, and the list has twelve entries. */
  lemma {:induction false} SearchDataShape()
    ensures |SearchData| == 12
    ensures forall i :: 0 <= i < |SearchData| ==> SearchData[i].id == i + 1
  {
  }

  /** An item among the first eight of the list is listed whenever it matches. */
  lemma {:induction false} EarlyMatchListed(data: seq<SearchItem>, query: string, k: nat)
    requires k < MaxResults && k < |data| && ItemMatches(data[k], ToLower(query))
    ensures data[k] in FilterResults(data, query)
  {
    var p := item => ItemMatches(item, ToLower(query));
    assert data == data[..k] + [data[k]] + data[k + 1..];
    FilterConcat(data[..k] + [data[k]], data[k + 1..], p);
    FilterConcat(data[..k], [data[k]], p);
    var before := Filter(data[..k], p);
    assert [data[k]][1..] == [];
    assert AllMatches(data, query)[|before|] == data[k];
  }

  /** A two-letter query, in either case, finds an item by its category
      ("Medicine") and another by its title ("Medical Imaging"). */
  lemma {:induction false} MedicineQueryFindsMedicineItems()
    ensures SearchData[0] in FilterResults(SearchData, "me")
    ensures SearchData[6] in ResultsFor(SearchData, "ME")
  {
    assert ToLower("ME") == "me" && ToLower("me") == "me";
    assert OccursAt(ToLower(SearchData[0].category), "me", 0);
    assert OccursAt(ToLower(SearchData[6].title), "me", 0);
    EarlyMatchListed(SearchData, "me", 0);
    EarlyMatchListed(SearchData, "ME", 6);
  }

  /** `getIcon` of the current copy: one emoji per known type, a magnifier otherwise. */
  function GetIcon(kind: string): (icon: string)
    ensures kind !in {"isotope", "application", "topic", "tool"} ==> icon == "\U{1F50D}"
  {
    if kind == "isotope" then "\U{269B}\U{FE0F}"
    else if kind == "application" then "\U{1F52C}"
    else if kind == "topic" then "\U{1F4DA}"
    else if kind == "tool" then "\U{1F6E0}\U{FE0F}"
    else "\U{1F50D}"
  }

  /** Distinct known types get distinct icons, none of them the fallback. */
  lemma {:induction false} IconsDistinct(a: string, b: string)
    requires a in {"isotope", "application", "topic", "tool"}
    requires b in {"isotope", "application", "topic", "tool"}
    requires a != b
    ensures GetIcon(a) != GetIcon(b) && GetIcon(a) != "\U{1F50D}"
  {
    assert GetIcon(a)[0] != GetIcon(b)[0];
    assert GetIcon(a)[0] != '\U{1F50D}';
  }

  /** `getColor` of the current copy: five category colours, gray otherwise. */
  function GetColor(category: string): (classes: string)
    ensures category !in {"Medicine", "Industry", "Agriculture", "Space", "Economics"} ==>
      classes == "text-gray-600 bg-gray-50 border-gray-200"
  {
    if category == "Medicine" then "text-red-600 bg-red-50 border-red-200"
    else if category == "Industry" then "text-blue-600 bg-blue-50 border-blue-200"
    else if category == "Agriculture" then "text-green-600 bg-green-50 border-green-200"
    else if category == "Space" then "text-purple-600 bg-purple-50 border-purple-200"
    else if category == "Economics" then "text-orange-600 bg-orange-50 border-orange-200"
    else "text-gray-600 bg-gray-50 border-gray-200"
  }

  /** The dropdown header: the count, "result" plural unless one, then "found". */
  function CountText(count: nat): (text: string)
    ensures |text| == |NatToString(count)| + 13 + (if count != 1 then 1 else 0)
    ensures text[..|NatToString(count)|] == NatToString(count)
    ensures text[|NatToString(count)| + 7] == 's' <==> count != 1
  {
    NatToString(count) + " result" + (if count != 1 then "s" else "") + " found"
  }

  /** The search box component over its item list. `reported` records the
      terms passed to the optional `onSearch` callback, oldest first. */
  class SearchBarWidget {
    const data: seq<SearchItem>
    const hasOnSearch: bool
    var query: string
    var isOpen: bool
    var results: seq<SearchItem>
    var isMounted: bool
    var reported: seq<string>

    /** The effect has run for the current query, and the dropdown only
        opens for a query long enough to search. */
    ghost predicate Valid()
      reads this
    {
      results == (if isMounted then ResultsFor(data, query) else [])
      && (isOpen ==> isMounted && |query| > 1)
    }

    constructor (data: seq<SearchItem>, hasOnSearch: bool)
      ensures this.data == data && this.hasOnSearch == hasOnSearch
      ensures query == "" && !isOpen && results == [] && !isMounted && reported == []
      ensures Valid()
    {
      this.data := data;
      this.hasOnSearch := hasOnSearch;
      query := "";
      isOpen := false;
      results := [];
      isMounted := false;
      reported := [];
    }

    /** The filter effect, run after the query (or the mount flag) changes. */
    method QueryEffect()
      modifies this
      ensures !isMounted ==> results == old(results) && isOpen == old(isOpen)
      ensures isMounted ==> results == ResultsFor(data, query) && (isOpen <==> |query| > 1)
      ensures query == old(query) && isMounted == old(isMounted) && reported == old(reported)
    {
      if !isMounted {
        return;
      }
      if |query| > 1 {
        results := FilterResults(data, query);
        isOpen := true;
      } else {
        results := [];
        isOpen := false;
      }
    }

    /** The mount effect, then the filter effect for the (empty) query. */
    method Mount()
      requires Valid() && !isMounted
      modifies this
      ensures isMounted && query == old(query) && reported == old(reported)
      ensures results == ResultsFor(data, query) && (isOpen <==> |query| > 1)
      ensures Valid()
    {
      isMounted := true;
      QueryEffect();
    }

    /** Typing into the input replaces the query and refilters. */
    method Type(text: string)
      requires Valid() && isMounted
      modifies this
      ensures query == text && isMounted && reported == old(reported)
      ensures results == ResultsFor(data, text) && (isOpen <==> |text| > 1)
      ensures Valid()
    {
      query := text;
      QueryEffect();
    }

    /** `handleSearch`: set the query, close the dropdown, report the term;
        the effect then refilters if the query changed, which reopens the
        dropdown for a term of two or more characters. */
    method HandleSearch(term: string)
      requires Valid() && isMounted
      modifies this
      ensures query == term && isMounted
      ensures reported == old(reported) + (if hasOnSearch then [term] else [])
      ensures results == ResultsFor(data, term)
      ensures term == old(query) ==> !isOpen
      ensures term != old(query) ==> (isOpen <==> |term| > 1)
      ensures Valid()
    {
      var changed := term != query;
      query := term;
      isOpen := false;
      if hasOnSearch {
        reported := reported + [term];
      }
      if changed {
        QueryEffect();
      }
    }

    /** Clicking result `k` searches for its title. */
    method PickResult(k: nat)
      requires Valid() && isMounted && isOpen && k < |results|
      modifies this
      ensures query == old(results[k].title) && isMounted
      ensures results == ResultsFor(data, query)
      ensures reported == old(reported) + (if hasOnSearch then [query] else [])
      ensures query != old(query) ==> (isOpen <==> |query| > 1)
      ensures query == old(query) ==> !isOpen
      ensures Valid()
    {
      var title := results[k].title;
      HandleSearch(title);
    }

    /** The clear button, shown only while the query is non-empty. */
    method Clear()
      requires Valid() && isMounted && query != ""
      modifies this
      ensures query == "" && !isOpen && results == []
      ensures reported == old(reported) && isMounted
      ensures Valid()
    {
      query := "";
      isOpen := false;
      QueryEffect();
    }

    /** Focusing the input reopens the dropdown when the query is long enough. */
    method Focus()
      requires Valid() && isMounted
      modifies this`isOpen
      ensures isOpen == (old(isOpen) || |query| > 1)
      ensures query == old(query) && results == old(results) && reported == old(reported) && isMounted
      ensures Valid()
    {
      if |query| > 1 {
        isOpen := true;
      }
    }

    /** A mouse press outside the box closes the dropdown. */
    method ClickOutside()
      requires Valid() && isMounted
      modifies this`isOpen
      ensures !isOpen && query == old(query) && results == old(results) && reported == old(reported) && isMounted
      ensures Valid()
    {
      isOpen := false;
    }

    /** The dropdown is drawn when it is open and there is something to list. */
    predicate DropdownShown()
      reads this
    {
      isOpen && |results| > 0
    }

    /** A shown dropdown lists at most eight matching items, in list order:
        a property of every reachable state. */
    lemma {:induction false} ShownResultsMatch()
      requires Valid() && DropdownShown()
      ensures |results| <= MaxResults && |query| > 1
      ensures forall x :: x in results ==> x in data && ItemMatches(x, ToLower(query))
      ensures IsSubsequence(results, data)
    {
      FilterResultsSubsequence(data, query);
    }
  }
}
