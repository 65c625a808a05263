/** The older copy of the search box. Its list, filter, effect and handlers
    are those of the current copy; only the icon names, the colour classes
    and the count line differ. */
module LegacySearchBar {
  import opened Common
  import opened SearchBar

  /** The older copy's own item list. */
  const LegacyData: seq<SearchItem> := [
    SearchItem(1, "Technetium-99m", "isotope", "Medical imaging isotope", "Medicine"),
    SearchItem(2, "Cobalt-60", "isotope", "Cancer treatment and sterilization", "Medicine"),
    SearchItem(3, "Iodine-131", "isotope", "Thyroid treatment", "Medicine"),
    SearchItem(4, "Cesium-137", "isotope", "Industrial gauging", "Industry"),
    SearchItem(5, "Americium-241", "isotope", "Smoke detectors", "Industry"),
    SearchItem(6, "Plutonium-238", "isotope", "Space power systems", "Space"),
    SearchItem(7, "Medical Imaging", "application", "Nuclear medicine procedures", "Medicine"),
    SearchItem(8, "Food Irradiation", "application", "Food preservation technology", "Agriculture"),
    SearchItem(9, "Non-Destructive Testing", "application", "Industrial quality control", "Industry"),
    SearchItem(10, "Cancer Treatment", "application", "Radiotherapy procedures", "Medicine"),
    SearchItem(11, "Nuclear Medicine Market", "topic", "$8.2 billion industry", "Economics"),
    SearchItem(12, "ROI Calculator", "tool", "Investment return analysis", "Economics")
  ]

  /** The two copies list the same items, so every query gives both copies
      the same dropdown. */
  lemma {:induction false} SameResultsAsCurrentCopy(query: string)
    ensures LegacyData == SearchData
    ensures ResultsFor(LegacyData, query) == ResultsFor(SearchData, query)
  {
  }

  /** The older copy's widget: the shared component over its own list. */
  method NewLegacyWidget(hasOnSearch: bool) returns (w: SearchBarWidget)
    ensures fresh(w) && w.data == LegacyData && w.hasOnSearch == hasOnSearch
    ensures w.query == "" && !w.isOpen && w.results == [] && !w.isMounted && w.reported == []
    ensures w.Valid()
  {
    w := new SearchBarWidget(LegacyData, hasOnSearch);
  }

  /** `getIcon` of the older copy: Remix icon names, a search icon otherwise. */
  function GetIcon(kind: string): (icon: string)
    ensures kind !in {"isotope", "application", "topic", "tool"} ==> icon == "ri-search-line"
    ensures kind in {"isotope", "application", "topic", "tool"} ==> icon != "ri-search-line"
  {
    if kind == "isotope" then "ri-atom-line"
    else if kind == "application" then "ri-apps-line"
    else if kind == "topic" then "ri-book-line"
    else if kind == "tool" then "ri-tools-line"
    else "ri-search-line"
  }

  /** `getColor` of the older copy: the same five categories, without border classes. */
  function GetColor(category: string): (classes: string)
    ensures category !in {"Medicine", "Industry", "Agriculture", "Space", "Economics"} ==>
      classes == "text-gray-600 bg-gray-50"
  {
    if category == "Medicine" then "text-red-600 bg-red-50"
    else if category == "Industry" then "text-blue-600 bg-blue-50"
    else if category == "Agriculture" then "text-green-600 bg-green-50"
    else if category == "Space" then "text-purple-600 bg-purple-50"
    else if category == "Economics" then "text-orange-600 bg-orange-50"
    else "text-gray-600 bg-gray-50"
  }

  /** The border class the current copy adds to each colour. */
  function BorderOf(category: string): string {
    if category == "Medicine" then "border-red-200"
    else if category == "Industry" then "border-blue-200"
    else if category == "Agriculture" then "border-green-200"
    else if category == "Space" then "border-purple-200"
    else if category == "Economics" then "border-orange-200"
    else "border-gray-200"
  }

  lemma {:induction false} MedicineColorJoined()
    ensures SearchBar.GetColor("Medicine") == GetColor("Medicine") + " " + BorderOf("Medicine")
  {
    assert GetColor("Medicine") == "text-red-600 bg-red-50";
    assert BorderOf("Medicine") == "border-red-200";
    assert SearchBar.GetColor("Medicine") == "text-red-600 bg-red-50 border-red-200";
    assert "text-red-600 bg-red-50 border-red-200" == "text-red-600 bg-red-50" + " " + "border-red-200";
  }

  lemma {:induction false} IndustryColorJoined()
    ensures SearchBar.GetColor("Industry") == GetColor("Industry") + " " + BorderOf("Industry")
  {
    assert "Industry" != "Medicine" by { assert "Industry"[0] != "Medicine"[0]; }
    assert GetColor("Industry") == "text-blue-600 bg-blue-50";
    assert BorderOf("Industry") == "border-blue-200";
    assert SearchBar.GetColor("Industry") == "text-blue-600 bg-blue-50 border-blue-200";
    assert "text-blue-600 bg-blue-50 border-blue-200" == "text-blue-600 bg-blue-50" + " " + "border-blue-200";
  }

  lemma {:induction false} AgricultureColorJoined()
    ensures SearchBar.GetColor("Agriculture") == GetColor("Agriculture") + " " + BorderOf("Agriculture")
  {
    assert "Agriculture" != "Medicine" by { assert "Agriculture"[0] != "Medicine"[0]; }
    assert "Agriculture" != "Industry" by { assert "Agriculture"[0] != "Industry"[0]; }
    assert GetColor("Agriculture") == "text-green-600 bg-green-50";
    assert BorderOf("Agriculture") == "border-green-200";
    assert SearchBar.GetColor("Agriculture") == "text-green-600 bg-green-50 border-green-200";
    assert "text-green-600 bg-green-50 border-green-200" == "text-green-600 bg-green-50" + " " + "border-green-200";
  }

  lemma {:induction false} SpaceColorJoined()
    ensures SearchBar.GetColor("Space") == GetColor("Space") + " " + BorderOf("Space")
  {
    assert "Space" != "Medicine" by { assert "Space"[0] != "Medicine"[0]; }
    assert "Space" != "Industry" by { assert "Space"[0] != "Industry"[0]; }
    assert "Space" != "Agriculture" by { assert "Space"[0] != "Agriculture"[0]; }
    assert GetColor("Space") == "text-purple-600 bg-purple-50";
    assert BorderOf("Space") == "border-purple-200";
    assert SearchBar.GetColor("Space") == "text-purple-600 bg-purple-50 border-purple-200";
    assert "text-purple-600 bg-purple-50 border-purple-200" == "text-purple-600 bg-purple-50" + " " + "border-purple-200";
  }

  lemma {:induction false} EconomicsColorJoined()
    ensures SearchBar.GetColor("Economics") == GetColor("Economics") + " " + BorderOf("Economics")
  {
    assert "Economics" != "Medicine" by { assert "Economics"[0] != "Medicine"[0]; }
    assert "Economics" != "Industry" by { assert "Economics"[0] != "Industry"[0]; }
    assert "Economics" != "Agriculture" by { assert "Economics"[0] != "Agriculture"[0]; }
    assert "Economics" != "Space" by { assert "Economics"[0] != "Space"[0]; }
    assert GetColor("Economics") == "text-orange-600 bg-orange-50";
    assert BorderOf("Economics") == "border-orange-200";
    assert SearchBar.GetColor("Economics") == "text-orange-600 bg-orange-50 border-orange-200";
    assert "text-orange-600 bg-orange-50 border-orange-200" == "text-orange-600 bg-orange-50" + " " + "border-orange-200";
  }

  lemma {:induction false} OtherColorJoined(category: string)
    requires category !in {"Medicine", "Industry", "Agriculture", "Space", "Economics"}
    ensures SearchBar.GetColor(category) == GetColor(category) + " " + BorderOf(category)
  {
    assert GetColor(category) == "text-gray-600 bg-gray-50";
    assert BorderOf(category) == "border-gray-200";
    assert SearchBar.GetColor(category) == "text-gray-600 bg-gray-50 border-gray-200";
    assert "text-gray-600 bg-gray-50 border-gray-200" == "text-gray-600 bg-gray-50" + " " + "border-gray-200";
  }

  /** Each older colour is the current copy's colour with its border class dropped. */
  lemma {:induction false} ColorsArePrefixes(category: string)
    ensures SearchBar.GetColor(category) == GetColor(category) + " " + BorderOf(category)
    ensures GetColor(category) == SearchBar.GetColor(category)[..|GetColor(category)|]
  {
    if category == "Medicine" {
      MedicineColorJoined();
    } else if category == "Industry" {
      IndustryColorJoined();
    } else if category == "Agriculture" {
      AgricultureColorJoined();
    } else if category == "Space" {
      SpaceColorJoined();
    } else if category == "Economics" {
      EconomicsColorJoined();
    } else {
      OtherColorJoined(category);
    }
    var legacy := GetColor(category);
    assert (legacy + " " + BorderOf(category))[..|legacy|] == legacy;
  }

  /** The count line of the older copy: no trailing "found". */
  function CountText(count: nat): (text: string)
    ensures text + " found" == SearchBar.CountText(count)
  {
    NatToString(count) + " result" + (if count != 1 then "s" else "")
  }
}
