/** The research and resources page: a fixed resource list, the category
    buttons with their written-in counts, the category filter, the featured
    list and the type badge. */
module Resources {
  import opened Common

  /** A resource card's data: its id, its type and its featured flag. */
  datatype Resource = Resource(id: int, kind: string, featured: bool)

  const ResourceList: seq<Resource> := [
    Resource(1, "industry", true),
    Resource(2, "research", true),
    Resource(3, "research", false),
    Resource(4, "regulations", false),
    Resource(5, "industry", false),
    Resource(6, "education", false)
  ]

  /** The title, source and date printed on a card; the description and
      link are display text and are not modelled. */
  datatype Caption = Caption(title: string, source: string, date: string)

  /** The captions of the cards, in the order of the resource list. */
  const Captions: seq<Caption> := [
    Caption("Global Isotope Market Analysis 2024", "Nuclear Industry Association", "March 2024"),
    Caption("Medical Isotope Economics: Cost-Benefit Analysis", "Journal of Nuclear Medicine", "February 2024"),
    Caption("Food Irradiation: Economic and Environmental Impact", "Food and Agriculture Organization", "January 2024"),
    Caption("Nuclear Regulatory Guidelines for Isotope Production", "International Atomic Energy Agency", "December 2023"),
    Caption("Space Technology: Radioisotope Power Systems ROI", "NASA Economic Analysis Division", "November 2023"),
    Caption("Industrial Radiography: Safety and Economics", "Nuclear Education Consortium", "October 2023")
  ]

  /** A category button: its key, its caption and the count printed beside it. */
  datatype Category = Category(id: string, name: string, count: nat)

  const Categories: seq<Category> := [
    Category("all", "All Resources", 24),
    Category("research", "Research Papers", 8),
    Category("industry", "Industry Reports", 6),
    Category("regulations", "Regulations", 5),
    Category("education", "Educational", 5)
  ]

  /** The key selected before any button is pressed. */
  const InitialCategory := "all"

  /** `filteredResources`: the whole list for "all", otherwise the resources of that type. */
  function FilteredResources(selected: string): (r: seq<Resource>)
    ensures selected == "all" ==> r == ResourceList
    ensures selected != "all" ==> forall x :: x in r <==> x in ResourceList && x.kind == selected
    ensures |r| <= |ResourceList|
  {
    if selected == "all" then ResourceList else Filter(ResourceList, (x: Resource) => x.kind == selected)
  }

  /** Before any button is pressed the page is on the first button's key
      and lists every card, one caption per card. */
  lemma {:induction false} InitialListsEveryCard()
    ensures InitialCategory == Categories[0].id
    ensures FilteredResources(InitialCategory) == ResourceList
    ensures |Captions| == |FilteredResources(InitialCategory)|
  {
  }

  /** The filter keeps the list's order. */
  lemma {:induction false} FilteredResourcesOrdered(selected: string)
    ensures IsSubsequence(FilteredResources(selected), ResourceList)
  {
    if selected == "all" {
      PrefixIsSubsequence(ResourceList, |ResourceList|);
      assert ResourceList[..|ResourceList|] == ResourceList;
    } else {
      FilterIsSubsequence(ResourceList, (x: Resource) => x.kind == selected);
    }
  }

  /** `featuredResources`: the flagged resources, in order. */
  function FeaturedResources(): (r: seq<Resource>)
    ensures forall x :: x in r <==> x in ResourceList && x.featured
  {
    Filter(ResourceList, (x: Resource) => x.featured)
  }

  /** Exactly the first two resources are featured. */
  lemma {:induction false} FeaturedAreFirstTwo()
    ensures FeaturedResources() == ResourceList[..2]
    ensures FeaturedResources()[0].id == 1 && FeaturedResources()[1].id == 2
  {
  }

  /** The number of resources of each type. */
  lemma {:induction false} ResearchCount()
    ensures |FilteredResources("research")| == 2
  {
    FilterLength(ResourceList, (x: Resource) => x.kind == "research");
  }

  lemma {:induction false} IndustryCount()
    ensures |FilteredResources("industry")| == 2
  {
    FilterLength(ResourceList, (x: Resource) => x.kind == "industry");
  }

  lemma {:induction false} RegulationsCount()
    ensures |FilteredResources("regulations")| == 1
  {
    FilterLength(ResourceList, (x: Resource) => x.kind == "regulations");
  }

  lemma {:induction false} EducationCount()
    ensures |FilteredResources("education")| == 1
  {
    FilterLength(ResourceList, (x: Resource) => x.kind == "education");
  }

  /** The counts on the buttons are written in, not computed: "Research Papers (8)"
      lists two resources and "All Resources (24)" six. */
  lemma {:induction false} BadgeCountsDisagreeWithList()
    ensures Categories[1].id == "research" && Categories[1].count == 8
    ensures |FilteredResources("research")| == 2
    ensures Categories[0].id == "all" && Categories[0].count == 24
    ensures |FilteredResources("all")| == 6
  {
    ResearchCount();
  }

  /** Every button's key filters to a list no longer than its printed count. */
  lemma {:induction false} CountsBoundFilters(k: nat)
    requires k < |Categories|
    ensures |FilteredResources(Categories[k].id)| <= Categories[k].count
  {
    if k == 0 {
      assert Categories[0].id == "all";
    } else if k == 1 {
      assert Categories[1].id == "research";
      ResearchCount();
    } else if k == 2 {
      assert Categories[2].id == "industry";
      IndustryCount();
    } else if k == 3 {
      assert Categories[3].id == "regulations";
      RegulationsCount();
    } else {
      assert Categories[4].id == "education";
      EducationCount();
    }
  }

  /** A button is drawn as active when its key is the selected one. */
  predicate IsActive(selected: string, c: Category) {
    selected == c.id
  }

  /** Pressing a button selects its key, so exactly that button is active. */
  lemma {:induction false} ExactlyPressedButtonActive(k: nat)
    requires k < |Categories|
    ensures forall j :: 0 <= j < |Categories| ==> (IsActive(Categories[k].id, Categories[j]) <==> j == k)
  {
  }

  /** The type label: only the first letter is upper-cased. */
  function TypeLabel(kind: string): (label': string)
    ensures |label'| == |kind|
    ensures kind != [] ==> label'[0] == UpperChar(kind[0]) && label'[1..] == kind[1..]
  {
    Capitalize(kind)
  }

  /** The type badge colours: green, blue and red for the three known types, purple otherwise. */
  function TypeBadgeClasses(kind: string): (classes: string)
    ensures kind !in {"research", "industry", "regulations"} ==> classes == "bg-purple-100 text-purple-800"
  {
    if kind == "research" then "bg-green-100 text-green-800"
    else if kind == "industry" then "bg-blue-100 text-blue-800"
    else if kind == "regulations" then "bg-red-100 text-red-800"
    else "bg-purple-100 text-purple-800"
  }

  /** The three known types have distinct badge colours, none of them purple. */
  lemma {:induction false} TypeBadgesDistinct(a: string, b: string)
    requires a in {"research", "industry", "regulations"}
    requires b in {"research", "industry", "regulations"}
    requires a != b
    ensures TypeBadgeClasses(a) != TypeBadgeClasses(b)
    ensures TypeBadgeClasses(a) != "bg-purple-100 text-purple-800"
  {
    assert TypeBadgeClasses(a)[3] != TypeBadgeClasses(b)[3];
    assert TypeBadgeClasses(a)[3] != 'p';
  }
}
