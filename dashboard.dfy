/** The dashboard: a table of regional production statistics looked up by
    the selected region key, two rows of buttons that set that key, and the
    market-growth bar chart. */
module Dashboard {
  import opened Common

  datatype RegionStats = RegionStats(name: string, facilities: nat, production: string, market: string)

  const Regions: seq<(string, RegionStats)> := [
    ("global", RegionStats("Global", 245, "15.2M Ci", "$12.4B")),
    ("northAmerica", RegionStats("North America", 89, "6.8M Ci", "$4.2B")),
    ("europe", RegionStats("Europe", 76, "4.1M Ci", "$3.8B")),
    ("asia", RegionStats("Asia Pacific", 58, "3.2M Ci", "$3.1B")),
    ("other", RegionStats("Others", 22, "1.1M Ci", "$1.3B"))
  ]

  const InitialRegion := "global"

  /** The keys the map section's buttons set, as written. */
  const MapButtonKeys: seq<string> := ["global", "north-america", "europe", "asia-pacific"]

  /** The same buttons with keys the table has. */
  const CorrectedMapButtonKeys: seq<string> := ["global", "northAmerica", "europe", "asia"]

  /** The statistics panel: the entry of the selected key, or nothing where the
      page reads `.name` of `undefined` and rendering fails. */
  function SelectedStats(selected: string): (r: Option<RegionStats>)
    ensures r.Some? <==> selected in Keys(Regions)
    ensures r.Some? ==> (selected, r.value) in Regions
  {
    var r := Lookup(Regions, selected);
    if r.Some? then LookupFound(Regions, selected); r else r
  }

  /** The panel heading, "{name} Statistics". */
  function Heading(selected: string): (h: Option<string>)
    ensures h.Some? <==> selected in Keys(Regions)
    ensures h.Some? ==> h.value == SelectedStats(selected).value.name + " Statistics"
  {
    match SelectedStats(selected)
    case None => None
    case Some(stats) => Some(stats.name + " Statistics")
  }

  lemma {:induction false} RegionKeysDistinct()
    ensures Keys(Regions) == ["global", "northAmerica", "europe", "asia", "other"]
    ensures Distinct(Keys(Regions))
  {
    assert Keys(Regions) == ["global", "northAmerica", "europe", "asia", "other"];
  }

  /** The initial key and every key of the statistics section's own buttons
      find their entry. */
  lemma {:induction false} StatsButtonsDefined(k: nat)
    requires k < |Regions|
    ensures SelectedStats(InitialRegion) == Some(Regions[0].1)
    ensures SelectedStats(Keys(Regions)[k]) == Some(Regions[k].1)
  {
    RegionKeysDistinct();
    LookupEntry(Regions, 0);
    LookupEntry(Regions, k);
  }

  /** As written, the map section's second and fourth buttons set keys the
      table lacks, so pressing either leaves the statistics panel without a region. */
  lemma {:induction false} MapButtonsMissKeys()
    ensures SelectedStats(MapButtonKeys[1]).None? && SelectedStats(MapButtonKeys[3]).None?
    ensures Heading(MapButtonKeys[1]).None? && Heading(MapButtonKeys[3]).None?
  {
    RegionKeysDistinct();
  }

  /** Every corrected map button sets a key of the table. */
  lemma {:induction false} CorrectedMapButtonsDefined(k: nat)
    requires k < |CorrectedMapButtonKeys|
    ensures CorrectedMapButtonKeys[k] in Keys(Regions)
    ensures SelectedStats(CorrectedMapButtonKeys[k]).Some?
  {
    RegionKeysDistinct();
  }

  /** A press on button `k` of the map row or of the statistics row. */
  datatype Press = MapButton(k: nat) | StatsButton(k: nat)

  /** The selected key after a press, with the map row's keys given by
      `mapKeys`; a press on a button that does not exist changes nothing. */
  function Press1(mapKeys: seq<string>, selected: string, p: Press): string {
    match p
    case MapButton(k) => if k < |mapKeys| then mapKeys[k] else selected
    case StatsButton(k) => if k < |Regions| then Regions[k].0 else selected
  }

  function Run(mapKeys: seq<string>, selected: string, presses: seq<Press>): string
    decreases |presses|
  {
    if presses == [] then selected else Run(mapKeys, Press1(mapKeys, selected, presses[0]), presses[1..])
  }

  /** With map keys that all name table entries, every run of presses from
      any table key ends on a table key. */
  lemma {:induction false} RunStaysInTable(mapKeys: seq<string>, selected: string, presses: seq<Press>)
    requires forall k :: 0 <= k < |mapKeys| ==> mapKeys[k] in Keys(Regions)
    requires selected in Keys(Regions)
    ensures Run(mapKeys, selected, presses) in Keys(Regions)
    decreases |presses|
  {
    if presses != [] {
      var next := Press1(mapKeys, selected, presses[0]);
      assert next in Keys(Regions) by {
        match presses[0]
        case MapButton(k) =>
        case StatsButton(k) => if k < |Regions| { assert Keys(Regions)[k] == Regions[k].0; }
      }
      RunStaysInTable(mapKeys, next, presses[1..]);
    }
  }

  /** With the corrected keys, whatever the user presses the panel has a region. */
  lemma {:induction false} CorrectedDashboardAlwaysDefined(presses: seq<Press>)
    ensures SelectedStats(Run(CorrectedMapButtonKeys, InitialRegion, presses)).Some?
  {
    RegionKeysDistinct();
    RunStaysInTable(CorrectedMapButtonKeys, InitialRegion, presses);
  }

  /** As written, one press is enough to lose the region. */
  lemma {:induction false} OnePressLosesRegion()
    ensures SelectedStats(Run(MapButtonKeys, InitialRegion, [MapButton(1)])).None?
  {
    RegionKeysDistinct();
    assert Run(MapButtonKeys, InitialRegion, [MapButton(1)]) == "north-america";
  }

  /** A button is drawn as active when its key is the selected one. */
  predicate IsActive(selected: string, key: string) {
    selected == key
  }

  /** As written, the map buttons "north-america" and "asia-pacific" light
      no statistics button, while "global" and "europe" light exactly the
      statistics button with the same key. */
  lemma {:induction false} MapSelectionUnmatchedBelow()
    ensures forall j :: 0 <= j < |Regions| ==> !IsActive(MapButtonKeys[1], Regions[j].0) && !IsActive(MapButtonKeys[3], Regions[j].0)
    ensures forall j :: 0 <= j < |Regions| ==> (IsActive(MapButtonKeys[0], Regions[j].0) <==> j == 0)
    ensures forall j :: 0 <= j < |Regions| ==> (IsActive(MapButtonKeys[2], Regions[j].0) <==> j == 2)
  {
    RegionKeysDistinct();
  }

  /** With the corrected keys, map button `k` and statistics button `k` set
      the same key, so whichever row is pressed, the two rows light the
      matching pair and no other statistics button. */
  lemma {:induction false} CorrectedMapButtonsMatchStats(k: nat)
    requires k < |CorrectedMapButtonKeys|
    ensures CorrectedMapButtonKeys[k] == Regions[k].0
    ensures forall j :: 0 <= j < |Regions| ==> (IsActive(CorrectedMapButtonKeys[k], Regions[j].0) <==> j == k)
  {
    RegionKeysDistinct();
    assert CorrectedMapButtonKeys[k] == Keys(Regions)[k];
  }

  /** `region.replace('-', ' ')`: the first dash becomes a blank. */
  function ReplaceFirstDash(s: string): (r: string)
    ensures |r| == |s|
    ensures '-' !in s ==> r == s
    ensures forall i :: 0 <= i < |s| && r[i] != s[i] ==> s[i] == '-' && r[i] == ' ' && '-' !in s[..i]
  {
    if s == [] then []
    else if s[0] == '-' then [' '] + s[1..]
    else [s[0]] + ReplaceFirstDash(s[1..])
  }

  /** The dash replaced is the first one, wherever it stands. */
  lemma {:induction false} ReplaceAtFirstDash(a: string, b: string)
    requires '-' !in a
    ensures ReplaceFirstDash(a + "-" + b) == a + " " + b
  {
    var s := a + "-" + b;
    if a == [] {
      assert s == ['-'] + b && s[1..] == b;
    } else {
      assert s[0] == a[0] != '-';
      assert s[1..] == a[1..] + "-" + b;
      assert '-' !in a[1..];
      ReplaceAtFirstDash(a[1..], b);
      assert ReplaceFirstDash(s) == [a[0]] + (a[1..] + " " + b);
      assert [a[0]] + (a[1..] + " " + b) == a + " " + b;
    }
  }

  /** The regional facility counts add up to the global count. */
  lemma {:induction false} FacilitiesAddUp()
    ensures Regions[1].1.facilities + Regions[2].1.facilities + Regions[3].1.facilities + Regions[4].1.facilities
      == Regions[0].1.facilities
  {
  }

  /** A year of the growth chart; the value is kept in tenths of a billion
      dollars and the growth in tenths of a percent. */
  datatype MarketPoint = MarketPoint(year: string, valueTenths: nat, growthTenths: nat)

  const MarketData: seq<MarketPoint> := [
    MarketPoint("2020", 85, 52), MarketPoint("2021", 92, 82), MarketPoint("2022", 101, 98),
    MarketPoint("2023", 113, 119), MarketPoint("2024", 124, 97), MarketPoint("2025", 138, 113),
    MarketPoint("2026", 154, 116)
  ]

  /** The chart's scale: a bar of height 100% stands for $16B. */
  const ChartMaxTenths := 160

  /** Every bar is below the full height, and the bars rise year by year. */
  lemma {:induction false} BarsFitChart()
    ensures forall k :: 0 <= k < |MarketData| ==> MarketData[k].valueTenths < ChartMaxTenths
    ensures forall k :: 0 <= k < |MarketData| - 1 ==> MarketData[k].valueTenths < MarketData[k + 1].valueTenths
  {
  }
}
