/** The isotope cost analyzer: a table of five isotopes keyed by symbol, the
    regional-distribution strings it splits into a name and a percentage,
    the price projections, and the risk and competitor cards it derives
    from each entry's position in its list. */
module CostAnalyzer {
  import opened Common

  /** One table entry. The growth rate is kept in tenths of a percent
      (8.5 is 85); the opportunities are display text and are not modelled. */
  datatype IsotopeData = IsotopeData(
    name: string,
    halfLife: string,
    currentPrice: nat,
    productionCost: nat,
    marketDemand: string,
    growthRateTenths: nat,
    applications: seq<string>,
    regions: seq<string>,
    competitors: seq<string>,
    risks: seq<string>,
    futurePrice: seq<nat>,
    profitMargin: nat,
    marketSize: nat)

  const Isotopes: seq<(string, IsotopeData)> := [
    ("Tc-99m", IsotopeData("Technetium-99m", "6 hours", 150, 120, "Very High", 85,
      ["Medical Imaging", "SPECT Scans", "Cardiac Studies"],
      ["North America: 45%", "Europe: 30%", "Asia: 20%", "Others: 5%"],
      ["NTP Radioisotopes", "IRE", "ANSTO"],
      ["Supply Chain", "Regulatory", "Technology"],
      [150, 162, 175, 189, 204], 20, 2500000000)),
    ("Co-60", IsotopeData("Cobalt-60", "5.3 years", 1000, 750, "High", 62,
      ["Cancer Treatment", "Food Sterilization", "Industrial Radiography"],
      ["North America: 40%", "Europe: 25%", "Asia: 25%", "Others: 10%"],
      ["Bruce Power", "Nordion", "NTP Radioisotopes"],
      ["Reactor Availability", "Competition", "Regulations"],
      [1000, 1062, 1127, 1196, 1270], 25, 1800000000)),
    ("I-131", IsotopeData("Iodine-131", "8 days", 200, 150, "High", 78,
      ["Thyroid Treatment", "Thyroid Cancer", "Hyperthyroidism"],
      ["North America: 50%", "Europe: 28%", "Asia: 15%", "Others: 7%"],
      ["NTP Radioisotopes", "IRE", "Curium"],
      ["Short Half-Life", "Transport", "Storage"],
      [200, 216, 233, 251, 271], 25, 850000000)),
    ("Pu-238", IsotopeData("Plutonium-238", "87.7 years", 50000, 38000, "Medium", 153,
      ["Space Missions", "Deep Space Probes", "Mars Rovers"],
      ["North America: 70%", "Europe: 20%", "Asia: 8%", "Others: 2%"],
      ["Oak Ridge National Lab", "Roscosmos", "ESA"],
      ["Limited Production", "High Security", "Political"],
      [50000, 57650, 66464, 76634, 88330], 24, 450000000)),
    ("Cs-137", IsotopeData("Cesium-137", "30 years", 500, 380, "Medium", 45,
      ["Industrial Gauging", "Well Logging", "Level Detection"],
      ["North America: 35%", "Europe: 30%", "Asia: 25%", "Others: 10%"],
      ["Eckert & Ziegler", "NTP Radioisotopes", "Curium"],
      ["Alternative Technologies", "Security Concerns", "Waste Management"],
      [500, 523, 546, 571, 596], 24, 320000000))
  ]

  /** The key selected before any button is pressed. */
  const InitialIsotope := "Tc-99m"

  /** `currentIsotope`, or nothing when the key is not in the table. */
  function CurrentIsotope(key: string): (r: Option<IsotopeData>)
    ensures r.Some? <==> key in Keys(Isotopes)
    ensures r.Some? ==> (key, r.value) in Isotopes
  {
    var r := Lookup(Isotopes, key);
    if r.Some? then LookupFound(Isotopes, key); r else r
  }

  /** The initial key and every button's key (the table's own keys) find an entry. */
  lemma {:induction false} SelectionAlwaysDefined(k: nat)
    requires k < |Isotopes|
    ensures CurrentIsotope(InitialIsotope) == Some(Isotopes[0].1)
    ensures CurrentIsotope(Keys(Isotopes)[k]) == Some(Isotopes[k].1)
  {
    assert Keys(Isotopes) == ["Tc-99m", "Co-60", "I-131", "Pu-238", "Cs-137"];
    LookupEntry(Isotopes, 0);
    LookupEntry(Isotopes, k);
  }

  // ---------------------------------------------------------------------
  // Regional distribution strings

  /** What a region string says: a region name and a whole percentage. */
  datatype RegionShare = RegionShare(name: string, percent: nat)

  /** The string a share is written as in the table: "North America: 45%". */
  function RegionText(r: RegionShare): string {
    r.name + ": " + NatToString(r.percent) + "%"
  }

  /** `region.split(':')[0]`, the caption. */
  function RegionName(region: string): (name: string)
    ensures ':' !in name && |name| <= |region| && name == region[..|name|]
    ensures |name| < |region| ==> region[|name|] == ':'
  {
    SplitFirst(region, ':');
    Split(region, ':')[0]
  }

  /** `region.split(':')[1].trim()`, the bar width and the figure beside it;
      nothing when there is no ':' (where the page would call `trim` on `undefined`). */
  function RegionPercentage(region: string): (r: Option<string>)
    ensures r.None? <==> ':' !in region
    ensures r.Some? ==> ':' !in r.value
    ensures r.Some? && r.value != [] ==> !IsSpace(r.value[0]) && !IsSpace(r.value[|r.value| - 1])
  {
    var parts := Split(region, ':');
    SplitFirst(region, ':');
    if |parts| < 2 then None
    else
      TrimKeepsAbsent(parts[1], ':');
      Some(Trim(parts[1]))
  }

  /** The number a percentage string such as "45%" stands for. */
  function ParsePercent(s: string): Option<nat> {
    if |s| >= 2 && s[|s| - 1] == '%' && forall i :: 0 <= i < |s| - 1 ==> IsDigit(s[i])
    then Some(ParseDigits(s[..|s| - 1]))
    else None
  }

  /** The text after the ':' of a region string: a blank, the digits and '%'. */
  function PercentSuffix(n: nat): string {
    " " + NatToString(n) + "%"
  }

  lemma {:induction false} SplitRegionText(r: RegionShare)
    requires ':' !in r.name
    ensures Split(RegionText(r), ':') == [r.name, PercentSuffix(r.percent)]
  {
    var rest := PercentSuffix(r.percent);
    assert RegionText(r) == r.name + [':'] + rest;
    assert ':' !in rest by {
      assert forall i :: 0 <= i < |rest| ==> rest[i] == ' ' || rest[i] == '%' || IsDigit(rest[i]);
    }
    SplitOnce(r.name, rest, ':');
  }

  /** Trimming the suffix leaves "{n}%". */
  lemma {:induction false} TrimPercentSuffix(n: nat)
    ensures Trim(PercentSuffix(n)) == NatToString(n) + "%"
  {
    var pct := NatToString(n) + "%";
    assert PercentSuffix(n) == " " + pct;
    assert IsDigit(pct[0]) && pct[|pct| - 1] == '%';
    TrimLeadingBlank(pct);
  }

  /** "{n}%" reads back as `n`. */
  lemma {:induction false} ParsePercentText(n: nat)
    ensures ParsePercent(NatToString(n) + "%") == Some(n)
  {
    var digits := NatToString(n);
    var pct := digits + "%";
    assert pct[..|pct| - 1] == digits;
    assert forall i :: 0 <= i < |pct| - 1 ==> IsDigit(pct[i]);
    ParseNatToString(n);
  }

  /** A region string written from a share splits back into that share's
      name and percentage, and holds exactly one ':'. */
  lemma {:induction false} RegionTextRoundTrip(r: RegionShare)
    requires ':' !in r.name
    ensures CountChar(RegionText(r), ':') == 1
    ensures RegionName(RegionText(r)) == r.name
    ensures RegionPercentage(RegionText(r)) == Some(NatToString(r.percent) + "%")
    ensures ParsePercent(RegionPercentage(RegionText(r)).value) == Some(r.percent)
  {
    SplitRegionText(r);
    TrimPercentSuffix(r.percent);
    ParsePercentText(r.percent);
  }

  /** The shares the five isotopes' region strings are written from. */
  const RegionShares: seq<seq<RegionShare>> := [
    [RegionShare("North America", 45), RegionShare("Europe", 30), RegionShare("Asia", 20), RegionShare("Others", 5)],
    [RegionShare("North America", 40), RegionShare("Europe", 25), RegionShare("Asia", 25), RegionShare("Others", 10)],
    [RegionShare("North America", 50), RegionShare("Europe", 28), RegionShare("Asia", 15), RegionShare("Others", 7)],
    [RegionShare("North America", 70), RegionShare("Europe", 20), RegionShare("Asia", 8), RegionShare("Others", 2)],
    [RegionShare("North America", 35), RegionShare("Europe", 30), RegionShare("Asia", 25), RegionShare("Others", 10)]
  ]

  function RegionTexts(shares: seq<RegionShare>): (texts: seq<string>)
    ensures |texts| == |shares|
    ensures forall j :: 0 <= j < |shares| ==> texts[j] == RegionText(shares[j])
  {
    seq(|shares|, j requires 0 <= j < |shares| => RegionText(shares[j]))
  }

  function SumPercents(shares: seq<RegionShare>): nat {
    if shares == [] then 0 else shares[0].percent + SumPercents(shares[1..])
  }

  /** The number a region string's percentage stands for, if it has one. */
  function PercentOf(region: string): Option<nat> {
    match RegionPercentage(region)
    case None => None
    case Some(pct) => ParsePercent(pct)
  }

  function SumOptions(ps: seq<Option<nat>>): Option<nat> {
    if ps == [] then Some(0)
    else
      match (ps[0], SumOptions(ps[1..]))
      case (Some(p), Some(rest)) => Some(p + rest)
      case _ => None
  }

  /** The total of the percentages a list of region strings states, or
      nothing when one of them does not split into a percentage. */
  function RegionTotal(regions: seq<string>): Option<nat> {
    SumOptions(seq(|regions|, j requires 0 <= j < |regions| => PercentOf(regions[j])))
  }

  lemma {:induction false} SumOfShares(shares: seq<RegionShare>)
    ensures SumOptions(seq(|shares|, j requires 0 <= j < |shares| => Some(shares[j].percent))) == Some(SumPercents(shares))
  {
    if shares != [] {
      var ps := seq(|shares|, j requires 0 <= j < |shares| => Some(shares[j].percent));
      assert ps[1..] == seq(|shares[1..]|, j requires 0 <= j < |shares[1..]| => Some(shares[1..][j].percent));
      SumOfShares(shares[1..]);
    }
  }

  /** Read back through the page's split and trim, strings written from shares give the shares' total. */
  lemma {:induction false} RegionTotalOfTexts(shares: seq<RegionShare>)
    requires forall j :: 0 <= j < |shares| ==> ':' !in shares[j].name
    ensures RegionTotal(RegionTexts(shares)) == Some(SumPercents(shares))
  {
    var texts := RegionTexts(shares);
    var ps := seq(|texts|, j requires 0 <= j < |texts| => PercentOf(texts[j]));
    forall j | 0 <= j < |shares| ensures ps[j] == Some(shares[j].percent) {
      RegionTextRoundTrip(shares[j]);
    }
    assert ps == seq(|shares|, j requires 0 <= j < |shares| => Some(shares[j].percent));
    SumOfShares(shares);
  }

  lemma {:induction false} FourRegionTexts(shares: seq<RegionShare>, regions: seq<string>)
    requires |shares| == 4 && |regions| == 4
    requires RegionText(shares[0]) == regions[0] && RegionText(shares[1]) == regions[1]
    requires RegionText(shares[2]) == regions[2] && RegionText(shares[3]) == regions[3]
    ensures regions == RegionTexts(shares)
  {
  }

  // The region strings of each isotope, written from its shares.

  lemma {:induction false} TcRegionTexts()
    ensures Isotopes[0].1.regions == RegionTexts(RegionShares[0])
  {
    var sh := RegionShares[0];
    assert RegionText(sh[0]) == "North America: 45%" by { assert NatToString(45) == "45"; }
    assert RegionText(sh[1]) == "Europe: 30%" by { assert NatToString(30) == "30"; }
    assert RegionText(sh[2]) == "Asia: 20%" by { assert NatToString(20) == "20"; }
    assert RegionText(sh[3]) == "Others: 5%";
    assert RegionTexts(sh) == [RegionText(sh[0]), RegionText(sh[1]), RegionText(sh[2]), RegionText(sh[3])];
  }

  lemma {:induction false} CoRegionTexts()
    ensures Isotopes[1].1.regions == RegionTexts(RegionShares[1])
  {
    var sh := RegionShares[1];
    assert RegionText(sh[0]) == "North America: 40%" by { assert NatToString(40) == "40"; }
    assert RegionText(sh[1]) == "Europe: 25%" by { assert NatToString(25) == "25"; }
    assert RegionText(sh[2]) == "Asia: 25%" by { assert NatToString(25) == "25"; }
    assert RegionText(sh[3]) == "Others: 10%" by { assert NatToString(10) == "10"; }
    assert RegionTexts(sh) == [RegionText(sh[0]), RegionText(sh[1]), RegionText(sh[2]), RegionText(sh[3])];
  }

  lemma {:induction false} IRegionTexts()
    ensures Isotopes[2].1.regions == RegionTexts(RegionShares[2])
  {
    var sh := RegionShares[2];
    assert RegionText(sh[0]) == "North America: 50%" by { assert NatToString(50) == "50"; }
    assert RegionText(sh[1]) == "Europe: 28%" by { assert NatToString(28) == "28"; }
    assert RegionText(sh[2]) == "Asia: 15%" by { assert NatToString(15) == "15"; }
    assert RegionText(sh[3]) == "Others: 7%";
    assert RegionTexts(sh) == [RegionText(sh[0]), RegionText(sh[1]), RegionText(sh[2]), RegionText(sh[3])];
  }

  lemma {:induction false} PuRegionTexts()
    ensures Isotopes[3].1.regions == RegionTexts(RegionShares[3])
  {
    var sh := RegionShares[3];
    assert RegionText(sh[0]) == "North America: 70%" by { assert NatToString(70) == "70"; }
    assert RegionText(sh[1]) == "Europe: 20%" by { assert NatToString(20) == "20"; }
    assert RegionText(sh[2]) == "Asia: 8%";
    assert RegionText(sh[3]) == "Others: 2%";
    assert RegionTexts(sh) == [RegionText(sh[0]), RegionText(sh[1]), RegionText(sh[2]), RegionText(sh[3])];
  }

  lemma {:induction false} CsRegionTexts()
    ensures Isotopes[4].1.regions == RegionTexts(RegionShares[4])
  {
    var sh := RegionShares[4];
    assert RegionText(sh[0]) == "North America: 35%" by { assert NatToString(35) == "35"; }
    assert RegionText(sh[1]) == "Europe: 30%" by { assert NatToString(30) == "30"; }
    assert RegionText(sh[2]) == "Asia: 25%" by { assert NatToString(25) == "25"; }
    assert RegionText(sh[3]) == "Others: 10%" by { assert NatToString(10) == "10"; }
    assert RegionTexts(sh) == [RegionText(sh[0]), RegionText(sh[1]), RegionText(sh[2]), RegionText(sh[3])];
  }

  /** Every isotope's region strings are the texts of its shares. */
  lemma {:induction false} RegionsAreShareTexts(k: nat)
    requires k < |Isotopes|
    ensures |RegionShares| == |Isotopes|
    ensures Isotopes[k].1.regions == RegionTexts(RegionShares[k])
  {
    if k == 0 { TcRegionTexts(); }
    else if k == 1 { CoRegionTexts(); }
    else if k == 2 { IRegionTexts(); }
    else if k == 3 { PuRegionTexts(); }
    else { CsRegionTexts(); }
  }

  /** The shares of every isotope add up to 100 and name no region with a ':'. */
  lemma {:induction false} SharesWellFormed(k: nat)
    requires k < |RegionShares|
    ensures SumPercents(RegionShares[k]) == 100
    ensures forall j :: 0 <= j < |RegionShares[k]| ==> ':' !in RegionShares[k][j].name
  {
    var sh := RegionShares[k];
    assert |sh| == 4 && sh[0].name == "North America" && sh[1].name == "Europe";
    assert sh[2].name == "Asia" && sh[3].name == "Others";
    RegionNamesColonFree();
  }

  /** None of the four region captions holds a ':'. */
  lemma {:induction false} RegionNamesColonFree()
    ensures ':' !in "North America" && ':' !in "Europe" && ':' !in "Asia" && ':' !in "Others"
  {
  }

  /** Strings written from colon-free shares each hold one ':' and total the shares' sum. */
  lemma {:induction false} RegionTextsTotal(regions: seq<string>, shares: seq<RegionShare>)
    requires regions == RegionTexts(shares)
    requires forall j :: 0 <= j < |shares| ==> ':' !in shares[j].name
    ensures forall j :: 0 <= j < |regions| ==> CountChar(regions[j], ':') == 1
    ensures RegionTotal(regions) == Some(SumPercents(shares))
  {
    forall j | 0 <= j < |regions| ensures CountChar(regions[j], ':') == 1 {
      RegionTextRoundTrip(shares[j]);
    }
    RegionTotalOfTexts(shares);
  }

  /** Every region string of every isotope holds exactly one ':', and the
      percentages the page reads out of them add up to 100. */
  lemma {:induction false} RegionsSumToHundred(k: nat)
    requires k < |Isotopes|
    ensures forall j :: 0 <= j < |Isotopes[k].1.regions| ==> CountChar(Isotopes[k].1.regions[j], ':') == 1
    ensures RegionTotal(Isotopes[k].1.regions) == Some(100)
  {
    RegionsAreShareTexts(k);
    SharesWellFormed(k);
    RegionTextsTotal(Isotopes[k].1.regions, RegionShares[k]);
  }

  // ---------------------------------------------------------------------
  // Prices

  /** For every isotope the projection has five strictly increasing prices
      starting at today's, so the price read at index 4 is the highest. */
  lemma {:induction false} FuturePricesIncrease(k: nat)
    requires k < |Isotopes|
    ensures |Isotopes[k].1.futurePrice| == 5
    ensures Isotopes[k].1.futurePrice[0] == Isotopes[k].1.currentPrice
    ensures forall j :: 0 <= j < 4 ==> Isotopes[k].1.futurePrice[j] < Isotopes[k].1.futurePrice[j + 1]
    ensures Isotopes[k].1.futurePrice[4] > Isotopes[k].1.currentPrice
  {
  }

  /** The margin printed beside the price breakdown is what price and cost
      give: the margin's share of the price is price minus cost, and the
      cost bar and the margin bar together fill the whole width. */
  lemma {:induction false} MarginMatchesPrices(k: nat)
    requires k < |Isotopes|
    ensures Isotopes[k].1.profitMargin * Isotopes[k].1.currentPrice
      == 100 * (Isotopes[k].1.currentPrice - Isotopes[k].1.productionCost)
    ensures 100 * Isotopes[k].1.productionCost
      == (100 - Isotopes[k].1.profitMargin) * Isotopes[k].1.currentPrice
  {
  }

  // ---------------------------------------------------------------------
  // Risk and competitor cards

  const RiskLevels: seq<string> := ["High", "Medium", "Low"]
  const RiskColors: seq<string> := ["bg-red-500", "bg-yellow-500", "bg-green-500"]

  /** The card of risk `i`: its impact level, its colour and its probability level. */
  datatype RiskCard = RiskCard(impact: string, color: string, probability: string)

  function RiskCardOf(i: nat): (c: RiskCard)
    ensures c.impact in RiskLevels && c.probability in RiskLevels
  {
    RiskCard(RiskLevels[i % 3], RiskColors[i % 3], RiskLevels[(i + 1) % 3])
  }

  /** Impact and probability are always different levels, the colour follows
      the impact, and the cards repeat every three risks. */
  lemma {:induction false} RiskCardProperties(i: nat)
    ensures RiskCardOf(i).impact != RiskCardOf(i).probability
    ensures RiskCardOf(i).probability == RiskCardOf(i + 1).impact
    ensures RiskCardOf(i + 3) == RiskCardOf(i)
    ensures (RiskCardOf(i).impact == "High") <==> RiskCardOf(i).color == "bg-red-500"
  {
    assert (i + 3) % 3 == i % 3;
    assert (i + 1) % 3 != i % 3;
    assert (i + 1 + 1) % 3 == (i + 2) % 3;
  }

  /** Every isotope lists three risks, so it shows one card at each impact level. */
  lemma {:induction false} ThreeRiskLevelsShown(k: nat)
    requires k < |Isotopes|
    ensures |Isotopes[k].1.risks| == 3
    ensures RiskCardOf(0).impact == "High" && RiskCardOf(1).impact == "Medium" && RiskCardOf(2).impact == "Low"
  {
  }

  /** The card of competitor `i`. */
  datatype CompetitorCard = CompetitorCard(title: string, badge: string, share: int, capacity: string, reach: string)

  function CompetitorCardOf(i: nat): (c: CompetitorCard)
    ensures i == 0 ==> c.title == "Leader" && c.capacity == "High" && c.reach == "Global"
    ensures i == 1 ==> c.title == "Major" && c.capacity == "Medium" && c.reach == "Regional"
    ensures i >= 2 ==> c.title == "Emerging" && c.capacity == "Low" && c.reach == "Local"
  {
    CompetitorCard(
      if i == 0 then "Leader" else if i == 1 then "Major" else "Emerging",
      if i == 0 then "bg-red-100 text-red-800" else if i == 1 then "bg-yellow-100 text-yellow-800" else "bg-green-100 text-green-800",
      35 - i * 10,
      if i == 0 then "High" else if i == 1 then "Medium" else "Low",
      if i == 0 then "Global" else if i == 1 then "Regional" else "Local")
  }

  /** Shares fall by ten points per position; with three competitors per
      isotope they are 35, 25 and 15 percent, all positive. */
  lemma {:induction false} CompetitorShares(k: nat, i: nat, j: nat)
    requires k < |Isotopes| && i < j
    ensures CompetitorCardOf(i).share == CompetitorCardOf(j).share + 10 * (j - i)
    ensures |Isotopes[k].1.competitors| == 3
    ensures CompetitorCardOf(0).share + CompetitorCardOf(1).share + CompetitorCardOf(2).share == 75
    ensures j < |Isotopes[k].1.competitors| ==> CompetitorCardOf(j).share > 0
  {
  }
}
