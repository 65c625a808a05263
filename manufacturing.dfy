/** The manufacturing model page: a table of three production facilities,
    each offered in three sizes, the selected isotope, size and time horizon,
    and the financial projection computed from the two table lookups. */
module Manufacturing {
  import opened Common

  /** One facility size: the build cost, the yearly operating cost and the capacity caption. */
  datatype SizeCosts = SizeCosts(initial: nat, operating: nat, capacity: string)

  datatype Equipment = Equipment(name: string, cost: nat)

  /** One table entry; the description, regulations and risks are display text and are not modelled. */
  datatype Facility = Facility(
    name: string,
    costs: seq<(string, SizeCosts)>,
    timeline: string,
    equipment: seq<Equipment>,
    revenue: seq<(string, int)>,
    profitMarginPercent: nat)

  const ManufacturingData: seq<(string, Facility)> := [
    ("tc-99m", Facility("Technetium-99m Production Facility",
      [("small", SizeCosts(50000000, 15000000, "5M Ci/year")),
       ("medium", SizeCosts(100000000, 25000000, "15M Ci/year")),
       ("large", SizeCosts(200000000, 40000000, "35M Ci/year"))],
      "2-3 years",
      [Equipment("Mo-99/Tc-99m Generator Systems", 10000000), Equipment("Hot Cell Laboratory", 15000000),
       Equipment("Quality Control Systems", 8000000), Equipment("Packaging & Shipping Facility", 5000000)],
      [("small", 30000000), ("medium", 85000000), ("large", 180000000)],
      22)),
    ("co-60", Facility("Cobalt-60 Production Facility",
      [("small", SizeCosts(75000000, 20000000, "25K Ci/year")),
       ("medium", SizeCosts(150000000, 35000000, "60K Ci/year")),
       ("large", SizeCosts(300000000, 60000000, "120K Ci/year"))],
      "4-5 years",
      [Equipment("Research Reactor Access", 80000000), Equipment("Irradiation Facilities", 25000000),
       Equipment("Source Encapsulation", 12000000), Equipment("Storage & Transport Systems", 8000000)],
      [("small", 45000000), ("medium", 110000000), ("large", 220000000)],
      28)),
    ("pu-238", Facility("Plutonium-238 Production Facility",
      [("small", SizeCosts(300000000, 50000000, "500 Ci/year")),
       ("medium", SizeCosts(500000000, 80000000, "1K Ci/year")),
       ("large", SizeCosts(800000000, 120000000, "2K Ci/year"))],
      "6-8 years",
      [Equipment("Neptunium Target Systems", 100000000), Equipment("High Security Hot Cells", 80000000),
       Equipment("Purification Systems", 60000000), Equipment("Pellet Fabrication", 40000000)],
      [("small", 150000000), ("medium", 280000000), ("large", 520000000)],
      35))
  ]

  /** A quotient kept exact: the page divides floating-point numbers, the model does not. */
  datatype Ratio = Ratio(num: int, den: int)

  function Sign(x: int): int {
    if x > 0 then 1 else if x < 0 then -1 else 0
  }

  datatype Financials = Financials(
    initialInvestment: nat,
    annualOperating: nat,
    annualRevenue: int,
    annualProfit: int,
    paybackPeriod: Ratio,
    totalProfit: int,
    roi: Ratio,
    npv: int)

  /** The page state: the two selected keys, the unused investment amount and the horizon in years. */
  datatype PageState = PageState(selectedIsotope: string, facilityType: string, investmentAmount: int, timeHorizon: int)

  const InitialState := PageState("tc-99m", "small", 100000000, 10)

  /** The values of the time-horizon menu. */
  const HorizonOptions: seq<int> := [5, 10, 15, 20]

  /** `currentData`. */
  function CurrentData(table: seq<(string, Facility)>, s: PageState): Option<Facility> {
    Lookup(table, s.selectedIsotope)
  }

  /** `calculateFinancials`, or nothing when a lookup finds no entry: a
      missing isotope, or a size missing from the isotope's costs, makes
      the page read a field of `undefined`; a size missing only from its
      revenue makes the figures NaN. */
  function CalculateFinancials(table: seq<(string, Facility)>, s: PageState): (r: Option<Financials>)
    ensures r.Some? ==> r.value.annualProfit == r.value.annualRevenue - r.value.annualOperating
    ensures r.Some? ==> r.value.totalProfit == r.value.annualProfit * s.timeHorizon
    ensures r.Some? ==> r.value.npv == r.value.totalProfit - r.value.initialInvestment
    ensures r.Some? ==> r.value.roi == Ratio(100 * r.value.npv, r.value.initialInvestment)
    ensures r.Some? ==> r.value.paybackPeriod == Ratio(r.value.initialInvestment, r.value.annualProfit)
    ensures r.Some? <==> (CurrentData(table, s).Some?
      && Lookup(CurrentData(table, s).value.costs, s.facilityType).Some?
      && Lookup(CurrentData(table, s).value.revenue, s.facilityType).Some?)
    ensures r.Some? ==> r.value.initialInvestment == Lookup(CurrentData(table, s).value.costs, s.facilityType).value.initial
    ensures r.Some? ==> r.value.annualOperating == Lookup(CurrentData(table, s).value.costs, s.facilityType).value.operating
    ensures r.Some? ==> r.value.annualRevenue == Lookup(CurrentData(table, s).value.revenue, s.facilityType).value
  {
    match CurrentData(table, s)
    case None => None
    case Some(data) =>
      match Lookup(data.costs, s.facilityType)
      case None => None
      case Some(costs) =>
        match Lookup(data.revenue, s.facilityType)
        case None => None
        case Some(revenue) =>
          var profit := revenue - costs.operating;
          var total := profit * s.timeHorizon;
          Some(Financials(costs.initial, costs.operating, revenue, profit, Ratio(costs.initial, profit),
            total, Ratio(100 * (total - costs.initial), costs.initial), total - costs.initial))
  }

  /** Every facility offers the same sizes, each once, in its costs and its revenue. */
  predicate SameSizeKeys(f: Facility) {
    Keys(f.costs) == Keys(f.revenue) && Distinct(Keys(f.costs))
  }

  /** Every size costs something to build and earns more than it costs to run. */
  predicate SizesProfitable(f: Facility) {
    forall i :: 0 <= i < |f.costs| && i < |f.revenue| ==> f.costs[i].1.initial > 0 && f.revenue[i].1 > f.costs[i].1.operating
  }

  predicate FacilityWellFormed(f: Facility) {
    SameSizeKeys(f) && SizesProfitable(f)
  }

  predicate TableWellFormed(table: seq<(string, Facility)>) {
    Distinct(Keys(table)) && forall i :: 0 <= i < |table| ==> FacilityWellFormed(table[i].1)
  }

  /** The page's own table is well formed. */
  lemma {:induction false} ManufacturingDataWellFormed()
    ensures TableWellFormed(ManufacturingData)
  {
    forall i | 0 <= i < |ManufacturingData| ensures FacilityWellFormed(ManufacturingData[i].1) {
      var f := ManufacturingData[i].1;
      assert Keys(f.costs) == ["small", "medium", "large"] == Keys(f.revenue);
    }
    assert Keys(ManufacturingData) == ["tc-99m", "co-60", "pu-238"];
  }

  /** The states the page can reach: both keys name table entries and the
      horizon is one of the menu's values. */
  predicate Reachable(table: seq<(string, Facility)>, s: PageState) {
    CurrentData(table, s).Some?
    && s.facilityType in Keys(CurrentData(table, s).value.costs)
    && s.timeHorizon in HorizonOptions
  }

  lemma {:induction false} InitialReachable()
    ensures Reachable(ManufacturingData, InitialState)
  {
    assert ManufacturingData[0].0 == "tc-99m";
    assert Keys(ManufacturingData[0].1.costs)[0] == "small";
  }

  /** An isotope button: selects the key of entry `k` of the table, keeping the size. */
  function SelectIsotope(table: seq<(string, Facility)>, s: PageState, k: nat): (r: PageState)
    requires k < |table|
    ensures Distinct(Keys(table)) ==> CurrentData(table, r) == Some(table[k].1)
    ensures r.facilityType == s.facilityType && r.timeHorizon == s.timeHorizon
    ensures r.investmentAmount == s.investmentAmount
  {
    LookupEntryIfDistinct(table, k);
    s.(selectedIsotope := table[k].0)
  }

  /** A size button of the current facility: selects the key of its size `k`. */
  function SelectSize(table: seq<(string, Facility)>, s: PageState, k: nat): (r: PageState)
    requires CurrentData(table, s).Some? && k < |CurrentData(table, s).value.costs|
    ensures r.facilityType in Keys(CurrentData(table, s).value.costs)
    ensures Distinct(Keys(CurrentData(table, s).value.costs)) ==>
      Lookup(CurrentData(table, s).value.costs, r.facilityType) == Some(CurrentData(table, s).value.costs[k].1)
    ensures CurrentData(table, r) == CurrentData(table, s)
    ensures r.selectedIsotope == s.selectedIsotope && r.timeHorizon == s.timeHorizon
    ensures r.investmentAmount == s.investmentAmount
  {
    LookupEntryIfDistinct(CurrentData(table, s).value.costs, k);
    s.(facilityType := CurrentData(table, s).value.costs[k].0)
  }

  /** The horizon menu: selects option `k`. */
  function SetTimeHorizon(s: PageState, k: nat): (r: PageState)
    requires k < |HorizonOptions|
    ensures r.timeHorizon in HorizonOptions && r.timeHorizon >= 5
    ensures r.selectedIsotope == s.selectedIsotope && r.facilityType == s.facilityType
    ensures r.investmentAmount == s.investmentAmount
  {
    s.(timeHorizon := HorizonOptions[k])
  }

  /** When every facility offers the same sizes, switching isotope keeps the selected size valid. */
  lemma {:induction false} SelectIsotopePreserves(table: seq<(string, Facility)>, s: PageState, k: nat)
    requires Reachable(table, s) && k < |table| && TableWellFormed(table)
    requires forall i :: 0 <= i < |table| ==> Keys(table[i].1.costs) == Keys(table[0].1.costs)
    ensures Reachable(table, SelectIsotope(table, s, k))
  {
    var s' := SelectIsotope(table, s, k);
    LookupEntry(table, k);
    LookupFound(table, s.selectedIsotope);
    var j :| 0 <= j < |table| && table[j] == (s.selectedIsotope, CurrentData(table, s).value);
  }

  lemma {:induction false} SelectSizePreserves(table: seq<(string, Facility)>, s: PageState, k: nat)
    requires Reachable(table, s) && k < |CurrentData(table, s).value.costs|
    ensures Reachable(table, SelectSize(table, s, k))
  {
  }

  lemma {:induction false} SetTimeHorizonPreserves(table: seq<(string, Facility)>, s: PageState, k: nat)
    requires Reachable(table, s) && k < |HorizonOptions|
    ensures Reachable(table, SetTimeHorizon(s, k))
  {
  }

  /** The three facilities offer the same three sizes. */
  lemma {:induction false} SameSizesEverywhere()
    ensures forall i :: 0 <= i < |ManufacturingData| ==>
      Keys(ManufacturingData[i].1.costs) == Keys(ManufacturingData[0].1.costs)
  {
    forall i | 0 <= i < |ManufacturingData|
      ensures Keys(ManufacturingData[i].1.costs) == Keys(ManufacturingData[0].1.costs)
    {
      assert Keys(ManufacturingData[i].1.costs) == ["small", "medium", "large"];
    }
  }

  /** The selected facility of a well-formed table is itself well formed. */
  lemma {:induction false} CurrentWellFormed(table: seq<(string, Facility)>, s: PageState)
    requires TableWellFormed(table) && CurrentData(table, s).Some?
    ensures FacilityWellFormed(CurrentData(table, s).value)
  {
    LookupFound(table, s.selectedIsotope);
    var a :| 0 <= a < |table| && table[a] == (s.selectedIsotope, CurrentData(table, s).value);
  }

  /** The position of an offered size in both the cost and the revenue lists. */
  lemma {:induction false} SizeIndex(f: Facility, size: string) returns (i: nat)
    requires SameSizeKeys(f) && size in Keys(f.costs)
    ensures i < |f.costs| && i < |f.revenue|
    ensures Lookup(f.costs, size) == Some(f.costs[i].1)
    ensures Lookup(f.revenue, size) == Some(f.revenue[i].1)
  {
    var k :| 0 <= k < |f.costs| && f.costs[k].0 == size;
    i := k;
    LookupEntry(f.costs, i);
    assert Keys(f.revenue)[i] == size;
    LookupEntry(f.revenue, i);
  }

  lemma {:induction false} ProfitableAt(f: Facility, i: nat)
    requires SizesProfitable(f) && i < |f.costs| && i < |f.revenue|
    ensures f.costs[i].1.initial > 0 && f.revenue[i].1 > f.costs[i].1.operating
  {
  }

  /** Every size a well-formed facility offers is found in its costs and its
      revenue, with a positive build cost and revenue above the operating cost. */
  lemma {:induction false} SizeFacts(f: Facility, size: string)
    requires FacilityWellFormed(f) && size in Keys(f.costs)
    ensures Lookup(f.costs, size).Some? && Lookup(f.revenue, size).Some?
    ensures Lookup(f.costs, size).value.initial > 0
    ensures Lookup(f.revenue, size).value > Lookup(f.costs, size).value.operating
  {
    var i := SizeIndex(f, size);
    ProfitableAt(f, i);
    var c, r := f.costs[i].1, f.revenue[i].1;
    assert Lookup(f.costs, size) == Some(c) && Lookup(f.revenue, size) == Some(r);
    assert c.initial > 0 && r > c.operating;
  }

  /** In a reachable state of a well-formed table, the size's costs and
      revenue entries are found, the build cost is positive and the revenue
      exceeds the operating cost. */
  lemma {:induction false} ReachableLookups(table: seq<(string, Facility)>, s: PageState)
    requires TableWellFormed(table) && Reachable(table, s)
    ensures Lookup(CurrentData(table, s).value.costs, s.facilityType).Some?
    ensures Lookup(CurrentData(table, s).value.revenue, s.facilityType).Some?
    ensures Lookup(CurrentData(table, s).value.costs, s.facilityType).value.initial > 0
    ensures Lookup(CurrentData(table, s).value.revenue, s.facilityType).value
      > Lookup(CurrentData(table, s).value.costs, s.facilityType).value.operating
  {
    CurrentWellFormed(table, s);
    SizeFacts(CurrentData(table, s).value, s.facilityType);
  }

  /** In every reachable state both lookups succeed, the facility makes a
      profit every year, so the payback divisor is positive, and the ROI has
      the sign of the NPV. */
  lemma {:induction false} ReachableFinancials(table: seq<(string, Facility)>, s: PageState)
    requires TableWellFormed(table) && Reachable(table, s)
    ensures CalculateFinancials(table, s).Some?
    ensures CalculateFinancials(table, s).value.annualProfit > 0
    ensures CalculateFinancials(table, s).value.paybackPeriod.den > 0
    ensures CalculateFinancials(table, s).value.roi.den > 0
    ensures Sign(CalculateFinancials(table, s).value.roi.num) == Sign(CalculateFinancials(table, s).value.npv)
  {
    ReachableLookups(table, s);
  }

  /** The investment amount kept in the state plays no part in the projection. */
  lemma {:induction false} InvestmentAmountUnused(table: seq<(string, Facility)>, s: PageState, amount: int)
    ensures CalculateFinancials(table, s.(investmentAmount := amount)) == CalculateFinancials(table, s)
  {
  }

  /** A press on isotope button `k`, size button `k` or horizon option `k`. */
  datatype Press = IsotopeButton(k: nat) | SizeButton(k: nat) | HorizonOption(k: nat)

  function Apply(s: PageState, p: Press): PageState {
    match p
    case IsotopeButton(k) => if k < |ManufacturingData| then SelectIsotope(ManufacturingData, s, k) else s
    case SizeButton(k) =>
      if CurrentData(ManufacturingData, s).Some? && k < |CurrentData(ManufacturingData, s).value.costs|
      then SelectSize(ManufacturingData, s, k) else s
    case HorizonOption(k) => if k < |HorizonOptions| then SetTimeHorizon(s, k) else s
  }

  /** The state after a run of presses from `s`; presses on buttons that do not exist change nothing. */
  function Run(s: PageState, presses: seq<Press>): (s': PageState)
    ensures Reachable(ManufacturingData, s) ==> Reachable(ManufacturingData, s')
    decreases |presses|
  {
    if presses == [] then s
    else
      ApplyPreserves(s, presses[0]);
      Run(Apply(s, presses[0]), presses[1..])
  }

  lemma {:induction false} ApplyPreserves(s: PageState, p: Press)
    ensures Reachable(ManufacturingData, s) ==> Reachable(ManufacturingData, Apply(s, p))
  {
    if Reachable(ManufacturingData, s) {
      match p
      case IsotopeButton(k) =>
        if k < |ManufacturingData| {
          ManufacturingDataWellFormed();
          SameSizesEverywhere();
          SelectIsotopePreserves(ManufacturingData, s, k);
        }
      case SizeButton(k) =>
      case HorizonOption(k) =>
    }
  }

  /** The margin printed for a facility is a constant of the table, and it is
      below the margin its revenue and operating cost give at every size. */
  lemma {:induction false} PrintedMarginUnderstates()
    ensures forall i :: 0 <= i < |ManufacturingData| ==>
      forall j :: 0 <= j < 3 ==>
        ManufacturingData[i].1.profitMarginPercent * ManufacturingData[i].1.revenue[j].1
          < 100 * (ManufacturingData[i].1.revenue[j].1 - ManufacturingData[i].1.costs[j].1.operating)
  {
  }
  /** Whatever the user presses, the projection is defined, profitable every year, and has a positive NPV. */
  lemma {:induction false} EveryRunHasFinancials(presses: seq<Press>)
    ensures CalculateFinancials(ManufacturingData, Run(InitialState, presses)).Some?
    ensures CalculateFinancials(ManufacturingData, Run(InitialState, presses)).value.annualProfit > 0
    ensures CalculateFinancials(ManufacturingData, Run(InitialState, presses)).value.npv > 0
  {
    InitialReachable();
    ManufacturingDataWellFormed();
    ManufacturingDataPaysBackInFive();
    ReachableFinancials(ManufacturingData, Run(InitialState, presses));
    ReachableNpvPositive(ManufacturingData, Run(InitialState, presses));
  }

  /** Every size of every facility pays back its build cost in under five years, the menu's shortest horizon. */
  predicate FacilityPaysBack(f: Facility) {
    forall j :: 0 <= j < |f.costs| && j < |f.revenue| ==>
      f.costs[j].1.initial < 5 * (f.revenue[j].1 - f.costs[j].1.operating)
  }

  predicate PaysBackWithinShortestHorizon(table: seq<(string, Facility)>) {
    forall i :: 0 <= i < |table| ==> FacilityPaysBack(table[i].1)
  }

  lemma {:induction false} ManufacturingDataPaysBackInFive()
    ensures PaysBackWithinShortestHorizon(ManufacturingData)
  {
  }

  lemma {:induction false} PaysBackAt(f: Facility, i: nat)
    requires FacilityPaysBack(f) && i < |f.costs| && i < |f.revenue|
    ensures f.costs[i].1.initial < 5 * (f.revenue[i].1 - f.costs[i].1.operating)
  {
  }

  /** The selected facility of a table that pays back within five years does too. */
  lemma {:induction false} CurrentPaysBack(table: seq<(string, Facility)>, s: PageState)
    requires PaysBackWithinShortestHorizon(table) && CurrentData(table, s).Some?
    ensures FacilityPaysBack(CurrentData(table, s).value)
  {
    LookupFound(table, s.selectedIsotope);
    var a :| 0 <= a < |table| && table[a] == (s.selectedIsotope, CurrentData(table, s).value);
  }

  /** Every value of the horizon menu is at least five years. */
  lemma {:induction false} HorizonAtLeastFive(h: int)
    requires h in HorizonOptions
    ensures h >= 5
  {
    var k :| 0 <= k < |HorizonOptions| && HorizonOptions[k] == h;
    assert HorizonOptions[k] >= 5 by {
      if k == 0 {} else if k == 1 {} else if k == 2 {} else {}
    }
  }

  /** A profit that repays the build cost within five years leaves a positive
      NPV over any horizon of at least five years. */
  lemma {:induction false} HorizonCoversPayback(initial: int, profit: int, horizon: int)
    requires profit > 0 && initial < 5 * profit && horizon >= 5
    ensures profit * horizon - initial > 0
  {
    assert profit * horizon >= profit * 5;
  }

  /** A size offered by a facility that pays back within five years is found
      in its costs and its revenue, makes a profit, and repays its build cost
      within five years. */
  lemma {:induction false} SizePaysBack(f: Facility, size: string)
    requires FacilityWellFormed(f) && FacilityPaysBack(f) && size in Keys(f.costs)
    ensures Lookup(f.costs, size).Some? && Lookup(f.revenue, size).Some?
    ensures Lookup(f.revenue, size).value > Lookup(f.costs, size).value.operating
    ensures Lookup(f.costs, size).value.initial < 5 * (Lookup(f.revenue, size).value - Lookup(f.costs, size).value.operating)
  {
    var i := SizeIndex(f, size);
    PaysBackAt(f, i);
    ProfitableAt(f, i);
    var c, r := f.costs[i].1, f.revenue[i].1;
    assert c.initial < 5 * (r - c.operating);
    assert Lookup(f.costs, size).value == c && Lookup(f.revenue, size).value == r;
  }

  /** Since the shortest horizon on the menu is five years, every reachable
      projection of a table that pays back within five years has a positive
      NPV, hence a positive ROI. */
  lemma {:induction false} ReachableNpvPositive(table: seq<(string, Facility)>, s: PageState)
    requires TableWellFormed(table) && Reachable(table, s) && PaysBackWithinShortestHorizon(table)
    ensures CalculateFinancials(table, s).Some? && CalculateFinancials(table, s).value.npv > 0
  {
    CurrentPaysBack(table, s);
    CurrentWellFormed(table, s);
    HorizonAtLeastFive(s.timeHorizon);
    SizePaysBack(CurrentData(table, s).value, s.facilityType);
    ReachableFinancials(table, s);
    var fin := CalculateFinancials(table, s).value;
    HorizonCoversPayback(fin.initialInvestment, fin.annualProfit, s.timeHorizon);
  }

}
