/** The older economic comparison module: the same matching game over its
    own list, and the return-on-investment table with its payback and ROI
    figures printed to one decimal. */
module LegacyEconomicComparison {
  import opened Common
  import opened EconomicComparison

  const MatchingItems: seq<MatchItem> := [
    MatchItem(1, "Tc-99m", "Cost-effective medical imaging"),
    MatchItem(2, "Co-60", "Portable industrial testing"),
    MatchItem(3, "I-131", "Targeted thyroid treatment"),
    MatchItem(4, "Cs-137", "Precise material gauging")
  ]

  /** The older copy's board: the shared game over its own list. */
  method NewLegacyBoard() returns (board: MatchingBoard)
    ensures fresh(board) && board.game == MatchingItems
    ensures board.draggedItem == None && board.matchedPairs == [] && board.Valid()
  {
    board := new MatchingBoard(MatchingItems);
  }

  /** The older list pairs the same isotopes with other captions, under the same ids. */
  lemma {:induction false} SameIsotopesAsCurrentGame()
    ensures |MatchingItems| == |MatchingGame| && IdsDistinct(MatchingItems)
    ensures forall k :: 0 <= k < |MatchingItems| ==>
      MatchingItems[k].id == MatchingGame[k].id && MatchingItems[k].isotope == MatchingGame[k].isotope
  {
  }

  /** Dropping Co-60 on its slot four times shows the banner in the older
      copy too, with only that one slot matched. */
  method LegacyRepeatedDropsShowBanner() returns (banner: bool, firstMatched: bool)
    ensures banner && !firstMatched
  {
    var board := NewLegacyBoard();
    var n := 0;
    while n < 4
      invariant 0 <= n <= 4 && board.game == MatchingItems
      invariant board.matchedPairs == seq(n, _ => MatchingItems[1])
      invariant board.Valid()
    {
      board.DragStart(1);
      board.Drop(1);
      n := n + 1;
    }
    banner := board.ShowsBanner();
    firstMatched := board.SlotMatched(0);
  }

  /** A row of the ROI table; the third figure (patients, tonnage,
      inspections) is display text beside the computation. */
  datatype RoiEntry = RoiEntry(key: string, investment: nat, annualSavings: nat)

  const RoiCalculator: seq<RoiEntry> := [
    RoiEntry("medicalImaging", 50000, 25000),
    RoiEntry("foodIrradiation", 200000, 150000),
    RoiEntry("industrialTesting", 75000, 40000)
  ]

  /** `num / den` in tenths, rounded to nearest with halves up, as `toFixed(1)` does. */
  function RoundTenths(num: nat, den: nat): (t: nat)
    requires den > 0
    ensures 2 * den * t <= 20 * num + den < 2 * den * (t + 1)
  {
    (20 * num + den) / (2 * den)
  }

  /** A count of tenths written with one decimal: "2.0", "53.3". */
  function Tenths(t: nat): (s: string)
    ensures |s| >= 3 && s[|s| - 2] == '.'
    ensures s[..|s| - 2] == NatToString(t / 10)
    ensures s[|s| - 1] == DigitChar(t % 10)
  {
    NatToString(t / 10) + "." + [DigitChar(t % 10)]
  }

  datatype Roi = Roi(paybackPeriod: string, roi: string)

  /** `calculateROI`: years to pay back, and yearly savings as a percentage of the investment. */
  function CalculateROI(investment: nat, annualSavings: nat): (r: Roi)
    requires investment > 0 && annualSavings > 0
    ensures exists t: nat :: (r.paybackPeriod == Tenths(t)
      && 2 * annualSavings * t <= 20 * investment + annualSavings < 2 * annualSavings * (t + 1))
    ensures exists u: nat :: (r.roi == Tenths(u)
      && 2 * investment * u <= 20 * (100 * annualSavings) + investment < 2 * investment * (u + 1))
  {
    Roi(Tenths(RoundTenths(investment, annualSavings)), Tenths(RoundTenths(100 * annualSavings, investment)))
  }

  /** Every row saves something each year and less than it cost, so both
      divisions are defined. */
  lemma {:induction false} RoiTableWellFormed()
    ensures forall k :: 0 <= k < |RoiCalculator| ==>
      0 < RoiCalculator[k].annualSavings < RoiCalculator[k].investment
  {
  }

  /** The figures the three cards show: payback 2.0, 1.3 and 1.9 years,
      ROI 50.0, 75.0 and 53.3 percent. */
  lemma {:induction false} MedicalImagingFigures()
    ensures CalculateROI(50000, 25000) == Roi("2.0", "50.0")
  {
    assert RoundTenths(50000, 25000) == 20;
    assert RoundTenths(100 * 25000, 50000) == 500;
    assert NatToString(2) == "2" && NatToString(50) == "50";
  }

  lemma {:induction false} FoodIrradiationFigures()
    ensures CalculateROI(200000, 150000) == Roi("1.3", "75.0")
  {
    assert RoundTenths(200000, 150000) == 13;
    assert RoundTenths(100 * 150000, 200000) == 750;
    assert NatToString(1) == "1" && NatToString(75) == "75";
  }

  lemma {:induction false} IndustrialTestingFigures()
    ensures CalculateROI(75000, 40000) == Roi("1.9", "53.3")
  {
    assert RoundTenths(75000, 40000) == 19;
    assert RoundTenths(100 * 40000, 75000) == 533;
    assert NatToString(1) == "1" && NatToString(53) == "53";
  }
}
