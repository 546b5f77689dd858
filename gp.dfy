/** Fixed seasonal growth-potential patterns per grass family, and the
    GP-proportional split of the annual nitrogen total. */
module GrowthPotential {
  import opened RealSeqs
  import opened Text
  import opened Wrappers
  import Constants
  import GpModel

  /** _get_cool_season_gp: peaks in spring and autumn, dips in summer. */
  function CoolSeasonGp(): seq<real>
  {
    [0.3, 0.4, 0.7, 0.9, 0.95, 0.8, 0.6, 0.5, 0.7, 0.85, 0.6, 0.4]
  }

  /** _get_warm_season_gp: peaks in summer. */
  function WarmSeasonGp(): seq<real>
  {
    [0.2, 0.3, 0.5, 0.7, 0.85, 0.95, 0.98, 0.95, 0.85, 0.7, 0.5, 0.3]
  }

  /** The 日本芝 pattern: summer peak, winter dormancy. */
  function JapaneseGp(): seq<real>
  {
    [0.1, 0.15, 0.3, 0.6, 0.85, 0.95, 0.98, 0.95, 0.85, 0.6, 0.3, 0.15]
  }

  /** The WOS averaging branch: the monthly mean of the cool and warm patterns. */
  function WosMeanGp(): (gp: seq<real>)
    ensures |gp| == 12
    ensures forall i :: 0 <= i < 12 ==> gp[i] == (CoolSeasonGp()[i] + WarmSeasonGp()[i]) / 2.0
  {
    seq(12, i requires 0 <= i < 12 => (CoolSeasonGp()[i] + WarmSeasonGp()[i]) / 2.0)
  }

  /** The default pattern for any other label. */
  function DefaultGp(): seq<real>
  {
    Constant(12, 0.7)
  }

  const WosLabel: string := "WOS（季節で寒地型／暖地型が優勢）"

  /** Every pattern has twelve months, each GP in [0, 1]. */
  lemma PatternsWellFormed()
    ensures |CoolSeasonGp()| == 12 && AllWithin(CoolSeasonGp(), 0.0, 1.0)
    ensures |WarmSeasonGp()| == 12 && AllWithin(WarmSeasonGp(), 0.0, 1.0)
    ensures |JapaneseGp()| == 12 && AllWithin(JapaneseGp(), 0.0, 1.0)
    ensures |WosMeanGp()| == 12 && AllWithin(WosMeanGp(), 0.0, 1.0)
    ensures |DefaultGp()| == 12 && AllWithin(DefaultGp(), 0.0, 1.0)
  {
  }

  /** calculate_growth_potential: substring tests in the order 寒地型, 暖地型,
      日本芝, then the exact WOS label, then the default. The year (taken from
      the clock when absent) does not enter the result. */
  function CalculateGrowthPotential(grassType: string, year: Option<int> := None): seq<real>
  {
    if Contains(grassType, "寒地型") then CoolSeasonGp()
    else if Contains(grassType, "暖地型") then WarmSeasonGp()
    else if Contains(grassType, "日本芝") then JapaneseGp()
    else if grassType == WosLabel then WosMeanGp()
    else DefaultGp()
  }

  lemma WosLabelIsCool()
    ensures WosLabel == Constants.GrassLabel(Constants.Wos)
    ensures Contains(WosLabel, "寒地型")
  {
    assert MatchesAt(WosLabel, "寒地型", 7);
  }

  /** Each grass label gets its family's pattern; WOS gets the cool pattern. */
  lemma {:induction false} GrowthPotentialByGrass(g: Constants.GrassType, year: Option<int>)
    ensures CalculateGrowthPotential(Constants.GrassLabel(g), year) ==
      match g
      case CoolCompetition | CoolGreen | Wos => CoolSeasonGp()
      case WarmCompetition | WarmGreen | WarmFairway => WarmSeasonGp()
      case JapaneseFairway | JapaneseZoysia => JapaneseGp()
  {
    var name := Constants.GrassLabel(g);
    match g
    case CoolCompetition => assert MatchesAt(name, "寒地型", 0);
    case CoolGreen => assert MatchesAt(name, "寒地型", 0);
    case Wos => WosLabelIsCool();
    case WarmCompetition =>
      FirstCharMissing(name, "寒地型");
      assert MatchesAt(name, "暖地型", 0);
    case WarmGreen =>
      FirstCharMissing(name, "寒地型");
      assert MatchesAt(name, "暖地型", 0);
    case WarmFairway =>
      FirstCharMissing(name, "寒地型");
      assert MatchesAt(name, "暖地型", 0);
    case JapaneseFairway =>
      FirstCharMissing(name, "寒地型");
      FirstCharMissing(name, "暖地型");
      assert MatchesAt(name, "日本芝", 0);
    case JapaneseZoysia =>
      FirstCharMissing(name, "寒地型");
      FirstCharMissing(name, "暖地型");
      assert MatchesAt(name, "日本芝", 0);
  }

  /** The averaging branch is dead: the only label it accepts contains 寒地型,
      so no label, whatever the year, is given the WOS mean. */
  lemma {:induction false} WosMeanNeverReturned(grassType: string, year: Option<int>)
    ensures CalculateGrowthPotential(grassType, year) != WosMeanGp()
    ensures CalculateGrowthPotential(grassType, year) in [CoolSeasonGp(), WarmSeasonGp(), JapaneseGp(), DefaultGp()]
  {
    WosLabelIsCool();
    var mean := WosMeanGp();
    assert mean[0] == 0.25;
    assert CoolSeasonGp()[0] != 0.25 && WarmSeasonGp()[0] != 0.25 && JapaneseGp()[0] != 0.25 && DefaultGp()[0] != 0.25;
  }

  /** calculate_growth_potentials: the exact WOS label is tested first and gets
      main, cool and warm; 寒地型 labels get main and cool; 暖地型 labels get
      main and warm; any other label gets main only. */
  function CalculateGrowthPotentials(grassType: string, year: Option<int> := None): (m: map<string, seq<real>>)
    ensures "main" in m
    ensures m.Keys <= {"main", "cool", "warm"}
  {
    if grassType == WosLabel then
      map["main" := CalculateGrowthPotential(grassType, year), "cool" := CoolSeasonGp(), "warm" := WarmSeasonGp()]
    else if Contains(grassType, "寒地型") then
      var gp := CoolSeasonGp();
      map["main" := gp, "cool" := gp]
    else if Contains(grassType, "暖地型") then
      var gp := WarmSeasonGp();
      map["main" := gp, "warm" := gp]
    else
      map["main" := CalculateGrowthPotential(grassType, year)]
  }

  /** The "main" entry always agrees with calculate_growth_potential. */
  lemma {:induction false} MainAgreesWithGrowthPotential(grassType: string, year: Option<int>)
    ensures CalculateGrowthPotentials(grassType, year)["main"] == CalculateGrowthPotential(grassType, year)
  {
    if grassType == WosLabel {
      WosLabelIsCool();
    }
  }

  /** The keys and entries each grass label receives. */
  lemma {:induction false} GrowthPotentialsByGrass(g: Constants.GrassType, year: Option<int>)
    ensures var m := CalculateGrowthPotentials(Constants.GrassLabel(g), year);
      match g
      case Wos => m.Keys == {"main", "cool", "warm"} && m["main"] == m["cool"] == CoolSeasonGp() && m["warm"] == WarmSeasonGp()
      case CoolCompetition | CoolGreen => m.Keys == {"main", "cool"} && m["main"] == m["cool"] == CoolSeasonGp()
      case WarmCompetition | WarmGreen | WarmFairway => m.Keys == {"main", "warm"} && m["main"] == m["warm"] == WarmSeasonGp()
      case JapaneseFairway | JapaneseZoysia => m.Keys == {"main"} && m["main"] == JapaneseGp()
  {
    var name := Constants.GrassLabel(g);
    match g
    case Wos => WosGrowthPotentials(year);
    case CoolCompetition => CoolGrowthPotentials(name, year);
    case CoolGreen => CoolGrowthPotentials(name, year);
    case WarmCompetition => WarmGrowthPotentials(name, year);
    case WarmGreen => WarmGrowthPotentials(name, year);
    case WarmFairway => WarmGrowthPotentials(name, year);
    case JapaneseFairway => JapaneseGrowthPotentials(name, year);
    case JapaneseZoysia => JapaneseGrowthPotentials(name, year);
  }

  lemma WosGrowthPotentials(year: Option<int>)
    ensures var m := CalculateGrowthPotentials(WosLabel, year);
      m.Keys == {"main", "cool", "warm"} && m["main"] == m["cool"] == CoolSeasonGp() && m["warm"] == WarmSeasonGp()
  {
    WosLabelIsCool();
  }

  lemma CoolGrowthPotentials(name: string, year: Option<int>)
    requires name == Constants.GrassLabel(Constants.CoolCompetition) || name == Constants.GrassLabel(Constants.CoolGreen)
    ensures var m := CalculateGrowthPotentials(name, year);
      m.Keys == {"main", "cool"} && m["main"] == m["cool"] == CoolSeasonGp()
  {
    assert MatchesAt(name, "寒地型", 0);
    assert name != WosLabel;
  }

  lemma WarmGrowthPotentials(name: string, year: Option<int>)
    requires name == Constants.GrassLabel(Constants.WarmCompetition) || name == Constants.GrassLabel(Constants.WarmGreen)
      || name == Constants.GrassLabel(Constants.WarmFairway)
    ensures var m := CalculateGrowthPotentials(name, year);
      m.Keys == {"main", "warm"} && m["main"] == m["warm"] == WarmSeasonGp()
  {
    FirstCharMissing(name, "寒地型");
    assert MatchesAt(name, "暖地型", 0);
    assert name != WosLabel;
  }

  lemma JapaneseGrowthPotentials(name: string, year: Option<int>)
    requires name == Constants.GrassLabel(Constants.JapaneseFairway) || name == Constants.GrassLabel(Constants.JapaneseZoysia)
    ensures var m := CalculateGrowthPotentials(name, year);
      m.Keys == {"main"} && m["main"] == JapaneseGp()
  {
    FirstCharMissing(name, "寒地型");
    FirstCharMissing(name, "暖地型");
    assert MatchesAt(name, "日本芝", 0);
    assert name != WosLabel;
  }

  /** get_monthly_n_distribution: the annual N split in proportion to GP, or
      evenly when the GP values sum to zero. */
  function GetMonthlyNDistribution(annualN: real, gpValues: seq<real>): (monthlyN: seq<real>)
    ensures Sum(monthlyN) == annualN
    ensures Sum(gpValues) == 0.0 ==> monthlyN == Constant(12, annualN / 12.0)
    ensures Sum(gpValues) != 0.0 ==> |monthlyN| == |gpValues|
    ensures 0.0 <= annualN && AllNonNegative(gpValues) ==> AllNonNegative(monthlyN)
  {
    var gpSum := Sum(gpValues);
    if gpSum == 0.0 then
      SumConstant(12, annualN / 12.0);
      Constant(12, annualN / 12.0)
    else
      var shares := Divide(gpValues, gpSum);
      DivideByTotalSumsToOne(gpValues);
      DivideByTotalNonNegative(gpValues);
      SumScale(shares, annualN);
      ScaleNonNegative(shares, annualN);
      Scale(shares, annualN)
  }

  /** The N split is the annual amount times normalize_gp_ratios of the same GP
      values, in both the proportional and the even case. */
  lemma NDistributionIsScaledRatios(annualN: real, gpValues: seq<real>)
    ensures GetMonthlyNDistribution(annualN, gpValues) == Scale(GpModel.NormalizeGpRatios(gpValues), annualN)
  {
    if Sum(gpValues) == 0.0 {
      assert forall i :: 0 <= i < 12 ==> Scale(Uniform(), annualN)[i] == annualN / 12.0;
    }
  }
}
