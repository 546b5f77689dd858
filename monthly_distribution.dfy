/** 月別施肥配分: the monthly distribution engine. Twelve season factors
    (a table row, scaled in spring by management intensity and around 1.0 by
    the spring strength) multiply the GP ratios; a three-zone GP limiter damps
    each month; the weights are clipped at zero, normalised and multiplied by
    the annual amount. */
module MonthlyDistribution {
  import opened RealSeqs
  import opened Text
  import opened Wrappers
  import Constants

  // ---------------------------------------------------------------------------
  // Season factor tables

  /** Normalised grass key of the season tables. */
  datatype GrassKey = CoolKey | WarmKey | JapaneseKey | WosKey

  /** Normalised usage key of the season tables. */
  datatype UsageKey = GolfKey | CompetitionKey

  /** The only stance key of the standard table. */
  const SpringKey: string := "春重点"

  /** The stance that switches off seasonal shaping. */
  const GpBased: string := "GP準拠"

  /** SEASON_FACTOR_TABLE (standard version), keyed by (grass, usage, stance). */
  const SeasonFactorTable: map<(GrassKey, UsageKey, string), seq<real>> :=
    map[
      (CoolKey, GolfKey, SpringKey) := [0.2, 0.2, 1.3, 1.5, 1.4, 1.0, 0.4, 0.4, 0.8, 0.9, 0.3, 0.3],
      (CoolKey, CompetitionKey, SpringKey) := [0.2, 0.2, 1.2, 1.4, 1.3, 1.0, 0.5, 0.5, 0.9, 1.0, 0.4, 0.3],
      (WarmKey, GolfKey, SpringKey) := [0.3, 0.4, 1.1, 1.3, 1.2, 0.8, 0.3, 0.3, 0.7, 0.9, 0.5, 0.4],
      (WarmKey, CompetitionKey, SpringKey) := [0.3, 0.4, 1.0, 1.2, 1.1, 0.9, 0.4, 0.4, 0.8, 1.0, 0.6, 0.5],
      (JapaneseKey, GolfKey, SpringKey) := [0.1, 0.2, 0.8, 1.2, 1.4, 1.3, 0.5, 0.4, 0.6, 0.7, 0.3, 0.2],
      (WosKey, GolfKey, SpringKey) := [0.2, 0.3, 1.2, 1.4, 1.3, 0.9, 0.4, 0.4, 0.8, 0.9, 0.4, 0.3],
      (WosKey, CompetitionKey, SpringKey) := [0.2, 0.3, 1.1, 1.3, 1.2, 1.0, 0.5, 0.5, 0.9, 1.0, 0.5, 0.4]
    ]

  /** SEASON_FACTOR_SPRING_HEAVY (front-loaded version), keyed by (grass, usage). */
  const SeasonFactorSpringHeavy: map<(GrassKey, UsageKey), seq<real>> :=
    map[
      (CoolKey, GolfKey) := [0.15, 0.20, 1.6, 1.9, 1.7, 1.1, 0.30, 0.25, 0.60, 0.70, 0.25, 0.15],
      (CoolKey, CompetitionKey) := [0.15, 0.20, 1.5, 1.8, 1.6, 1.0, 0.35, 0.30, 0.65, 0.75, 0.30, 0.20],
      (WarmKey, GolfKey) := [0.20, 0.30, 1.4, 1.7, 1.5, 0.9, 0.25, 0.20, 0.55, 0.65, 0.30, 0.25],
      (WarmKey, CompetitionKey) := [0.20, 0.30, 1.3, 1.6, 1.4, 1.0, 0.30, 0.25, 0.60, 0.70, 0.35, 0.30],
      (JapaneseKey, GolfKey) := [0.10, 0.15, 1.0, 1.5, 1.6, 1.4, 0.40, 0.35, 0.50, 0.60, 0.20, 0.15],
      (WosKey, GolfKey) := [0.15, 0.25, 1.5, 1.8, 1.6, 1.0, 0.30, 0.25, 0.65, 0.75, 0.30, 0.20],
      (WosKey, CompetitionKey) := [0.15, 0.25, 1.4, 1.7, 1.5, 1.1, 0.35, 0.30, 0.70, 0.80, 0.35, 0.25]
    ]

  /** MANAGEMENT_PEAK_MULTIPLIER, keyed by the intensity label. */
  const ManagementPeakMultiplier: map<string, real> := map["低" := 0.6, "中" := 0.85, "高" := 1.1]

  /** Every row of both tables has twelve positive factors of at most 1.9. */
  ghost predicate WellFormedRow(row: seq<real>)
  {
    |row| == 12 && forall i :: 0 <= i < 12 ==> 0.0 < row[i] <= 1.9
  }

  lemma TablesWellFormed()
    ensures forall k :: k in SeasonFactorTable ==> WellFormedRow(SeasonFactorTable[k])
    ensures forall k :: k in SeasonFactorSpringHeavy ==> WellFormedRow(SeasonFactorSpringHeavy[k])
  {
    StandardTableWellFormed();
    SpringHeavyTableWellFormed();
  }

  lemma StandardTableWellFormed()
    ensures forall k :: k in SeasonFactorTable ==> WellFormedRow(SeasonFactorTable[k])
  {
  }

  lemma SpringHeavyTableWellFormed()
    ensures forall k :: k in SeasonFactorSpringHeavy ==> WellFormedRow(SeasonFactorSpringHeavy[k])
  {
  }

  // ---------------------------------------------------------------------------
  // GP zones and the GP limiter

  datatype Zone = Low | Optimal | Excess

  /** gp_zone: the zone boundaries are 0.30 (optimal) and 0.75 (excess). */
  function GpZone(gp: real): (z: Zone)
    ensures z == Low <==> gp < 0.30
    ensures z == Optimal <==> 0.30 <= gp < 0.75
    ensures z == Excess <==> 0.75 <= gp
  {
    if gp < 0.30 then Low
    else if gp < 0.75 then Optimal
    else Excess
  }

  /** GP_CONTROL_FACTOR. */
  function ControlFactor(z: Zone): real
  {
    match z
    case Low => 0.4
    case Optimal => 1.0
    case Excess => 0.7
  }

  /** The factor the limiter applies to a month whose GP is `gp`. */
  function LimiterFactor(gp: real): (f: real)
    ensures gp < 0.30 ==> f == 0.4
    ensures 0.30 <= gp < 0.75 ==> f == 1.0
    ensures 0.75 <= gp ==> f == 0.7
    ensures 0.0 < f <= 1.0
  {
    ControlFactor(GpZone(gp))
  }

  /** What apply_gp_control computes: one damped weight per zipped month. */
  function GpControlled(weights: seq<real>, gpValues: seq<real>): (r: seq<real>)
    ensures |r| == if |weights| <= |gpValues| then |weights| else |gpValues|
    ensures forall i :: 0 <= i < |r| ==> r[i] == weights[i] * LimiterFactor(gpValues[i])
  {
    seq(if |weights| <= |gpValues| then |weights| else |gpValues|,
        i requires 0 <= i < |weights| && i < |gpValues| => weights[i] * ControlFactor(GpZone(gpValues[i])))
  }

  /** The limiter never raises a non-negative weight and never makes it negative. */
  lemma GpControlDamps(weights: seq<real>, gpValues: seq<real>, i: int)
    requires 0 <= i < |weights| && i < |gpValues|
    requires 0.0 <= weights[i]
    ensures 0.0 <= GpControlled(weights, gpValues)[i] <= weights[i]
  {
    var f := LimiterFactor(gpValues[i]);
    assert weights[i] * f <= weights[i] * 1.0;
  }

  /** apply_gp_control, with its append loop. */
  method ApplyGpControl(weights: seq<real>, gpValues: seq<real>) returns (controlled: seq<real>)
    ensures |controlled| == if |weights| <= |gpValues| then |weights| else |gpValues|
    ensures forall i :: 0 <= i < |controlled| ==>
      controlled[i] == weights[i] * (if gpValues[i] < 0.30 then 0.4 else if gpValues[i] < 0.75 then 1.0 else 0.7)
    ensures controlled == GpControlled(weights, gpValues)
  {
    controlled := [];
    var i := 0;
    while i < |weights| && i < |gpValues|
      invariant 0 <= i <= |weights| && i <= |gpValues|
      invariant |controlled| == i
      invariant forall j :: 0 <= j < i ==> controlled[j] == weights[j] * LimiterFactor(gpValues[j])
    {
      var zone := GpZone(gpValues[i]);
      var controlFactor := ControlFactor(zone);
      controlled := controlled + [weights[i] * controlFactor];
      i := i + 1;
    }
  }

  // ---------------------------------------------------------------------------
  // Management intensity

  /** MANAGEMENT_PEAK_MULTIPLIER.get(intensity, 0.85). */
  function PeakMultiplier(intensity: string): (k: real)
    ensures intensity == "低" ==> k == 0.6
    ensures intensity == "中" ==> k == 0.85
    ensures intensity == "高" ==> k == 1.1
    ensures intensity !in {"低", "中", "高"} ==> k == 0.85
  {
    if intensity in ManagementPeakMultiplier then ManagementPeakMultiplier[intensity] else 0.85
  }

  /** The spring months March..May, 0-indexed. */
  predicate IsSpringMonth(i: int)
  {
    2 <= i <= 4
  }

  /** What apply_management_intensity computes. */
  function ManagementAdjusted(factors: seq<real>, intensity: string): (r: seq<real>)
    ensures |r| == |factors|
    ensures forall i :: 0 <= i < |r| && IsSpringMonth(i) ==> r[i] == factors[i] * PeakMultiplier(intensity)
    ensures forall i :: 0 <= i < |r| && !IsSpringMonth(i) ==> r[i] == factors[i]
  {
    seq(|factors|, i requires 0 <= i < |factors| =>
      if IsSpringMonth(i) then factors[i] * PeakMultiplier(intensity) else factors[i])
  }

  /** apply_management_intensity: copy the list, then scale indices 2, 3 and 4 in place. */
  method ApplyManagementIntensity(factors: seq<real>, intensity: string) returns (adjusted: seq<real>)
    requires |factors| > 4
    ensures |adjusted| == |factors|
    ensures forall i :: 2 <= i <= 4 ==> adjusted[i] == factors[i] * PeakMultiplier(intensity)
    ensures forall i :: 0 <= i < |factors| && !(2 <= i <= 4) ==> adjusted[i] == factors[i]
    ensures adjusted == ManagementAdjusted(factors, intensity)
  {
    var multiplier := PeakMultiplier(intensity);
    adjusted := factors;
    for m := 2 to 5
      invariant |adjusted| == |factors|
      invariant forall i :: 0 <= i < |factors| ==> adjusted[i] == if 2 <= i < m then factors[i] * multiplier else factors[i]
    {
      adjusted := adjusted[m := adjusted[m] * multiplier];
    }
    assert forall i :: 0 <= i < |factors| ==> adjusted[i] == ManagementAdjusted(factors, intensity)[i];
  }

  // ---------------------------------------------------------------------------
  // Season factors

  /** Grass-key normalisation: the substring tests in their source order. */
  function NormaliseGrass(grassLabel: string): GrassKey
  {
    if Contains(grassLabel, "寒地型") then CoolKey
    else if Contains(grassLabel, "暖地型") then WarmKey
    else if Contains(grassLabel, "日本芝") then JapaneseKey
    else WosKey
  }

  /** Usage-key normalisation. */
  function NormaliseUsage(usageLabel: string): UsageKey
  {
    if Contains(usageLabel, "ゴルフ") then GolfKey else CompetitionKey
  }

  /** The table row the spring path starts from, before intensity is applied. */
  function SpringBaseRow(grassKey: GrassKey, usageKey: UsageKey, useHeavy: bool): (row: seq<real>)
    ensures WellFormedRow(row)
  {
    TablesWellFormed();
    if useHeavy && (grassKey, usageKey) in SeasonFactorSpringHeavy then
      SeasonFactorSpringHeavy[(grassKey, usageKey)]
    else if (grassKey, usageKey, SpringKey) in SeasonFactorTable then
      SeasonFactorTable[(grassKey, usageKey, SpringKey)]
    else
      // The default (寒地型, ゴルフ場, 春重点) row is always present, so the
      // `[1.0] * 12` default of this last lookup is never used.
      SeasonFactorTable[(CoolKey, GolfKey, SpringKey)]
  }

  /** get_season_factors */
  function GetSeasonFactors(grassLabel: string, usageLabel: string, stance: string,
                            useHeavy: bool := true, intensity: string := "中"): (r: seq<real>)
    ensures |r| == 12
    ensures forall i :: 0 <= i < 12 ==> 0.0 < r[i]
    ensures stance == GpBased ==> r == Constant(12, 1.0)
  {
    if stance == GpBased then
      Constant(12, 1.0)
    else
      var row := SpringBaseRow(NormaliseGrass(grassLabel), NormaliseUsage(usageLabel), useHeavy);
      ManagementAdjusted(row, intensity)
  }

  // ---------------------------------------------------------------------------
  // Spring strength and the distribution ratios

  /** _get_spring_scale */
  function SpringScale(stance: string): (k: real)
    ensures Contains(stance, "70") ==> k == 1.4
    ensures !Contains(stance, "70") && Contains(stance, "30") ==> k == 0.6
    ensures !Contains(stance, "70") && !Contains(stance, "30") ==> k == 1.0
  {
    if Contains(stance, "70") then 1.4
    else if Contains(stance, "30") then 0.6
    else 1.0
  }

  /** `[max(0, 1 + (sf - 1) * scale) for sf in factors]`: deviations from 1.0 scaled. */
  function ScaledSeason(factors: seq<real>, scale: real): (r: seq<real>)
    ensures |r| == |factors|
    ensures AllNonNegative(r)
  {
    seq(|factors|, i requires 0 <= i < |factors| => Max(0.0, 1.0 + (factors[i] - 1.0) * scale))
  }

  /** At the reference strength (scale 1.0) non-negative factors come back unchanged. */
  lemma ReferenceStrengthIsNeutral(factors: seq<real>)
    requires AllNonNegative(factors)
    ensures ScaledSeason(factors, 1.0) == factors
  {
  }

  /** The weights after the GP limiter, before clipping: `gp_controlled`. */
  function ControlledWeights(gpRatios: seq<real>, seasonFactors: seq<real>, stance: string,
                             gpValues: seq<real>): seq<real>
  {
    if stance == GpBased then
      GpControlled(gpRatios, gpValues)
    else
      GpControlled(ZipMultiply(gpRatios, ScaledSeason(seasonFactors, SpringScale(stance))), gpValues)
  }

  /** The clipped weights: `clamped`. */
  function ClampedWeights(gpRatios: seq<real>, seasonFactors: seq<real>, stance: string,
                          gpValues: seq<real>): (w: seq<real>)
    ensures AllNonNegative(w)
    ensures |gpRatios| == 12 && |gpValues| == 12 && (stance == GpBased || |seasonFactors| == 12) ==> |w| == 12
  {
    ClampNonNegative(ControlledWeights(gpRatios, seasonFactors, stance, gpValues))
  }

  /** calculate_monthly_distribution_ratios */
  function DistributionRatios(gpRatios: seq<real>, seasonFactors: seq<real>, stance: string,
                              gpValues: seq<real>): (r: seq<real>)
    ensures AllNonNegative(r)
    ensures Sum(r) == 1.0
    ensures NormalisationOf(r, ClampedWeights(gpRatios, seasonFactors, stance, gpValues))
    ensures |gpRatios| == 12 && |gpValues| == 12 && (stance == GpBased || |seasonFactors| == 12) ==> |r| == 12
  {
    var w := ClampedWeights(gpRatios, seasonFactors, stance, gpValues);
    Normalise(w)
  }

  /** The gp_values the engine estimates from the ratios when none are given. */
  function EstimatedGpValues(gpRatios: seq<real>): (gv: seq<real>)
    ensures |gpRatios| == 12 ==> |gv| == 12
  {
    var gpSum := Sum(gpRatios);
    if gpSum > 0.0 then seq(|gpRatios|, i requires 0 <= i < |gpRatios| => gpRatios[i] / gpSum * 12.0)
    else Constant(12, 0.5)
  }

  /** Stances starting with 春重点 are looked up as 春重点; others as themselves. */
  function BaseStance(stance: string): string
  {
    if StartsWith(stance, SpringKey) then SpringKey else stance
  }

  /** The season factors calculate_monthly_fertilizer_distribution asks for. */
  function SeasonFactorsFor(grassLabel: string, usageLabel: string, stance: string, intensity: string): seq<real>
  {
    GetSeasonFactors(grassLabel, usageLabel, BaseStance(stance), true, intensity)
  }

  /** The ratios calculate_monthly_fertilizer_distribution multiplies by the annual amount. */
  function FertilizerRatios(gpRatios: seq<real>, grassLabel: string, usageLabel: string, stance: string,
                            intensity: string, gpValues: Option<seq<real>>): (r: seq<real>)
    ensures AllNonNegative(r) && Sum(r) == 1.0
    ensures |gpRatios| == 12 && (gpValues.None? || |gpValues.value| == 12) ==> |r| == 12
  {
    var gv := match gpValues
      case Some(v) => v
      case None => EstimatedGpValues(gpRatios);
    DistributionRatios(gpRatios, SeasonFactorsFor(grassLabel, usageLabel, stance, intensity), stance, gv)
  }

  /** calculate_monthly_fertilizer_distribution */
  function MonthlyFertilizerDistribution(annualAmount: real, gpRatios: seq<real>, grassLabel: string,
                                         usageLabel: string, stance: string, intensity: string := "中",
                                         gpValues: Option<seq<real>> := None): (amounts: seq<real>)
    ensures Sum(amounts) == annualAmount
    ensures 0.0 <= annualAmount ==> AllNonNegative(amounts)
    ensures |gpRatios| == 12 && (gpValues.None? || |gpValues.value| == 12) ==> |amounts| == 12
  {
    var ratios := FertilizerRatios(gpRatios, grassLabel, usageLabel, stance, intensity, gpValues);
    SumScale(ratios, annualAmount);
    ScaleNonNegative(ratios, annualAmount);
    Scale(ratios, annualAmount)
  }

  // ---------------------------------------------------------------------------
  // Properties

  /** Grass normalisation maps each label by its family; the WOS label contains
      寒地型 and so takes the cool-season key. */
  lemma {:induction false} GrassNormalisation(g: Constants.GrassType)
    ensures NormaliseGrass(Constants.GrassLabel(g)) ==
      match g
      case CoolCompetition | CoolGreen | Wos => CoolKey
      case WarmCompetition | WarmGreen | WarmFairway => WarmKey
      case JapaneseFairway | JapaneseZoysia => JapaneseKey
  {
    var name := Constants.GrassLabel(g);
    match g
    case CoolCompetition => assert MatchesAt(name, "寒地型", 0);
    case CoolGreen => assert MatchesAt(name, "寒地型", 0);
    case Wos => assert MatchesAt(name, "寒地型", 7);
    case WarmCompetition =>
      FirstCharMissing(name, "寒地型");
      assert MatchesAt(name, "暖地型", 0);
    case WarmGreen =>
      FirstCharMissing(name, "寒地型");
      assert MatchesAt(name, "暖地型", 0);
    case WarmFairway =>
      FirstCharMissing(name, "寒地型");
      assert MatchesAt(name, "暖地型", 0);
    case JapaneseFairway =>
      FirstCharMissing(name, "寒地型");
      FirstCharMissing(name, "暖地型");
      assert MatchesAt(name, "日本芝", 0);
    case JapaneseZoysia =>
      FirstCharMissing(name, "寒地型");
      FirstCharMissing(name, "暖地型");
      assert MatchesAt(name, "日本芝", 0);
  }

  /** No grass label reaches the WOS rows of either table. */
  lemma WosRowsUnreachable(g: Constants.GrassType)
    ensures NormaliseGrass(Constants.GrassLabel(g)) != WosKey
    ensures NormaliseGrass(Constants.GrassLabel(Constants.Wos)) == CoolKey
  {
    GrassNormalisation(g);
    GrassNormalisation(Constants.Wos);
  }

  lemma {:induction false} UsageNormalisation(u: Constants.UsageType)
    ensures NormaliseUsage(Constants.UsageLabel(u)) == if u == Constants.Golf then GolfKey else CompetitionKey
  {
    var name := Constants.UsageLabel(u);
    if u == Constants.Golf {
      assert MatchesAt(name, "ゴルフ", 0);
    } else {
      FirstCharMissing(name, "ゴルフ");
    }
  }

  /** The spring path uses the heavy row of the normalised keys when it exists. */
  lemma HeavyRowChosen(grassLabel: string, usageLabel: string, stance: string, intensity: string)
    requires stance != GpBased
    requires (NormaliseGrass(grassLabel), NormaliseUsage(usageLabel)) in SeasonFactorSpringHeavy
    ensures GetSeasonFactors(grassLabel, usageLabel, stance, true, intensity) ==
      ManagementAdjusted(SeasonFactorSpringHeavy[(NormaliseGrass(grassLabel), NormaliseUsage(usageLabel))], intensity)
  {
  }

  /** (日本芝, 競技場) is in neither table, so it falls back to the standard
      (寒地型, ゴルフ場) row, with or without the heavy table. */
  lemma JapaneseCompetitionFallback(g: Constants.GrassType, stance: string, useHeavy: bool, intensity: string)
    requires g == Constants.JapaneseFairway || g == Constants.JapaneseZoysia
    requires stance != GpBased
    ensures GetSeasonFactors(Constants.GrassLabel(g), Constants.UsageLabel(Constants.Competition), stance, useHeavy, intensity) ==
      ManagementAdjusted(SeasonFactorTable[(CoolKey, GolfKey, SpringKey)], intensity)
  {
    GrassNormalisation(g);
    UsageNormalisation(Constants.Competition);
    assert (JapaneseKey, CompetitionKey) !in SeasonFactorSpringHeavy;
    assert (JapaneseKey, CompetitionKey, SpringKey) !in SeasonFactorTable;
  }

  /** Every other (grass label, usage label) pair of the enumerations has a heavy row. */
  lemma HeavyRowCoverage(g: Constants.GrassType, u: Constants.UsageType)
    ensures (NormaliseGrass(Constants.GrassLabel(g)), NormaliseUsage(Constants.UsageLabel(u))) in SeasonFactorSpringHeavy
      <==> !((g == Constants.JapaneseFairway || g == Constants.JapaneseZoysia) && u == Constants.Competition)
  {
    GrassNormalisation(g);
    UsageNormalisation(u);
  }

  /** Management intensity changes nothing outside March..May. */
  lemma IntensityOnlyTouchesSpring(grassLabel: string, usageLabel: string, stance: string, useHeavy: bool,
                                   intensity1: string, intensity2: string, m: int)
    requires 0 <= m < 12 && !IsSpringMonth(m)
    ensures GetSeasonFactors(grassLabel, usageLabel, stance, useHeavy, intensity1)[m] ==
            GetSeasonFactors(grassLabel, usageLabel, stance, useHeavy, intensity2)[m]
  {
  }

  /** Every stance other than GP準拠 (for instance 平準) is served the same
      spring-path season factors as 春重点. */
  lemma {:induction false} SpringPathForOtherStances(grassLabel: string, usageLabel: string, stance: string, intensity: string)
    requires stance != GpBased
    ensures SeasonFactorsFor(grassLabel, usageLabel, stance, intensity) ==
            GetSeasonFactors(grassLabel, usageLabel, SpringKey, true, intensity)
    ensures SeasonFactorsFor(grassLabel, usageLabel, stance, intensity) ==
            ManagementAdjusted(SpringBaseRow(NormaliseGrass(grassLabel), NormaliseUsage(usageLabel), true), intensity)
  {
    assert SpringKey != GpBased;
    assert BaseStance(stance) != GpBased;
  }

  /** The spring strength of each stance label the program offers. */
  lemma {:induction false} SpringScaleOfStanceLabels()
    ensures SpringScale("春重点70") == 1.4
    ensures SpringScale("春重点50") == 1.0
    ensures SpringScale("春重点30") == 0.6
    ensures SpringScale("春重点") == 1.0
    ensures SpringScale("平準") == 1.0
    ensures SpringScale(GpBased) == 1.0
  {
    assert MatchesAt("春重点70", "70", 3);
    FirstCharMissing("春重点50", "70");
    FirstCharMissing("春重点50", "30");
    FirstCharMissing("春重点30", "70");
    assert MatchesAt("春重点30", "30", 3);
    FirstCharMissing("春重点", "70");
    FirstCharMissing("春重点", "30");
    FirstCharMissing("平準", "70");
    FirstCharMissing("平準", "30");
    FirstCharMissing(GpBased, "70");
    FirstCharMissing(GpBased, "30");
  }

  lemma {:induction false} SumOfZeros(s: seq<real>)
    requires forall i :: 0 <= i < |s| ==> s[i] == 0.0
    ensures Sum(s) == 0.0
  {
    if s != [] {
      SumOfZeros(s[1..]);
    }
  }

  /** When every GP ratio is zero, the weights are all zero and the ratios
      fall back to the uniform split. */
  lemma ZeroGpRatiosGiveUniform(gpRatios: seq<real>, seasonFactors: seq<real>, stance: string, gpValues: seq<real>)
    requires forall i :: 0 <= i < |gpRatios| ==> gpRatios[i] == 0.0
    ensures DistributionRatios(gpRatios, seasonFactors, stance, gpValues) == Uniform()
  {
    var base := if stance == GpBased then gpRatios
                else ZipMultiply(gpRatios, ScaledSeason(seasonFactors, SpringScale(stance)));
    assert forall i :: 0 <= i < |base| ==> base[i] == 0.0;
    var c := ControlledWeights(gpRatios, seasonFactors, stance, gpValues);
    assert c == GpControlled(base, gpValues);
    assert forall i :: 0 <= i < |c| ==> c[i] == 0.0;
    var w := ClampedWeights(gpRatios, seasonFactors, stance, gpValues);
    assert forall i :: 0 <= i < |w| ==> w[i] == 0.0;
    SumOfZeros(w);
  }

  /** Zero GP ratios make the fertilizer ratios uniform, whichever gp_values are used. */
  lemma ZeroGpRatiosGiveUniformFertilizerRatios(gpRatios: seq<real>, grassLabel: string, usageLabel: string,
                                                stance: string, intensity: string, gpValues: Option<seq<real>>)
    requires forall i :: 0 <= i < |gpRatios| ==> gpRatios[i] == 0.0
    ensures FertilizerRatios(gpRatios, grassLabel, usageLabel, stance, intensity, gpValues) == Uniform()
  {
    var sf := SeasonFactorsFor(grassLabel, usageLabel, stance, intensity);
    if gpValues.Some? {
      ZeroGpRatiosGiveUniform(gpRatios, sf, stance, gpValues.value);
    } else {
      ZeroGpRatiosGiveUniform(gpRatios, sf, stance, EstimatedGpValues(gpRatios));
    }
  }

  lemma ScaleUniform(annualAmount: real)
    ensures Scale(Uniform(), annualAmount) == Constant(12, annualAmount / 12.0)
  {
    assert forall i :: 0 <= i < 12 ==> Scale(Uniform(), annualAmount)[i] == annualAmount / 12.0;
  }

  /** Degenerate fallback: when every GP ratio is zero, each month receives
      exactly a twelfth of the annual amount. */
  lemma ZeroGpRatiosGiveTwelfths(annualAmount: real, gpRatios: seq<real>, grassLabel: string, usageLabel: string,
                                 stance: string, intensity: string, gpValues: Option<seq<real>>)
    requires forall i :: 0 <= i < |gpRatios| ==> gpRatios[i] == 0.0
    ensures MonthlyFertilizerDistribution(annualAmount, gpRatios, grassLabel, usageLabel, stance, intensity, gpValues)
      == Constant(12, annualAmount / 12.0)
  {
    ZeroGpRatiosGiveUniformFertilizerRatios(gpRatios, grassLabel, usageLabel, stance, intensity, gpValues);
    ScaleUniform(annualAmount);
  }

  /** GP準拠 with a uniform GP of 0.5 (every month optimal) returns the uniform split. */
  lemma GpOnlyUniformGp(seasonFactors: seq<real>)
    ensures DistributionRatios(Uniform(), seasonFactors, GpBased, Constant(12, 0.5)) == Uniform()
  {
    var w := ClampedWeights(Uniform(), seasonFactors, GpBased, Constant(12, 0.5));
    assert w == Uniform();
    UniformSumsToOne();
    var r := DistributionRatios(Uniform(), seasonFactors, GpBased, Constant(12, 0.5));
    assert forall i :: 0 <= i < 12 ==> r[i] * 1.0 == w[i];
  }
}
