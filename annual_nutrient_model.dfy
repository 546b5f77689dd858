/** The annual resolver of the MSLN/SLAN design: a (MSLN, SLAN) band for
    nitrogen per grass type, usage and management intensity, a point in the
    band chosen by the fertilizer stance, and P, K, Ca and Mg derived from
    the chosen nitrogen and corrected against soil-test values. Amounts are
    kg/ha per year; soil values are mg/100g. Growth potential plays no part. */
module AnnualNutrientModel {
  import opened RealSeqs
  import opened Rounding
  import opened Constants
  import opened Wrappers

  /** A (MSLN, SLAN) pair: the minimum sustainable level of a nutrient and
      the sufficiency level of available nutrient. */
  datatype Band = Band(msln: real, slan: real)

  ghost predicate InBand(b: Band, x: real)
  {
    b.msln <= x <= b.slan
  }

  /** Which soil-test case decided a P, K, Ca or Mg amount. */
  datatype SoilFinding =
    | BelowMinimum      // soil value under the reference minimum
    | AboveMaximum      // soil value over the reference maximum
    | WithinRange       // soil value inside the reference range, ends included
    | NotBelowMinimum   // Ca and Mg: soil value at or above the reference minimum

  /** The facts that the explanation text of a result is written from. */
  datatype Reason =
    | NitrogenChoice(grass: GrassType, usage: UsageType, intensity: ManagementIntensity,
                     stance: FertilizerStance, band: Band, position: real)
    | SoilCorrection(nutrient: string, nAnnual: real, band: Band, soil: real,
                     reference: (real, real), finding: SoilFinding)

  /** One nutrient's annual design: the rounded amount, the rounded band, a
      position text and the reason. */
  datatype AnnualResult = AnnualResult(annualValue: real, msln: real, slan: real, position: string, reason: Reason)

  /** One band per management intensity. */
  function ByIntensity(m: ManagementIntensity, low: Band, medium: Band, high: Band): Band
  {
    match m
    case Low => low
    case Medium => medium
    case High => high
  }

  /** ANNUAL_N_RANGE: the nitrogen band of each tabled (grass, usage,
      intensity), and None for a key the table does not have. */
  function AnnualNRange(g: GrassType, u: UsageType, m: ManagementIntensity): Option<Band>
  {
    match (g, u)
    case (CoolCompetition, Competition) => Some(ByIntensity(m, Band(15.0, 25.0), Band(18.0, 30.0), Band(22.0, 35.0)))
    case (CoolGreen, Golf) => Some(ByIntensity(m, Band(18.0, 28.0), Band(20.0, 32.0), Band(24.0, 38.0)))
    case (WarmCompetition, Competition) => Some(ByIntensity(m, Band(12.0, 22.0), Band(16.0, 28.0), Band(20.0, 32.0)))
    case (WarmGreen, Golf) => Some(ByIntensity(m, Band(14.0, 24.0), Band(18.0, 30.0), Band(22.0, 34.0)))
    case (WarmFairway, Golf) => Some(ByIntensity(m, Band(10.0, 18.0), Band(13.0, 22.0), Band(16.0, 26.0)))
    case (JapaneseFairway, Golf) => Some(ByIntensity(m, Band(8.0, 15.0), Band(11.0, 18.0), Band(14.0, 22.0)))
    case (JapaneseZoysia, Golf) => Some(ByIntensity(m, Band(10.0, 18.0), Band(13.0, 21.0), Band(16.0, 24.0)))
    case (Wos, Competition) => Some(ByIntensity(m, Band(13.5, 23.0), Band(18.0, 30.0), Band(22.5, 36.0)))
    case (Wos, Golf) => Some(ByIntensity(m, Band(16.0, 26.0), Band(20.0, 32.0), Band(25.0, 40.0)))
    case _ => None
  }

  /** The band used for a key the table does not have. */
  const DefaultNBand: Band := Band(15.0, 25.0)

  function NitrogenBand(g: GrassType, u: UsageType, m: ManagementIntensity): Band
  {
    match AnnualNRange(g, u, m)
    case Some(b) => b
    case None => DefaultNBand
  }

  /** The usage each grass type is tabled for; WOS is tabled for both. */
  predicate Tabled(g: GrassType, u: UsageType)
  {
    match g
    case CoolCompetition | WarmCompetition => u == Competition
    case Wos => true
    case _ => u == Golf
  }

  /** The table has exactly the tabled (grass, usage) pairs, at every intensity. */
  lemma NitrogenTableKeys(g: GrassType, u: UsageType, m: ManagementIntensity)
    ensures AnnualNRange(g, u, m).Some? <==> Tabled(g, u)
  {
  }

  /** Every band, the default included, has 0 < MSLN < SLAN and ends with at
      most one decimal place. */
  lemma NitrogenBandWellFormed(g: GrassType, u: UsageType, m: ManagementIntensity)
    ensures 0.0 < NitrogenBand(g, u, m).msln < NitrogenBand(g, u, m).slan
    ensures OneDecimal(NitrogenBand(g, u, m).msln) && OneDecimal(NitrogenBand(g, u, m).slan)
  {
  }

  /** For each tabled (grass, usage) pair both ends rise LOW → MEDIUM → HIGH. */
  lemma NitrogenBandsRise(g: GrassType, u: UsageType)
    requires Tabled(g, u)
    ensures NitrogenBand(g, u, Low).msln < NitrogenBand(g, u, Medium).msln < NitrogenBand(g, u, High).msln
    ensures NitrogenBand(g, u, Low).slan < NitrogenBand(g, u, Medium).slan < NitrogenBand(g, u, High).slan
  {
  }

  /** STANCE_POSITION: where in the band each stance lies. */
  function StancePosition(s: FertilizerStance): (p: real)
    ensures 0.0 < p < 1.0
  {
    match s
    case Lower => 0.25
    case Center => 0.5
    case Upper => 0.75
  }

  lemma StancePositionOrdered()
    ensures StancePosition(Lower) < StancePosition(Center) < StancePosition(Upper)
    ensures StancePosition(Center) == 0.5
  {
  }

  /** NUTRIENT_RATIO_TO_N */
  const NutrientRatioToN: map<string, real> :=
    map["P" := 0.3, "K" := 0.5, "Ca" := 0.4, "Mg" := 0.15]

  /** `NUTRIENT_RATIO_TO_N.get(nutrient, 0.3)` */
  function RatioToN(nutrient: string): (ratio: real)
    ensures 0.0 < ratio <= 0.5
  {
    if nutrient in NutrientRatioToN then NutrientRatioToN[nutrient] else 0.3
  }

  lemma RatioToNValues(nutrient: string)
    ensures RatioToN("P") == 0.3 && RatioToN("K") == 0.5 && RatioToN("Ca") == 0.4 && RatioToN("Mg") == 0.15
    ensures nutrient !in {"P", "K", "Ca", "Mg"} ==> RatioToN(nutrient) == 0.3
  {
  }

  /** The ratios that derive the P, K, Ca and Mg bands from N are the
      IDEAL_RATIO of each nutrient to N, which is 1. */
  lemma IdealRatioMatchesRatioToN(nutrient: string)
    requires nutrient in NutrientRatioToN
    ensures IdealRatio.Keys == NutrientRatioToN.Keys + {"N"} && IdealRatio["N"] == 1.0
    ensures RatioToN(nutrient) == IdealRatio[nutrient] / IdealRatio["N"]
  {
  }

  /** get_nutrient_range: a band of ±20 % around N times the nutrient's ratio. */
  function GetNutrientRange(nAnnual: real, nutrient: string): (b: Band)
    ensures b.msln + b.slan == 2.0 * Mul(nAnnual, RatioToN(nutrient))
    ensures b.slan - b.msln == 0.4 * Mul(nAnnual, RatioToN(nutrient))
    ensures 0.0 <= nAnnual ==> 0.0 <= b.msln <= b.slan
  {
    var base := Mul(nAnnual, RatioToN(nutrient));
    if 0.0 <= nAnnual then
      MulNonNegative(nAnnual, RatioToN(nutrient));
      Band(base * 0.8, base * 1.2)
    else
      Band(base * 0.8, base * 1.2)
  }

  /** `msln + (slan - msln) * p` */
  function Interpolate(b: Band, p: real): real
  {
    b.msln + Mul(b.slan - b.msln, p)
  }

  /** `max(msln, min(slan, x))` */
  function Clamp(b: Band, x: real): (r: real)
    ensures b.msln <= r
    ensures b.msln <= b.slan ==> InBand(b, r)
    ensures InBand(b, x) ==> r == x
  {
    Max(b.msln, Min(b.slan, x))
  }

  lemma MulFraction(w: real, p: real)
    requires 0.0 <= w && 0.0 <= p <= 1.0
    ensures 0.0 <= Mul(w, p) <= w
  {
    assert w * p <= w * 1.0;
  }

  /** A position in [0, 1] lands in the band; a lower position lands lower. */
  lemma InterpolateInBand(b: Band, p: real, q: real)
    requires b.msln <= b.slan
    requires 0.0 <= p <= q <= 1.0
    ensures InBand(b, Interpolate(b, p))
    ensures Interpolate(b, p) <= Interpolate(b, q)
  {
    MulFraction(b.slan - b.msln, p);
    MulFraction(b.slan - b.msln, q);
    assert Mul(b.slan - b.msln, p) <= Mul(b.slan - b.msln, q);
  }

  lemma InterpolateMidpoint(b: Band)
    ensures Interpolate(b, 0.5) == (b.msln + b.slan) / 2.0
  {
  }

  // ---------------------------------------------------------------- nitrogen

  /** The unrounded annual N: the stance's point in the band, which the
      clamp leaves alone. */
  function AnnualNitrogen(g: GrassType, u: UsageType, m: ManagementIntensity, s: FertilizerStance): (n: real)
    ensures InBand(NitrogenBand(g, u, m), n)
    ensures n == Interpolate(NitrogenBand(g, u, m), StancePosition(s))
  {
    var b := NitrogenBand(g, u, m);
    NitrogenBandWellFormed(g, u, m);
    InterpolateInBand(b, StancePosition(s), StancePosition(s));
    Clamp(b, Interpolate(b, StancePosition(s)))
  }

  /** A higher stance never gives less nitrogen. */
  lemma NitrogenFollowsStance(g: GrassType, u: UsageType, m: ManagementIntensity)
    ensures AnnualNitrogen(g, u, m, Lower) <= AnnualNitrogen(g, u, m, Center) <= AnnualNitrogen(g, u, m, Upper)
  {
    NitrogenBandWellFormed(g, u, m);
    InterpolateInBand(NitrogenBand(g, u, m), 0.25, 0.5);
    InterpolateInBand(NitrogenBand(g, u, m), 0.5, 0.75);
  }

  /** calculate_annual_nitrogen: the band is reported as tabled, the amount
      rounded to one decimal stays in it, and the position text is the
      stance's label. */
  function CalculateAnnualNitrogen(g: GrassType, u: UsageType, m: ManagementIntensity, s: FertilizerStance): (r: AnnualResult)
    ensures r.msln == NitrogenBand(g, u, m).msln && r.slan == NitrogenBand(g, u, m).slan
    ensures 0.0 < r.msln <= r.annualValue <= r.slan
    ensures -0.05 <= r.annualValue - AnnualNitrogen(g, u, m, s) <= 0.05
    ensures r.position == StanceLabel(s)
  {
    var b := NitrogenBand(g, u, m);
    var n := AnnualNitrogen(g, u, m, s);
    NitrogenBandWellFormed(g, u, m);
    Round1Exact(b.msln);
    Round1Exact(b.slan);
    Round1StaysInBand(b.msln, n, b.slan);
    Round1Error(n);
    AnnualResult(Round1(n), Round1(b.msln), Round1(b.slan), StanceLabel(s),
                 NitrogenChoice(g, u, m, s, b, StancePosition(s)))
  }

  /** The reported N amount has at most one decimal place. */
  lemma NitrogenValueOneDecimal(g: GrassType, u: UsageType, m: ManagementIntensity, s: FertilizerStance)
    ensures OneDecimal(CalculateAnnualNitrogen(g, u, m, s).annualValue)
  {
    Round1OneDecimal(AnnualNitrogen(g, u, m, s));
  }

  // ------------------------------------------------------ soil-corrected nutrients

  /** `(ref_min - soil) / ref_min` */
  function DeficiencyRatio(refMin: real, soil: real): (d: real)
    requires refMin != 0.0
    ensures 0.0 < refMin && 0.0 <= soil < refMin ==> 0.0 < d <= 1.0
    ensures 0.0 < refMin && soil < refMin ==> 0.0 < d
  {
    (refMin - soil) / refMin
  }

  /** The reported result of a soil-corrected nutrient: amount and band
      rounded to one decimal. */
  function SoilResult(nutrient: string, nAnnual: real, soil: real, amount: real,
                      position: string, finding: SoilFinding): (r: AnnualResult)
    requires nutrient in SoilReferenceRanges
    ensures r.reason.SoilCorrection? && r.reason.finding == finding && r.position == position
    ensures r.annualValue == Round1(amount)
    ensures r.msln == Round1(GetNutrientRange(nAnnual, nutrient).msln) && r.slan == Round1(GetNutrientRange(nAnnual, nutrient).slan)
  {
    var b := GetNutrientRange(nAnnual, nutrient);
    AnnualResult(Round1(amount), Round1(b.msln), Round1(b.slan), position,
                 SoilCorrection(nutrient, nAnnual, b, soil, SoilReferenceRanges[nutrient], finding))
  }

  /** Rounding an amount in the band keeps it between the rounded ends. */
  lemma RoundedInBand(b: Band, x: real)
    requires InBand(b, x)
    ensures Round1(b.msln) <= Round1(x) <= Round1(b.slan)
  {
    Round1Monotone(b.msln, x);
    Round1Monotone(x, b.slan);
  }

  lemma RoundedInBandWhenNonNegative(b: Band, x: real, nonNegative: bool)
    requires nonNegative ==> InBand(b, x)
    ensures nonNegative ==> Round1(b.msln) <= Round1(x) <= Round1(b.slan)
  {
    if nonNegative {
      RoundedInBand(b, x);
    }
  }

  lemma RoundedAtMost(x: real, y: real, holds: bool)
    requires holds ==> x <= y
    ensures holds ==> Round1(x) <= Round1(y)
  {
    if holds {
      Round1Monotone(x, y);
    }
  }

  // phosphorus

  /** Deficiency position for P: 0.2 at the reference minimum, 0.5 at zero. */
  function PhosphorusDeficiencyPosition(soil: real): (p: real)
    ensures 0.0 <= soil < 10.0 ==> 0.2 < p <= 0.5
    ensures soil < 10.0 ==> 0.2 < p
  {
    0.2 + DeficiencyRatio(10.0, soil) * 0.3
  }

  /** The unrounded annual P: it never falls under MSLN, and for N ≥ 0 lies
      in the P band. */
  function PhosphorusAmount(nAnnual: real, soil: real): (p: real)
    ensures GetNutrientRange(nAnnual, "P").msln <= p
    ensures 0.0 <= nAnnual ==> InBand(GetNutrientRange(nAnnual, "P"), p)
  {
    var b := GetNutrientRange(nAnnual, "P");
    var reference := SoilReferenceRanges["P"];
    var unclamped :=
      if soil < reference.0 then Interpolate(b, PhosphorusDeficiencyPosition(soil))
      else if soil > reference.1 then Min(b.msln * 1.1, b.slan)
      else Interpolate(b, 0.5);
    Clamp(b, unclamped)
  }

  /** The three soil cases of phosphorus, for N ≥ 0: a deficiency takes its
      position, a surplus takes 1.1·MSLN (which is under SLAN), and a soil
      value in range, ends included, takes the midpoint 0.3·N. */
  lemma {:induction false} PhosphorusCases(nAnnual: real, soil: real)
    requires 0.0 <= nAnnual
    ensures 0.0 <= soil < 10.0 ==>
      PhosphorusAmount(nAnnual, soil) == Interpolate(GetNutrientRange(nAnnual, "P"), PhosphorusDeficiencyPosition(soil))
    ensures soil > 30.0 ==>
      PhosphorusAmount(nAnnual, soil) == GetNutrientRange(nAnnual, "P").msln * 1.1 <= GetNutrientRange(nAnnual, "P").slan
    ensures 10.0 <= soil <= 30.0 ==> PhosphorusAmount(nAnnual, soil) == Mul(nAnnual, 0.3)
  {
    var b := GetNutrientRange(nAnnual, "P");
    if 0.0 <= soil < 10.0 {
      InterpolateInBand(b, PhosphorusDeficiencyPosition(soil), PhosphorusDeficiencyPosition(soil));
    }
  }

  /** Soil correction only ever leans P towards MSLN: no non-negative soil
      value gets more than the midpoint. */
  lemma {:induction false} PhosphorusAtMostMidpoint(nAnnual: real, soil: real)
    requires 0.0 <= nAnnual && 0.0 <= soil
    ensures PhosphorusAmount(nAnnual, soil) <= Mul(nAnnual, 0.3)
  {
    var b := GetNutrientRange(nAnnual, "P");
    PhosphorusCases(nAnnual, soil);
    if soil < 10.0 {
      InterpolateInBand(b, PhosphorusDeficiencyPosition(soil), 0.5);
    }
  }

  /** calculate_annual_phosphorus: N's own band does not enter the result. */
  function CalculateAnnualPhosphorus(nAnnual: real, nMsln: real, nSlan: real, soilP: real): (r: AnnualResult)
    ensures r.reason.SoilCorrection?
    ensures -0.05 <= r.annualValue - PhosphorusAmount(nAnnual, soilP) <= 0.05
    ensures r.msln == Round1(GetNutrientRange(nAnnual, "P").msln) && r.slan == Round1(GetNutrientRange(nAnnual, "P").slan)
    ensures 0.0 <= nAnnual ==> r.msln <= r.annualValue <= r.slan
    ensures soilP < 10.0 ==> r.position == "MSLN寄り（土壌不足補正）" && r.reason.finding == BelowMinimum
    ensures soilP > 30.0 ==> r.position == "MSLN寄り（土壌過剰抑制）" && r.reason.finding == AboveMaximum
    ensures 10.0 <= soilP <= 30.0 ==> r.position == "中央" && r.reason.finding == WithinRange
  {
    var p := PhosphorusAmount(nAnnual, soilP);
    Round1Error(p);
    RoundedInBandWhenNonNegative(GetNutrientRange(nAnnual, "P"), p, 0.0 <= nAnnual);
    if soilP < 10.0 then SoilResult("P", nAnnual, soilP, p, "MSLN寄り（土壌不足補正）", BelowMinimum)
    else if soilP > 30.0 then SoilResult("P", nAnnual, soilP, p, "MSLN寄り（土壌過剰抑制）", AboveMaximum)
    else SoilResult("P", nAnnual, soilP, p, "中央", WithinRange)
  }

  // potassium

  /** Deficiency position for K: 0.3 at the reference minimum, 0.5 at zero. */
  function PotassiumDeficiencyPosition(soil: real): (p: real)
    ensures 0.0 <= soil < 15.0 ==> 0.3 < p <= 0.5
    ensures soil < 15.0 ==> 0.3 < p
  {
    0.3 + DeficiencyRatio(15.0, soil) * 0.2
  }

  /** The unrounded annual K: it never falls under MSLN, and for N ≥ 0 lies
      in the K band. */
  function PotassiumAmount(nAnnual: real, soil: real): (k: real)
    ensures GetNutrientRange(nAnnual, "K").msln <= k
    ensures 0.0 <= nAnnual ==> InBand(GetNutrientRange(nAnnual, "K"), k)
  {
    var b := GetNutrientRange(nAnnual, "K");
    var reference := SoilReferenceRanges["K"];
    var unclamped :=
      if soil < reference.0 then Interpolate(b, PotassiumDeficiencyPosition(soil))
      else if soil > reference.1 then Min(Interpolate(b, 0.4), b.slan)
      else Interpolate(b, 0.5);
    Clamp(b, unclamped)
  }

  /** The three soil cases of potassium, for N ≥ 0: positions 0.3 + 0.2·d,
      0.4 and 0.5, the last being the midpoint 0.5·N. */
  lemma {:induction false} PotassiumCases(nAnnual: real, soil: real)
    requires 0.0 <= nAnnual
    ensures 0.0 <= soil < 15.0 ==>
      PotassiumAmount(nAnnual, soil) == Interpolate(GetNutrientRange(nAnnual, "K"), PotassiumDeficiencyPosition(soil))
    ensures soil > 25.0 ==> PotassiumAmount(nAnnual, soil) == Interpolate(GetNutrientRange(nAnnual, "K"), 0.4)
    ensures 15.0 <= soil <= 25.0 ==> PotassiumAmount(nAnnual, soil) == Mul(nAnnual, 0.5)
  {
    var b := GetNutrientRange(nAnnual, "K");
    if 0.0 <= soil < 15.0 {
      InterpolateInBand(b, PotassiumDeficiencyPosition(soil), PotassiumDeficiencyPosition(soil));
    } else if soil > 25.0 {
      InterpolateInBand(b, 0.4, 0.4);
    }
  }

  /** As for P, no non-negative soil value gets more K than the midpoint. */
  lemma {:induction false} PotassiumAtMostMidpoint(nAnnual: real, soil: real)
    requires 0.0 <= nAnnual && 0.0 <= soil
    ensures PotassiumAmount(nAnnual, soil) <= Mul(nAnnual, 0.5)
  {
    var b := GetNutrientRange(nAnnual, "K");
    PotassiumCases(nAnnual, soil);
    if soil < 15.0 {
      InterpolateInBand(b, PotassiumDeficiencyPosition(soil), 0.5);
    } else if soil > 25.0 {
      InterpolateInBand(b, 0.4, 0.5);
    }
  }

  /** calculate_annual_potassium */
  function CalculateAnnualPotassium(nAnnual: real, nMsln: real, nSlan: real, soilK: real): (r: AnnualResult)
    ensures r.reason.SoilCorrection?
    ensures -0.05 <= r.annualValue - PotassiumAmount(nAnnual, soilK) <= 0.05
    ensures r.msln == Round1(GetNutrientRange(nAnnual, "K").msln) && r.slan == Round1(GetNutrientRange(nAnnual, "K").slan)
    ensures 0.0 <= nAnnual ==> r.msln <= r.annualValue <= r.slan
    ensures soilK < 15.0 ==> r.position == "MSLN寄り（軽微補正）" && r.reason.finding == BelowMinimum
    ensures soilK > 25.0 ==> r.position == "中央寄り（過剰抑制）" && r.reason.finding == AboveMaximum
    ensures 15.0 <= soilK <= 25.0 ==> r.position == "中央" && r.reason.finding == WithinRange
  {
    var k := PotassiumAmount(nAnnual, soilK);
    Round1Error(k);
    RoundedInBandWhenNonNegative(GetNutrientRange(nAnnual, "K"), k, 0.0 <= nAnnual);
    if soilK < 15.0 then SoilResult("K", nAnnual, soilK, k, "MSLN寄り（軽微補正）", BelowMinimum)
    else if soilK > 25.0 then SoilResult("K", nAnnual, soilK, k, "中央寄り（過剰抑制）", AboveMaximum)
    else SoilResult("K", nAnnual, soilK, k, "中央", WithinRange)
  }

  // calcium and magnesium

  /** The nutrients corrected only when the soil is deficient. */
  predicate DeficiencyOnly(nutrient: string)
  {
    nutrient == "Ca" || nutrient == "Mg"
  }

  lemma MulAtLeast(a: real, f: real)
    requires 0.0 <= a && 1.0 <= f
    ensures a <= Mul(a, f)
  {
    assert a * 1.0 <= a * f;
  }

  /** The unrounded annual Ca or Mg: never under 0.8·MSLN; for N ≥ 0 never
      over SLAN, exactly 0.9·MSLN when the soil is not deficient, and
      min(MSLN·(1 + 0.3·d), SLAN), which is at least MSLN, when it is. */
  function DeficiencyOnlyAmount(nutrient: string, nAnnual: real, soil: real): (a: real)
    requires DeficiencyOnly(nutrient)
    ensures GetNutrientRange(nAnnual, nutrient).msln * 0.8 <= a
    ensures 0.0 <= nAnnual ==> a <= GetNutrientRange(nAnnual, nutrient).slan
    ensures 0.0 <= nAnnual && soil >= SoilReferenceRanges[nutrient].0 ==>
      a == GetNutrientRange(nAnnual, nutrient).msln * 0.9
    ensures 0.0 <= nAnnual && soil < SoilReferenceRanges[nutrient].0 ==>
      a == Min(Mul(GetNutrientRange(nAnnual, nutrient).msln, 1.0 + DeficiencyRatio(SoilReferenceRanges[nutrient].0, soil) * 0.3),
               GetNutrientRange(nAnnual, nutrient).slan)
      && InBand(GetNutrientRange(nAnnual, nutrient), a)
  {
    var b := GetNutrientRange(nAnnual, nutrient);
    var refMin := SoilReferenceRanges[nutrient].0;
    var corrected :=
      if soil < refMin then Min(Mul(b.msln, 1.0 + DeficiencyRatio(refMin, soil) * 0.3), b.slan)
      else b.msln * 0.9;
    if 0.0 <= nAnnual && soil < refMin then
      MulAtLeast(b.msln, 1.0 + DeficiencyRatio(refMin, soil) * 0.3);
      Max(b.msln * 0.8, corrected)
    else
      Max(b.msln * 0.8, corrected)
  }

  /** The Ca and Mg results share one shape; only the position texts and
      the finding differ by case. */
  function DeficiencyOnlyResult(nutrient: string, nAnnual: real, soil: real): (r: AnnualResult)
    requires DeficiencyOnly(nutrient)
    ensures r.reason.SoilCorrection?
    ensures -0.05 <= r.annualValue - DeficiencyOnlyAmount(nutrient, nAnnual, soil) <= 0.05
    ensures r.msln == Round1(GetNutrientRange(nAnnual, nutrient).msln) && r.slan == Round1(GetNutrientRange(nAnnual, nutrient).slan)
    ensures 0.0 <= nAnnual ==> r.annualValue <= r.slan
    ensures soil < SoilReferenceRanges[nutrient].0 ==> r.position == "MSLN超（不足補正）" && r.reason.finding == BelowMinimum
    ensures soil >= SoilReferenceRanges[nutrient].0 ==> r.position == "MSLN未満（控えめ設計）" && r.reason.finding == NotBelowMinimum
  {
    var a := DeficiencyOnlyAmount(nutrient, nAnnual, soil);
    Round1Error(a);
    RoundedAtMost(a, GetNutrientRange(nAnnual, nutrient).slan, 0.0 <= nAnnual);
    if soil < SoilReferenceRanges[nutrient].0 then
      SoilResult(nutrient, nAnnual, soil, a, "MSLN超（不足補正）", BelowMinimum)
    else
      SoilResult(nutrient, nAnnual, soil, a, "MSLN未満（控えめ設計）", NotBelowMinimum)
  }

  /** calculate_annual_calcium (reference minimum 200) */
  function CalculateAnnualCalcium(nAnnual: real, nMsln: real, nSlan: real, soilCa: real): (r: AnnualResult)
    ensures r.reason.SoilCorrection?
    ensures -0.05 <= r.annualValue - DeficiencyOnlyAmount("Ca", nAnnual, soilCa) <= 0.05
    ensures 0.0 <= nAnnual ==> r.annualValue <= r.slan
    ensures soilCa < 200.0 <==> r.reason.finding == BelowMinimum
  {
    DeficiencyOnlyResult("Ca", nAnnual, soilCa)
  }

  /** calculate_annual_magnesium (reference minimum 20) */
  function CalculateAnnualMagnesium(nAnnual: real, nMsln: real, nSlan: real, soilMg: real): (r: AnnualResult)
    ensures r.reason.SoilCorrection?
    ensures -0.05 <= r.annualValue - DeficiencyOnlyAmount("Mg", nAnnual, soilMg) <= 0.05
    ensures 0.0 <= nAnnual ==> r.annualValue <= r.slan
    ensures soilMg < 20.0 <==> r.reason.finding == BelowMinimum
  {
    DeficiencyOnlyResult("Mg", nAnnual, soilMg)
  }

  // ------------------------------------------------------------- all nutrients

  /** The soil value used when a nutrient has none. */
  const DefaultSoilValues: map<string, real> :=
    map["P" := 20.0, "K" := 20.0, "Ca" := 300.0, "Mg" := 30.0]

  /** `soil_values.get(nutrient, default)` */
  function SoilValue(soilValues: map<string, real>, nutrient: string): real
    requires nutrient in DefaultSoilValues
  {
    if nutrient in soilValues then soilValues[nutrient] else DefaultSoilValues[nutrient]
  }

  /** For a non-negative N every soil-corrected amount is non-negative. */
  lemma ResultsNonNegative(n: real, nMsln: real, nSlan: real, soilValues: map<string, real>)
    requires 0.0 <= n
    ensures 0.0 <= CalculateAnnualPhosphorus(n, nMsln, nSlan, SoilValue(soilValues, "P")).annualValue
    ensures 0.0 <= CalculateAnnualPotassium(n, nMsln, nSlan, SoilValue(soilValues, "K")).annualValue
    ensures 0.0 <= CalculateAnnualCalcium(n, nMsln, nSlan, SoilValue(soilValues, "Ca")).annualValue
    ensures 0.0 <= CalculateAnnualMagnesium(n, nMsln, nSlan, SoilValue(soilValues, "Mg")).annualValue
  {
    Round1NonNegative(PhosphorusAmount(n, SoilValue(soilValues, "P")));
    Round1NonNegative(PotassiumAmount(n, SoilValue(soilValues, "K")));
    Round1NonNegative(DeficiencyOnlyAmount("Ca", n, SoilValue(soilValues, "Ca")));
    Round1NonNegative(DeficiencyOnlyAmount("Mg", n, SoilValue(soilValues, "Mg")));
  }

  /** The P, K, Ca and Mg results for an N annual value and soil values. */
  function SoilCorrectedResults(n: real, nMsln: real, nSlan: real, soilValues: map<string, real>)
    : (r: map<string, AnnualResult>)
    ensures r.Keys == {"P", "K", "Ca", "Mg"}
    ensures 0.0 <= n ==> forall nutrient <- r.Keys :: 0.0 <= r[nutrient].annualValue
    ensures r["P"] == CalculateAnnualPhosphorus(n, nMsln, nSlan, SoilValue(soilValues, "P"))
    ensures r["K"] == CalculateAnnualPotassium(n, nMsln, nSlan, SoilValue(soilValues, "K"))
    ensures r["Ca"] == CalculateAnnualCalcium(n, nMsln, nSlan, SoilValue(soilValues, "Ca"))
    ensures r["Mg"] == CalculateAnnualMagnesium(n, nMsln, nSlan, SoilValue(soilValues, "Mg"))
  {
    if 0.0 <= n then ResultsNonNegative(n, nMsln, nSlan, soilValues); SoilCorrectedMap(n, nMsln, nSlan, soilValues)
    else SoilCorrectedMap(n, nMsln, nSlan, soilValues)
  }

  function SoilCorrectedMap(n: real, nMsln: real, nSlan: real, soilValues: map<string, real>): map<string, AnnualResult>
  {
    map["P" := CalculateAnnualPhosphorus(n, nMsln, nSlan, SoilValue(soilValues, "P")),
        "K" := CalculateAnnualPotassium(n, nMsln, nSlan, SoilValue(soilValues, "K")),
        "Ca" := CalculateAnnualCalcium(n, nMsln, nSlan, SoilValue(soilValues, "Ca")),
        "Mg" := CalculateAnnualMagnesium(n, nMsln, nSlan, SoilValue(soilValues, "Mg"))]
  }

  /** calculate_annual_nutrient_requirements: N from the band table, then P,
      K, Ca and Mg from N's rounded annual value and the soil values. */
  function CalculateAnnualNutrientRequirements(g: GrassType, u: UsageType, m: ManagementIntensity,
                                               soilValues: map<string, real>, s: FertilizerStance)
    : (r: map<string, AnnualResult>)
    ensures r.Keys == {"N", "P", "K", "Ca", "Mg"}
    ensures r["N"] == CalculateAnnualNitrogen(g, u, m, s)
    ensures forall nutrient <- r.Keys :: 0.0 <= r[nutrient].annualValue
  {
    var nResult := CalculateAnnualNitrogen(g, u, m, s);
    var soilCorrected := SoilCorrectedResults(nResult.annualValue, nResult.msln, nResult.slan, soilValues);
    assert forall nutrient <- soilCorrected.Keys :: 0.0 <= soilCorrected[nutrient].annualValue;
    soilCorrected["N" := nResult]
  }

  /** `r` holds P, K, Ca and Mg computed from its own N entry's reported
      (rounded) annual value, each with its soil value looked up under its
      own name or defaulted. */
  ghost predicate DerivedFromN(r: map<string, AnnualResult>, soilValues: map<string, real>)
  {
    && r.Keys == {"N", "P", "K", "Ca", "Mg"}
    && r["P"] == CalculateAnnualPhosphorus(r["N"].annualValue, r["N"].msln, r["N"].slan, SoilValue(soilValues, "P"))
    && r["K"] == CalculateAnnualPotassium(r["N"].annualValue, r["N"].msln, r["N"].slan, SoilValue(soilValues, "K"))
    && r["Ca"] == CalculateAnnualCalcium(r["N"].annualValue, r["N"].msln, r["N"].slan, SoilValue(soilValues, "Ca"))
    && r["Mg"] == CalculateAnnualMagnesium(r["N"].annualValue, r["N"].msln, r["N"].slan, SoilValue(soilValues, "Mg"))
  }

  lemma RequirementsUseRoundedN(g: GrassType, u: UsageType, m: ManagementIntensity,
                                soilValues: map<string, real>, s: FertilizerStance)
    ensures DerivedFromN(CalculateAnnualNutrientRequirements(g, u, m, soilValues, s), soilValues)
  {
  }

  /** N's band does not enter the soil-corrected results: only N's annual
      value does. */
  lemma SoilCorrectedIgnoresNBand(n: real, msln1: real, slan1: real, msln2: real, slan2: real, soil: real)
    ensures CalculateAnnualPhosphorus(n, msln1, slan1, soil) == CalculateAnnualPhosphorus(n, msln2, slan2, soil)
    ensures CalculateAnnualPotassium(n, msln1, slan1, soil) == CalculateAnnualPotassium(n, msln2, slan2, soil)
    ensures CalculateAnnualCalcium(n, msln1, slan1, soil) == CalculateAnnualCalcium(n, msln2, slan2, soil)
    ensures CalculateAnnualMagnesium(n, msln1, slan1, soil) == CalculateAnnualMagnesium(n, msln2, slan2, soil)
  {
  }

  /** Two soil maps that give every nutrient the same value give the same
      requirements; in particular a missing soil value behaves exactly as
      its default (P 20, K 20, Ca 300, Mg 30). */
  lemma SoilValuesAgree(g: GrassType, u: UsageType, m: ManagementIntensity, s: FertilizerStance,
                        soil1: map<string, real>, soil2: map<string, real>)
    requires forall k | k in DefaultSoilValues :: SoilValue(soil1, k) == SoilValue(soil2, k)
    ensures CalculateAnnualNutrientRequirements(g, u, m, soil1, s) == CalculateAnnualNutrientRequirements(g, u, m, soil2, s)
  {
    var r1 := CalculateAnnualNutrientRequirements(g, u, m, soil1, s);
    var r2 := CalculateAnnualNutrientRequirements(g, u, m, soil2, s);
    RequirementsUseRoundedN(g, u, m, soil1, s);
    RequirementsUseRoundedN(g, u, m, soil2, s);
    assert SoilValue(soil1, "P") == SoilValue(soil2, "P");
    assert SoilValue(soil1, "K") == SoilValue(soil2, "K");
    assert SoilValue(soil1, "Ca") == SoilValue(soil2, "Ca");
    assert SoilValue(soil1, "Mg") == SoilValue(soil2, "Mg");
    assert forall k | k in r1.Keys :: r1[k] == r2[k];
  }

  lemma MissingSoilValueDefaults(g: GrassType, u: UsageType, m: ManagementIntensity,
                                 soilValues: map<string, real>, s: FertilizerStance, nutrient: string)
    requires nutrient in DefaultSoilValues && nutrient !in soilValues
    ensures CalculateAnnualNutrientRequirements(g, u, m, soilValues, s) ==
      CalculateAnnualNutrientRequirements(g, u, m, soilValues[nutrient := DefaultSoilValues[nutrient]], s)
  {
    SoilValuesAgree(g, u, m, s, soilValues, soilValues[nutrient := DefaultSoilValues[nutrient]]);
  }

  /** Changing one nutrient's soil value leaves every other nutrient's result,
      N's included, as it was. */
  lemma {:induction false} SoilValueOnlyAffectsItsNutrient(g: GrassType, u: UsageType, m: ManagementIntensity,
                                        soilValues: map<string, real>, s: FertilizerStance,
                                        nutrient: string, value: real, other: string)
    requires other in {"N", "P", "K", "Ca", "Mg"} && other != nutrient
    ensures CalculateAnnualNutrientRequirements(g, u, m, soilValues[nutrient := value], s)[other] ==
      CalculateAnnualNutrientRequirements(g, u, m, soilValues, s)[other]
  {
    var changed := soilValues[nutrient := value];
    RequirementsUseRoundedN(g, u, m, soilValues, s);
    RequirementsUseRoundedN(g, u, m, changed, s);
    if other != "N" {
      assert SoilValue(changed, other) == SoilValue(soilValues, other);
    }
  }
}
