/** 施肥量計算: the planner's entry point. It takes the annual amounts from
    the MSLN/SLAN model, computes the temperature-based GP curve once, and
    for each nutrient in turn runs the monthly distribution engine on that
    nutrient's annual amount and rounds the months to one decimal. */
module Fertilizer {
  import opened RealSeqs
  import opened Rounding
  import opened Wrappers
  import opened Constants
  import GpModel
  import MonthlyDistribution
  import AnnualNutrientModel

  /** One nutrient's entry of the result. */
  datatype NutrientPlan = NutrientPlan(
    annual: real,                           // kept for older readers of the result
    annualValue: real,
    msln: real,
    slan: real,
    position: string,
    monthly: seq<real>,
    gpValues: seq<real>,
    correction: string,
    explanation: AnnualNutrientModel.Reason)

  /** The nutrients, in the order the result is built. */
  const Nutrients: seq<string> := ["N", "P", "K", "Ca", "Mg"]

  /** The entry built for one nutrient from its annual result and the GP
      curve: the annual fields are copied, the engine runs on the normalised
      GP ratios with the GP curve for its limiter, and each month is rounded
      to one decimal. Before rounding the months sum to the annual value, so
      after rounding they are off by at most 0.05 per month. */
  function Plan(a: AnnualNutrientModel.AnnualResult, monthlyGp: seq<real>, grassLabel: string,
                usageLabel: string, distributionStance: string, intensityLabel: string): (p: NutrientPlan)
    ensures p.annual == p.annualValue == a.annualValue
    ensures p.msln == a.msln && p.slan == a.slan && p.position == a.position && p.explanation == a.reason
    ensures p.gpValues == monthlyGp && p.correction == ""
    ensures |monthlyGp| == 12 ==> |p.monthly| == 12 && -0.6 <= Sum(p.monthly) - a.annualValue <= 0.6
    ensures 0.0 <= a.annualValue ==> AllNonNegative(p.monthly)
  {
    var gpRatios := GpModel.NormalizeGpRatios(monthlyGp);
    var unrounded := MonthlyDistribution.MonthlyFertilizerDistribution(
      a.annualValue, gpRatios, grassLabel, usageLabel, distributionStance, intensityLabel, Some(monthlyGp));
    var monthly := Round1All(unrounded);
    RoundingKeepsSum(unrounded, monthly);
    RoundingKeepsNonNegative(unrounded, monthly);
    NutrientPlan(a.annualValue, a.annualValue, a.msln, a.slan, a.position, monthly, monthlyGp, "", a.reason)
  }

  /** The keys of the first `i` nutrients. */
  function KeysUpTo(i: nat): set<string>
    requires i <= |Nutrients|
  {
    if i == 0 then {} else KeysUpTo(i - 1) + {Nutrients[i - 1]}
  }

  lemma AllKeys()
    ensures KeysUpTo(|Nutrients|) == {"N", "P", "K", "Ca", "Mg"}
  {
    assert KeysUpTo(1) == {"N"};
    assert KeysUpTo(2) == {"N", "P"};
    assert KeysUpTo(3) == {"N", "P", "K"};
    assert KeysUpTo(4) == {"N", "P", "K", "Ca"};
  }

  lemma {:induction false} KeysWithin(i: nat)
    requires i <= |Nutrients|
    ensures KeysUpTo(i) <= {"N", "P", "K", "Ca", "Mg"}
  {
    if i > 0 {
      KeysWithin(i - 1);
    }
  }

  /** The entry the loop builds is the one Plan describes. */
  lemma PlanUnfolds(a: AnnualNutrientModel.AnnualResult, monthlyGp: seq<real>, gpRatios: seq<real>,
                    grassLabel: string, usageLabel: string, distributionStance: string, intensityLabel: string)
    requires gpRatios == GpModel.NormalizeGpRatios(monthlyGp)
    ensures Plan(a, monthlyGp, grassLabel, usageLabel, distributionStance, intensityLabel) ==
      NutrientPlan(a.annualValue, a.annualValue, a.msln, a.slan, a.position,
                   Round1All(MonthlyDistribution.MonthlyFertilizerDistribution(
                     a.annualValue, gpRatios, grassLabel, usageLabel, distributionStance, intensityLabel, Some(monthlyGp))),
                   monthlyGp, "", a.reason)
  {
  }

  /** Rounding twelve months to one decimal moves their sum by at most 0.6. */
  lemma RoundingKeepsSum(unrounded: seq<real>, rounded: seq<real>)
    requires rounded == Round1All(unrounded)
    ensures |unrounded| == 12 ==> -0.6 <= Sum(rounded) - Sum(unrounded) <= 0.6
  {
    if |unrounded| == 12 {
      SumCloseness(rounded, unrounded, 0.05);
    }
  }

  lemma RoundingKeepsNonNegative(unrounded: seq<real>, rounded: seq<real>)
    requires rounded == Round1All(unrounded)
    ensures AllNonNegative(unrounded) ==> AllNonNegative(rounded)
  {
    if AllNonNegative(unrounded) {
      forall i | 0 <= i < |rounded| ensures 0.0 <= rounded[i] {
        Round1NonNegative(unrounded[i]);
      }
    }
  }

  /** calculate_fertilizer_requirements: the annual amounts and the GP curve
      (`math.exp` is the parameter `exp`) are computed once, then one entry
      per nutrient is filled in. */
  method CalculateFertilizerRequirements(exp: real -> real, g: GrassType, u: UsageType, m: ManagementIntensity,
                                         soilValues: map<string, real>, s: FertilizerStance,
                                         latitude: real := 35.7, longitude: real := 139.8,
                                         distributionStance: string := "春重点50")
    returns (results: map<string, NutrientPlan>)
    ensures results.Keys == {"N", "P", "K", "Ca", "Mg"}
    ensures forall n <- results.Keys ::
      results[n] == Plan(AnnualNutrientModel.CalculateAnnualNutrientRequirements(g, u, m, soilValues, s)[n],
                         GpModel.MonthlyGp(exp, latitude, longitude, GrassLabel(g)),
                         GrassLabel(g), UsageLabel(u), distributionStance, IntensityLabel(m))
  {
    var annualRequirements := AnnualNutrientModel.CalculateAnnualNutrientRequirements(g, u, m, soilValues, s);
    var monthlyGp := GpModel.MonthlyGp(exp, latitude, longitude, GrassLabel(g));
    var gpRatios := GpModel.NormalizeGpRatios(monthlyGp);
    results := FillPlans(annualRequirements, monthlyGp, gpRatios, GrassLabel(g), UsageLabel(u),
                         distributionStance, IntensityLabel(m));
  }

  /** The loop of calculate_fertilizer_requirements over N, P, K, Ca and Mg. */
  method FillPlans(annualRequirements: map<string, AnnualNutrientModel.AnnualResult>, monthlyGp: seq<real>,
                   gpRatios: seq<real>, grassLabel: string, usageLabel: string, distributionStance: string,
                   intensityLabel: string)
    returns (results: map<string, NutrientPlan>)
    requires annualRequirements.Keys == {"N", "P", "K", "Ca", "Mg"}
    requires gpRatios == GpModel.NormalizeGpRatios(monthlyGp)
    ensures results.Keys == {"N", "P", "K", "Ca", "Mg"}
    ensures forall n <- results.Keys ::
      results[n] == Plan(annualRequirements[n], monthlyGp, grassLabel, usageLabel, distributionStance, intensityLabel)
  {
    results := map[];
    var i := 0;
    while i < |Nutrients|
      invariant 0 <= i <= |Nutrients|
      invariant results.Keys == KeysUpTo(i) <= annualRequirements.Keys
      invariant forall n <- results.Keys ::
        results[n] == Plan(annualRequirements[n], monthlyGp, grassLabel, usageLabel, distributionStance, intensityLabel)
    {
      var nutrient := Nutrients[i];
      var a := annualRequirements[nutrient];
      var monthly := MonthlyDistribution.MonthlyFertilizerDistribution(
        a.annualValue, gpRatios, grassLabel, usageLabel, distributionStance, intensityLabel, Some(monthlyGp));
      monthly := Round1All(monthly);
      PlanUnfolds(a, monthlyGp, gpRatios, grassLabel, usageLabel, distributionStance, intensityLabel);
      results := results[nutrient := NutrientPlan(a.annualValue, a.annualValue, a.msln, a.slan, a.position,
                                                  monthly, monthlyGp, "", a.reason)];
      i := i + 1;
      KeysWithin(i);
    }
    AllKeys();
  }
}
