# Turf fertilisation planner — verified model of the nutrient-distribution core

The system designs an annual fertiliser programme for turf. It has three parts.

- **Annual amounts.** An annual nitrogen amount is chosen inside a band taken from a
  table per grass type, usage and management intensity. The band's lower end is
  MSLN (minimum sustainable level of nutrients) and its upper end is SLAN
  (sufficiency level of available nutrients). The fertiliser stance picks a
  position in the band. P, K, Ca and Mg get bands derived from the rounded N
  amount, and the soil test value for each nutrient moves its amount inside that band.
- **Growth potential (GP).** Monthly GP comes either from a Gaussian of monthly
  temperature around a grass-specific optimum, or from fixed seasonal patterns.
- **Monthly distribution.** GP ratios are multiplied by seasonal factors. The
  seasonal factors are scaled by a spring strength and by a spring-peak multiplier
  for the management intensity. GP then acts as a limiter, and the result is
  normalised to shares of the annual amount.
  `calculate_fertilizer_requirements` ties the three parts together for N, P, K,
  Ca and Mg.

The Dafny modules follow the source files:

| module | file | models |
|---|---|---|
| `Constants` | `constants.dfy` | `logic/constants.py`: enumerations, labels, reference tables |
| `AnnualNutrientModel` | `annual_nutrient_model.dfy` | `logic/annual_nutrient_model.py`: MSLN/SLAN amounts |
| `GpModel` | `gp_model.dfy` | `logic/gp_model.py`: temperature-based GP |
| `GrowthPotential` | `gp.dfy` | `logic/gp.py`: fixed GP patterns, GP-proportional N split |
| `MonthlyDistribution` | `monthly_distribution.dfy` | `logic/monthly_distribution.py`: the distribution engine |
| `Fertilizer` | `fertilizer.dfy` | `logic/fertilizer.py`: the whole plan |
| `RealSeqs`, `Rounding`, `Text`, `Wrappers` | helper files | sums and normalisation, `round(x, 1)`, substring tests, `Option` |

Almost all of the source is pure computation over values, so most of it is
modelled as functions.

The source has two loops that build their result step by step. They are
modelled as methods with loop invariants, each proved equal to a specification
function:
- the GP-control loop (`MonthlyDistribution.ApplyGpControl`);
- the spring-month loop (`MonthlyDistribution.ApplyManagementIntensity`).

The per-nutrient loop of `calculate_fertilizer_requirements` is also a method:
`Fertilizer.CalculateFertilizerRequirements` hands its loop to
`Fertilizer.FillPlans`.

Floats are modelled as exact reals. Python's `round(x, 1)` is modelled as
round-half-to-even at one decimal on the exact value (`Rounding.Round1`).
`math.exp` is a parameter of the GP functions. Where a property needs it, the
parameter is constrained by `GpModel.ExpLike`: exp(0) = 1 and the value lies in
(0, 1] for non-positive arguments. Some properties also use
`GpModel.ExpIncreasing`.

The source's default arguments are Dafny default parameter values:
- `Fertilizer.CalculateFertilizerRequirements`: latitude 35.7, longitude 139.8, distribution stance 春重点50;
- `MonthlyDistribution.MonthlyFertilizerDistribution`: intensity 中, no GP values;
- `MonthlyDistribution.GetSeasonFactors`: the spring-heavy table, intensity 中;
- `GpModel.GpFromTemperature`: optimum 20 ℃, σ 7;
- `GrowthPotential.CalculateGrowthPotential(s)`: no year.

## Model

| member | source | states |
|---|---|---|
| Constants.EnumerationsComplete | logic/constants.py:9-38 | The enumerations have 8 grass types, 2 usages, 3 intensities and 3 stances. Every value is listed, and the grass labels are pairwise distinct. |
| Constants.LabelsDistinct | logic/constants.py:9-38 | Each enumeration's label determines its value, so labels are injective. |
| Constants.AnnualNRequirementIncreasing | logic/constants.py:43-78 | For every grass/usage pair in ANNUAL_N_REQUIREMENT, the table has all three intensities, and the requirement strictly rises from low to medium to high. |
| Constants.StanceFactorOrdered | logic/constants.py:81-85 | The stance factor table covers the three stances, with lower < center < upper. |
| Constants.SoilReferenceRangesWellFormed | logic/constants.py:88-93 | The soil reference ranges cover P, K, Ca and Mg. Each range has 0 < min < max. |
| AnnualNutrientModel.NitrogenTableKeys | logic/annual_nutrient_model.py:19-54 | ANNUAL_N_RANGE has an entry exactly for the tabled grass/usage pairs, for every intensity. |
| AnnualNutrientModel.NitrogenBandWellFormed | logic/annual_nutrient_model.py:19-54 | Every N band, including the 15–25 fallback, has 0 < MSLN < SLAN, and both ends have one decimal. |
| AnnualNutrientModel.NitrogenBandsRise | logic/annual_nutrient_model.py:19-54 | For a tabled pair, both MSLN and SLAN strictly rise with the management intensity. |
| AnnualNutrientModel.StancePosition | logic/annual_nutrient_model.py:57-61 | The stance position lies strictly inside (0, 1). |
| AnnualNutrientModel.StancePositionOrdered | logic/annual_nutrient_model.py:57-61 | The positions are ordered lower < center < upper, and center is 0.5. |
| AnnualNutrientModel.RatioToN | logic/annual_nutrient_model.py:64-69 | The ratio to N is always in (0, 0.5]. |
| AnnualNutrientModel.RatioToNValues | logic/annual_nutrient_model.py:64-69 | The ratios are P 0.3, K 0.5, Ca 0.4 and Mg 0.15. Any other name gets the 0.3 default. |
| AnnualNutrientModel.IdealRatioMatchesRatioToN | logic/constants.py:96-102 | IDEAL_RATIO covers N and the four soil-corrected nutrients, with N at 1. Each ratio to N that derives a band equals that nutrient's ideal ratio over N's. |
| AnnualNutrientModel.GetNutrientRange | logic/annual_nutrient_model.py:83-88 | The band is centred on N·ratio and has width 0.4·N·ratio. For N ≥ 0, 0 ≤ MSLN ≤ SLAN. |
| AnnualNutrientModel.Clamp | logic/annual_nutrient_model.py:126 | The result is never below MSLN, lies in the band when the band is ordered, and leaves a value already in the band unchanged. |
| AnnualNutrientModel.InterpolateInBand | logic/annual_nutrient_model.py:123 | Interpolation at a position in [0, 1] stays in the band and is monotone in the position. |
| AnnualNutrientModel.InterpolateMidpoint | logic/annual_nutrient_model.py:200-201 | Interpolation at 0.5 is the midpoint of the band. |
| AnnualNutrientModel.AnnualNitrogen | logic/annual_nutrient_model.py:116-126 | The unrounded N amount is the band interpolated at the stance position, and it lies in the band. |
| AnnualNutrientModel.NitrogenFollowsStance | logic/annual_nutrient_model.py:122-123 | N for the lower stance ≤ N for center ≤ N for upper. |
| AnnualNutrientModel.CalculateAnnualNitrogen | logic/annual_nutrient_model.py:116-142 | MSLN and SLAN are the table band. The rounded N amount satisfies 0 < MSLN ≤ N ≤ SLAN and is within 0.05 of the unrounded amount. The position is the stance label. |
| AnnualNutrientModel.NitrogenValueOneDecimal | logic/annual_nutrient_model.py:137 | The N amount returned has one decimal. |
| AnnualNutrientModel.DeficiencyRatio | logic/annual_nutrient_model.py:179 | Below the reference minimum the deficiency ratio is positive. It is at most 1 for a non-negative soil value. |
| AnnualNutrientModel.PhosphorusDeficiencyPosition | logic/annual_nutrient_model.py:180 | For a deficient soil value the position lies in (0.2, 0.5]. |
| AnnualNutrientModel.PhosphorusAmount | logic/annual_nutrient_model.py:177-209 | The unrounded P amount is never below MSLN. For N ≥ 0 it lies in the band. |
| AnnualNutrientModel.PhosphorusCases | logic/annual_nutrient_model.py:177-209 | Three cases. Deficient soil interpolates at 0.2 + 0.3·deficiency. Surplus soil gives MSLN·1.1, which never reaches the SLAN cap. In-range soil gives the midpoint N·0.3. |
| AnnualNutrientModel.PhosphorusAtMostMidpoint | logic/annual_nutrient_model.py:177-209 | For N ≥ 0 and soil ≥ 0, P never exceeds the band midpoint, whatever the soil value. |
| AnnualNutrientModel.CalculateAnnualPhosphorus | logic/annual_nutrient_model.py:145-217 | The rounded P amount is within 0.05 of the unrounded one. MSLN and SLAN are the rounded band. For N ≥ 0 the amount lies between them. Position text and soil finding follow the three soil cases (below 10, above 30, otherwise). |
| AnnualNutrientModel.PotassiumDeficiencyPosition | logic/annual_nutrient_model.py:255 | For a deficient soil value the position lies in (0.3, 0.5]. |
| AnnualNutrientModel.PotassiumAmount | logic/annual_nutrient_model.py:252-285 | The unrounded K amount is never below MSLN. For N ≥ 0 it lies in the band. |
| AnnualNutrientModel.PotassiumCases | logic/annual_nutrient_model.py:252-285 | Three cases. Deficient soil interpolates at 0.3 + 0.2·deficiency. Surplus soil interpolates at 0.4. In-range soil gives the midpoint N·0.5. |
| AnnualNutrientModel.PotassiumAtMostMidpoint | logic/annual_nutrient_model.py:252-285 | For N ≥ 0 and soil ≥ 0, K never exceeds the band midpoint. |
| AnnualNutrientModel.CalculateAnnualPotassium | logic/annual_nutrient_model.py:220-293 | The rounded K amount is within 0.05 of the unrounded one. MSLN and SLAN are the rounded band. For N ≥ 0 the amount lies between them. Position text and finding follow the soil cases (below 15, above 25, otherwise). |
| AnnualNutrientModel.DeficiencyOnlyAmount | logic/annual_nutrient_model.py:328-351 | The Ca/Mg amount is at least 0.8·MSLN, and for N ≥ 0 at most SLAN. Soil that is not deficient gives 0.9·MSLN, below MSLN. Deficient soil gives min(MSLN·(1 + 0.3·deficiency), SLAN), which lies in the band. |
| AnnualNutrientModel.DeficiencyOnlyResult | logic/annual_nutrient_model.py:328-359 | The rounded amount is within 0.05 of DeficiencyOnlyAmount and, for N ≥ 0, at most the rounded SLAN. Position text and finding follow the two soil cases. |
| AnnualNutrientModel.CalculateAnnualCalcium | logic/annual_nutrient_model.py:296-359 | The Ca amount is within 0.05 of the deficiency-only amount, and for N ≥ 0 at most SLAN. It is flagged below-minimum exactly when soil Ca < 200. |
| AnnualNutrientModel.CalculateAnnualMagnesium | logic/annual_nutrient_model.py:362-425 | The Mg amount is within 0.05 of the deficiency-only amount, and for N ≥ 0 at most SLAN. It is flagged below-minimum exactly when soil Mg < 20. |
| AnnualNutrientModel.ResultsNonNegative | logic/annual_nutrient_model.py:460-489 | For N ≥ 0, each soil-corrected amount is non-negative whatever the soil value. |
| AnnualNutrientModel.SoilCorrectedResults | logic/annual_nutrient_model.py:460-489 | The keys are exactly P, K, Ca and Mg. Each entry is its nutrient's function applied to the soil value or its default. For N ≥ 0 all amounts are non-negative. |
| AnnualNutrientModel.CalculateAnnualNutrientRequirements | logic/annual_nutrient_model.py:428-497 | The keys are exactly N, P, K, Ca and Mg. The N entry is the nitrogen result. Every amount is non-negative. |
| AnnualNutrientModel.RequirementsUseRoundedN | logic/annual_nutrient_model.py:455-489 | Every soil-corrected entry is computed from the rounded N amount of the N entry. |
| AnnualNutrientModel.SoilCorrectedIgnoresNBand | logic/annual_nutrient_model.py:145-425 | The P/K/Ca/Mg results do not depend on the N MSLN/SLAN arguments. |
| AnnualNutrientModel.SoilValuesAgree | logic/annual_nutrient_model.py:460-489 | Two soil maps that agree on the four looked-up values (after defaults) give identical requirements. |
| AnnualNutrientModel.MissingSoilValueDefaults | logic/annual_nutrient_model.py:464-488 | A missing soil value behaves exactly like its default (P 20, K 20, Ca 300, Mg 30). |
| AnnualNutrientModel.SoilValueOnlyAffectsItsNutrient | logic/annual_nutrient_model.py:455-497 | Changing one soil value leaves every other nutrient's entry unchanged. |
| GpModel.Exponent | logic/gp_model.py:28 | The Gaussian exponent is ≤ 0, and it is 0 exactly at the optimum. |
| GpModel.GpFromTemperature | logic/gp_model.py:9-29 | GP is in [0, 1]. With σ = 0, GP is 1 at the optimum and 0 elsewhere. Otherwise GP is exp of the exponent (no clipping is needed). |
| GpModel.GpAtOptimum | logic/gp_model.py:28-29 | GP at the optimum temperature is 1. |
| GpModel.GpSymmetric | logic/gp_model.py:28-29 | GP is symmetric about the optimum. |
| GpModel.GpDecreasesAwayFromOptimum | logic/gp_model.py:28-29 | A temperature farther from the optimum never has a higher GP. |
| GpModel.OptimalTemperatureByGrass | logic/gp_model.py:42-49 | The optimum is 18 ℃ for cool-season grass and WOS (its label contains 寒地型), 25 ℃ for warm-season grass and 28 ℃ for Japanese grass. No grass type reaches the 22 ℃ branch. |
| GpModel.MonthlyTemperaturesAsWritten | logic/gp_model.py:74-95 | As written, every month is base + 0.6·(latitude − 35.7). |
| GpModel.AsWrittenNorthIsWarmer | logic/gp_model.py:90-95 | As written, January at 45.7° N is 11.2 ℃, warmer than Tokyo's 5.2 ℃. |
| GpModel.LatitudeShift | logic/gp_model.py:89-95 | Corrected: moving north by d degrees lowers every month by 0.6·d, so higher latitude is strictly colder. |
| GpModel.ReferenceLatitudeGivesBase | logic/gp_model.py:74-95 | At 35.7° both versions give the base (Tokyo) temperatures. |
| GpModel.SeasonalExtremes | logic/gp_model.py:74-95 | January is the coldest month and August the warmest at every latitude, in the table as written and in the corrected one. |
| GpModel.MonthlyGp | logic/gp_model.py:100-128 | Twelve monthly GP values, each in [0, 1]. They are computed, as the program does, from the temperature table as written, around the grass optimum, with the default σ = 7. |
| GpModel.MonthlyGpPeaksNearestOptimum | logic/gp_model.py:117-128 | In the as-written temperature table, the month whose temperature is nearest the optimum has the highest GP. |
| GpModel.NormalizeGpRatios | logic/gp_model.py:131-146 | The ratios sum to 1. They are the GP values divided by their sum, or 1/12 each when the sum is 0, and they are non-negative for non-negative GP. |
| GpModel.NormalizeGpRatiosScaleInvariant | logic/gp_model.py:141-146 | Scaling all GP values by a positive constant does not change the ratios. |
| GrowthPotential.PatternsWellFormed | logic/gp.py:9-96 | Every fixed pattern has twelve months with GP in [0, 1]. |
| GrowthPotential.WosMeanGp | logic/gp.py:87-91 | The WOS pattern is the monthly mean of the cool and warm patterns. |
| GrowthPotential.GrowthPotentialByGrass | logic/gp.py:65-94 | Each grass label gets its family's pattern, and WOS gets the cool pattern. |
| GrowthPotential.WosMeanNeverReturned | logic/gp.py:65-94 | No label, in any year, gets the WOS mean. The result is always one of the cool, warm, Japanese and default patterns. |
| GrowthPotential.MainAgreesWithGrowthPotential | logic/gp.py:119-145 | The "main" entry equals calculate_growth_potential for the same label. |
| GrowthPotential.GrowthPotentialsByGrass | logic/gp.py:119-145 | The exact keys and entries for each grass: WOS gets main, cool and warm; cool-season gets main and cool; warm-season gets main and warm; Japanese gets main only. |
| GrowthPotential.NDistributionIsScaledRatios | logic/gp.py:148-170 | The N split is the annual N times normalize_gp_ratios of the same GP values. |
| GrowthPotential.GetMonthlyNDistribution | logic/gp.py:163-170 | The monthly N sums to the annual N. It is N/12 per month when GP sums to 0, and non-negative for non-negative inputs. |
| MonthlyDistribution.TablesWellFormed | logic/monthly_distribution.py:24-278 | Every row of both season-factor tables has twelve factors in (0, 1.9]. |
| MonthlyDistribution.GpZone | logic/monthly_distribution.py:281-301 | The zone is low iff GP < 0.30, optimal iff 0.30 ≤ GP < 0.75, and excess iff GP ≥ 0.75. |
| MonthlyDistribution.LimiterFactor | logic/monthly_distribution.py:153-157 | The factors are 0.4, 1.0 and 0.7 per zone, always in (0, 1]. |
| MonthlyDistribution.GpControlled | logic/monthly_distribution.py:323-329 | The length is that of the shorter input (zip). Each weight is multiplied by its month's limiter. |
| MonthlyDistribution.GpControlDamps | logic/monthly_distribution.py:323-329 | GP control never increases a non-negative weight and keeps it non-negative. |
| MonthlyDistribution.ApplyGpControl | logic/monthly_distribution.py:304-329 | The loop yields the zip-length result with each weight times 0.4, 1.0 or 0.7 by zone, equal to GpControlled. |
| MonthlyDistribution.PeakMultiplier | logic/monthly_distribution.py:142-146 | The multiplier is 低 0.6, 中 0.85, 高 1.1, and 0.85 for any other label. |
| MonthlyDistribution.ManagementAdjusted | logic/monthly_distribution.py:350-358 | March–May are multiplied by the intensity's multiplier, and every other month is unchanged. |
| MonthlyDistribution.ApplyManagementIntensity | logic/monthly_distribution.py:332-358 | The loop over months 2, 3 and 4 multiplies them and leaves the rest, equal to ManagementAdjusted. |
| MonthlyDistribution.GrassNormalisation | logic/monthly_distribution.py:381-388 | 寒地型 and WOS labels map to the 寒地型 key, warm labels to 暖地型, Japanese labels to 日本芝. |
| MonthlyDistribution.WosRowsUnreachable | logic/monthly_distribution.py:381-388 | No grass label reaches the WOS table rows. |
| MonthlyDistribution.UsageNormalisation | logic/monthly_distribution.py:391-394 | The golf label maps to ゴルフ場 and the competition label to 競技場. |
| MonthlyDistribution.SpringBaseRow | logic/monthly_distribution.py:402-416 | The chosen base row (heavy table, standard table or the 寒地型/ゴルフ場 fallback) is well formed. |
| MonthlyDistribution.GetSeasonFactors | logic/monthly_distribution.py:361-419 | There are twelve positive factors. The GP-based stance gives all ones. |
| MonthlyDistribution.HeavyRowChosen | logic/monthly_distribution.py:402-407 | When a spring-heavy row exists, it is used with the intensity applied. |
| MonthlyDistribution.HeavyRowCoverage | logic/monthly_distribution.py:166-278 | A heavy row exists for every grass/usage pair except Japanese grass on a competition field. |
| MonthlyDistribution.JapaneseCompetitionFallback | logic/monthly_distribution.py:410-419 | Japanese grass on a competition field falls back to the 寒地型/ゴルフ場 row. |
| MonthlyDistribution.IntensityOnlyTouchesSpring | logic/monthly_distribution.py:351-356 | Outside March–May, the season factors do not depend on the intensity. |
| MonthlyDistribution.SpringScale | logic/monthly_distribution.py:422-440 | The spring scale is 1.4 when the stance contains "70", else 0.6 when it contains "30", else 1.0. |
| MonthlyDistribution.SpringScaleOfStanceLabels | logic/monthly_distribution.py:422-440 | 春重点70 → 1.4, 春重点50 → 1.0, 春重点30 → 0.6, and the other stance labels → 1.0. |
| MonthlyDistribution.ScaledSeason | logic/monthly_distribution.py:476-478 | The scaled season factors keep their length and are non-negative. |
| MonthlyDistribution.ReferenceStrengthIsNeutral | logic/monthly_distribution.py:426-427 | Scale 1.0 (春重点50) leaves non-negative factors unchanged. |
| MonthlyDistribution.ClampedWeights | logic/monthly_distribution.py:468-490 | The clamped weights are non-negative, with twelve months for twelve-month inputs. |
| MonthlyDistribution.DistributionRatios | logic/monthly_distribution.py:443-499 | The ratios are non-negative and sum to 1. They are the clamped weights over their total, or 1/12 each when the total is 0. |
| MonthlyDistribution.ZeroGpRatiosGiveUniform | logic/monthly_distribution.py:490-493 | All-zero GP ratios give 1/12 per month. |
| MonthlyDistribution.GpOnlyUniformGp | logic/monthly_distribution.py:468-499 | For the GP-based stance, uniform ratios with mid-range GP stay uniform. |
| MonthlyDistribution.SpringPathForOtherStances | logic/monthly_distribution.py:544-547 | Every stance except GP準拠 uses the 春重点 season factors from the heavy table. |
| MonthlyDistribution.EstimatedGpValues | logic/monthly_distribution.py:534-540 | The estimate of missing GP values has twelve months. |
| MonthlyDistribution.FertilizerRatios | logic/monthly_distribution.py:534-552 | The monthly ratios are non-negative, sum to 1 and have twelve months. |
| MonthlyDistribution.MonthlyFertilizerDistribution | logic/monthly_distribution.py:502-557 | The monthly amounts sum exactly to the annual amount, have twelve months, and are non-negative for a non-negative amount. |
| MonthlyDistribution.ZeroGpRatiosGiveTwelfths | logic/monthly_distribution.py:534-557 | All-zero GP ratios split the annual amount into twelfths. |
| Rounding.RoundHalfEven | logic/fertilizer.py:84 | The rounded integer is within 0.5 of its argument. |
| Rounding.Round1Error | logic/fertilizer.py:84 | round(x, 1) is within 0.05 of x. |
| Rounding.Round1Monotone | logic/annual_nutrient_model.py:137-139 | Rounding preserves ≤. |
| Rounding.Round1StaysInBand | logic/annual_nutrient_model.py:137-139 | Rounding a value between one-decimal bounds stays between them. |
| Rounding.Round1All | logic/fertilizer.py:84 | Element-wise round(x, 1), each within 0.05 of its input. |
| Fertilizer.Plan | logic/fertilizer.py:72-97 | The annual value, MSLN, SLAN, position and reason are copied. The GP values are the monthly GP, and correction is "". The monthly amounts have twelve months, are non-negative, and sum to the annual value within 0.6. |
| Fertilizer.RoundingKeepsSum | logic/fertilizer.py:84 | Rounding twelve monthly amounts moves their sum by at most 0.6. |
| Fertilizer.RoundingKeepsNonNegative | logic/fertilizer.py:84 | Rounding keeps non-negative amounts non-negative. |
| Fertilizer.CalculateFertilizerRequirements | logic/fertilizer.py:20-99 | The keys are exactly N, P, K, Ca and Mg. Each entry is Plan of that nutrient's annual requirement, with the monthly GP the program computes. The defaults are those of the source: latitude 35.7, longitude 139.8 and distribution stance 春重点50. |
| Fertilizer.FillPlans | logic/fertilizer.py:70-97 | The loop over the five nutrients yields exactly those keys, each entry the nutrient's plan. |

## Left out

- `app.py` (the Streamlit UI), `pdf/generator.py` and the kg/ha → g/m² display conversion are not part of this model.
- Plant growth regulator (PGR) planning is not part of this model; the source does not implement it.
- IEEE floating point is not modelled. Floats are exact reals, and `round(x, 1)` is half-to-even on the exact value rather than on the binary float.
- `math.exp` is a parameter of the GP functions. Properties that need it assume only `GpModel.ExpLike` and `GpModel.ExpIncreasing`.
- GpModel.GpFromTemperature: the `max(0, min(1, ·))` clip is modelled. For an `exp` parameter that is not `ExpLike`, only the [0, 1] bound is stated.
- The reason texts in the annual-amount functions are f-strings with formatted numbers. They are modelled as the structured data they format (`AnnualNutrientModel.Reason`), not as strings.
- The `year` argument of `calculate_growth_potential(s)`, taken from the clock when absent, does not affect the result. It is a parameter that the model ignores.
- The `[1.0] * 12` default in the last table lookup of `get_season_factors` cannot be reached, because the 寒地型/ゴルフ場/春重点 row exists. It is not modelled.
- The `DistributionStance` enumeration of `monthly_distribution.py` is not used by the core. Stances are the strings the functions receive.
- ANNUAL_N_REQUIREMENT and ANNUAL_N_RANGE are modelled as lookup functions that return `Option`, not as dictionaries. The values are the same.
- The `correction` field is always "", because no annual result has a `correction` key.
- The N `msln`/`slan` arguments of the P, K, Ca and Mg functions are not used by the source. `AnnualNutrientModel.SoilCorrectedIgnoresNBand` states this.
- The assert in `calculate_monthly_distribution_ratios` is not a check here. `MonthlyDistribution.DistributionRatios` proves non-negativity for every input.
- GpModel.MonthlyTemperatures: the longitude and grass-type arguments are accepted and ignored, as in the source.
- Concrete end-to-end numbers (for example a 春重点50 plan for one grass) need a concrete `exp`, so they are not stated.

## Findings

| source | as written | input that shows it | evidently intended | confidence | as-written member | corrected member |
|---|---|---|---|---|---|---|
| logic/gp_model.py:90-95 | the latitude adjustment adds 0.6 ℃ per degree north of 35.7° | latitude 45.7 gives January 5.2 + 6.0 = 11.2 ℃, warmer than Tokyo | subtract 0.6 ℃ per degree north: mean temperature falls with latitude, by about 0.6 ℃ per degree, so the correction must lower the table north of the reference | not executed | GpModel.MonthlyTemperaturesAsWritten, GpModel.AsWrittenNorthIsWarmer | GpModel.MonthlyTemperatures, GpModel.LatitudeShift |

`GpModel.MonthlyGp`, and the plan built on it, follow the program as written, so
their values are the program's. The corrected table, `GpModel.MonthlyTemperatures`,
is stated and proved on its own.
