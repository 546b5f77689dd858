/** Temperature-based growth potential: a latitude-shifted monthly temperature
    table, a clamped Gaussian response around each grass family's optimum, and
    the normalisation of the twelve GP values to ratios. */
module GpModel {
  import opened RealSeqs
  import opened Text
  import Constants

  /** What the model relies on about `math.exp` on the non-positive half line. */
  ghost predicate ExpLike(exp: real -> real)
  {
    && exp(0.0) == 1.0
    && forall x :: x <= 0.0 ==> 0.0 < exp(x) <= 1.0
  }

  /** `math.exp` is increasing; needed only to compare two months. */
  ghost predicate ExpIncreasing(exp: real -> real)
  {
    forall x, y :: x <= y ==> exp(x) <= exp(y)
  }

  function Abs(x: real): real { if x < 0.0 then -x else x }

  /** Default optimum and spread of calculate_gp_from_temperature. */
  const DefaultOptimum: real := 20.0
  const DefaultSigma: real := 7.0

  lemma SquareSign(x: real)
    ensures 0.0 <= Mul(x, x)
    ensures x != 0.0 ==> 0.0 < Mul(x, x)
  {
    MulNonNegative(x, x);
    if x != 0.0 {
      MulPositive(x, x);
    }
  }

  /** Squares grow with the distance from zero. */
  lemma SquareMonotone(a: real, b: real)
    requires Abs(a) <= Abs(b)
    ensures Mul(a, a) <= Mul(b, b)
  {
    MulMonotone(Abs(a), Abs(b));
    MulNegated(a, a);
    MulNegated(b, b);
  }

  lemma QuotientSign(a: real, k: real)
    requires 0.0 < k
    ensures 0.0 <= a ==> -a / k <= 0.0
    ensures 0.0 < a ==> -a / k < 0.0
    ensures a == 0.0 ==> -a / k == 0.0
  {
  }

  lemma QuotientMonotone(a: real, b: real, k: real)
    requires a <= b && 0.0 < k
    ensures -b / k <= -a / k
  {
  }

  /** The Gaussian exponent `-((t - t_opt) ** 2) / (2 * sigma ** 2)`: zero at
      the optimum and negative everywhere else. */
  function Exponent(t: real, tOpt: real, sigma: real): (e: real)
    requires sigma != 0.0
    ensures e <= 0.0
    ensures e == 0.0 <==> t == tOpt
  {
    SquareSign(t - tOpt);
    SquareSign(sigma);
    MulZero(0.0);
    QuotientSign(Mul(t - tOpt, t - tOpt), 2.0 * Mul(sigma, sigma));
    -Mul(t - tOpt, t - tOpt) / (2.0 * Mul(sigma, sigma))
  }

  /** calculate_gp_from_temperature */
  function GpFromTemperature(exp: real -> real, t: real, tOpt: real := DefaultOptimum, sigma: real := DefaultSigma): (gp: real)
    ensures 0.0 <= gp <= 1.0
    ensures sigma == 0.0 ==> (gp == 1.0 <==> t == tOpt) && (t != tOpt <==> gp == 0.0)
    ensures sigma != 0.0 && ExpLike(exp) ==> gp == exp(Exponent(t, tOpt, sigma))
  {
    if sigma == 0.0 then
      if t == tOpt then 1.0 else 0.0
    else
      Max(0.0, Min(1.0, exp(Exponent(t, tOpt, sigma))))
  }

  /** At the optimum the GP is exactly 1, whatever the spread. */
  lemma GpAtOptimum(exp: real -> real, tOpt: real, sigma: real)
    requires ExpLike(exp)
    ensures GpFromTemperature(exp, tOpt, tOpt, sigma) == 1.0
  {
  }

  /** The response is symmetric about the optimum. */
  lemma GpSymmetric(exp: real -> real, tOpt: real, d: real, sigma: real)
    ensures GpFromTemperature(exp, tOpt + d, tOpt, sigma) == GpFromTemperature(exp, tOpt - d, tOpt, sigma)
  {
    assert tOpt + d - tOpt == d && tOpt - d - tOpt == -d;
    MulNegated(d, d);
  }

  /** A temperature further from the optimum never has a higher GP. */
  lemma GpDecreasesAwayFromOptimum(exp: real -> real, t1: real, t2: real, tOpt: real, sigma: real)
    requires ExpLike(exp) && ExpIncreasing(exp)
    requires Abs(t1 - tOpt) <= Abs(t2 - tOpt)
    ensures GpFromTemperature(exp, t2, tOpt, sigma) <= GpFromTemperature(exp, t1, tOpt, sigma)
  {
    if sigma != 0.0 {
      SquareMonotone(t1 - tOpt, t2 - tOpt);
      SquareSign(sigma);
      QuotientMonotone(Mul(t1 - tOpt, t1 - tOpt), Mul(t2 - tOpt, t2 - tOpt), 2.0 * Mul(sigma, sigma));
    }
  }

  /** get_optimal_temperature: tested in the order 寒地型, 暖地型, 日本芝. */
  function OptimalTemperature(grassType: string): real
  {
    if Contains(grassType, "寒地型") then 18.0
    else if Contains(grassType, "暖地型") then 25.0
    else if Contains(grassType, "日本芝") then 28.0
    else 22.0
  }

  /** Each grass label gets its family's optimum; the WOS label contains 寒地型
      and so gets 18, and no label reaches the 22 branch. */
  lemma {:induction false} OptimalTemperatureByGrass(g: Constants.GrassType)
    ensures OptimalTemperature(Constants.GrassLabel(g)) ==
      match g
      case CoolCompetition | CoolGreen | Wos => 18.0
      case WarmCompetition | WarmGreen | WarmFairway => 25.0
      case JapaneseFairway | JapaneseZoysia => 28.0
    ensures OptimalTemperature(Constants.GrassLabel(g)) != 22.0
  {
    var name := Constants.GrassLabel(g);
    match g
    case CoolCompetition => assert MatchesAt(name, "寒地型", 0);
    case CoolGreen => assert MatchesAt(name, "寒地型", 0);
    case Wos => assert MatchesAt(name, "寒地型", 7);
    case WarmCompetition =>
      FirstCharMissing(name, "寒地型");
      assert MatchesAt(name, "暖地型", 0);
    case WarmGreen =>
      FirstCharMissing(name, "寒地型");
      assert MatchesAt(name, "暖地型", 0);
    case WarmFairway =>
      FirstCharMissing(name, "寒地型");
      assert MatchesAt(name, "暖地型", 0);
    case JapaneseFairway =>
      FirstCharMissing(name, "寒地型");
      FirstCharMissing(name, "暖地型");
      assert MatchesAt(name, "日本芝", 0);
    case JapaneseZoysia =>
      FirstCharMissing(name, "寒地型");
      FirstCharMissing(name, "暖地型");
      assert MatchesAt(name, "日本芝", 0);
  }

  /** The base monthly mean temperatures (around Tokyo), January first. */
  const BaseTemperatures: seq<real> :=
    [5.2, 5.7, 8.7, 13.9, 18.2, 21.4, 25.0, 26.4, 22.8, 17.5, 12.1, 7.6]

  /** The latitude of the base table. */
  const ReferenceLatitude: real := 35.7

  /** get_monthly_temperatures as written: the whole table is shifted by
      0.6 degC per degree of latitude ABOVE the reference, so a site further
      north comes out warmer. Longitude and grass type are not used. */
  function MonthlyTemperaturesAsWritten(latitude: real, longitude: real, grassType: string): (temps: seq<real>)
    ensures |temps| == 12
    ensures forall i :: 0 <= i < 12 ==> temps[i] == BaseTemperatures[i] + 0.6 * (latitude - ReferenceLatitude)
  {
    var adjustment := (latitude - ReferenceLatitude) * 0.6;
    seq(12, i requires 0 <= i < 12 => BaseTemperatures[i] + adjustment)
  }

  /** At 45.7 degN the table as written puts January at 11.2 degC, six degrees
      warmer than at the reference latitude. */
  lemma AsWrittenNorthIsWarmer()
    ensures MonthlyTemperaturesAsWritten(45.7, 0.0, "")[0] == 11.2
    ensures MonthlyTemperaturesAsWritten(45.7, 0.0, "")[0] > MonthlyTemperaturesAsWritten(ReferenceLatitude, 0.0, "")[0]
  {
  }

  /** The latitude correction with the intended sign: 0.6 degC colder per
      degree of latitude north of the reference. */
  function MonthlyTemperatures(latitude: real, longitude: real, grassType: string): (temps: seq<real>)
    ensures |temps| == 12
  {
    var adjustment := (latitude - ReferenceLatitude) * 0.6;
    seq(12, i requires 0 <= i < 12 => BaseTemperatures[i] - adjustment)
  }

  /** Every month moves by the same amount, in the opposite direction to the latitude. */
  lemma {:induction false} LatitudeShift(lat1: real, lat2: real, lon1: real, lon2: real, g1: string, g2: string)
    ensures forall i :: 0 <= i < 12 ==>
      MonthlyTemperatures(lat2, lon2, g2)[i] - MonthlyTemperatures(lat1, lon1, g1)[i] == -0.6 * (lat2 - lat1)
    ensures lat1 < lat2 ==> forall i :: 0 <= i < 12 ==>
      MonthlyTemperatures(lat2, lon2, g2)[i] < MonthlyTemperatures(lat1, lon1, g1)[i]
  {
    var t1, t2 := MonthlyTemperatures(lat1, lon1, g1), MonthlyTemperatures(lat2, lon2, g2);
    forall i | 0 <= i < 12
      ensures t2[i] - t1[i] == -0.6 * (lat2 - lat1)
    {
      assert t1[i] == BaseTemperatures[i] - (lat1 - ReferenceLatitude) * 0.6;
      assert t2[i] == BaseTemperatures[i] - (lat2 - ReferenceLatitude) * 0.6;
    }
  }

  /** At the reference latitude both versions return the base table unchanged. */
  lemma ReferenceLatitudeGivesBase(longitude: real, grassType: string)
    ensures MonthlyTemperatures(ReferenceLatitude, longitude, grassType) == BaseTemperatures
    ensures MonthlyTemperaturesAsWritten(ReferenceLatitude, longitude, grassType) == BaseTemperatures
  {
  }

  /** January is the coldest and August the warmest month at every latitude,
      with either sign of the latitude correction. */
  lemma SeasonalExtremes(latitude: real, longitude: real, grassType: string)
    ensures forall i :: 0 <= i < 12 ==>
      MonthlyTemperaturesAsWritten(latitude, longitude, grassType)[0]
      <= MonthlyTemperaturesAsWritten(latitude, longitude, grassType)[i]
      <= MonthlyTemperaturesAsWritten(latitude, longitude, grassType)[7]
    ensures forall i :: 0 <= i < 12 ==>
      MonthlyTemperatures(latitude, longitude, grassType)[0] <= MonthlyTemperatures(latitude, longitude, grassType)[i]
      <= MonthlyTemperatures(latitude, longitude, grassType)[7]
  {
  }

  /** calculate_monthly_gp: the GP of each month's temperature, from the
      temperature table as the program computes it, around the grass type's
      optimum with the default spread. */
  function MonthlyGp(exp: real -> real, latitude: real, longitude: real, grassType: string): (gp: seq<real>)
    ensures |gp| == 12
    ensures AllWithin(gp, 0.0, 1.0)
  {
    var temps := MonthlyTemperaturesAsWritten(latitude, longitude, grassType);
    var tOpt := OptimalTemperature(grassType);
    seq(12, i requires 0 <= i < 12 => GpFromTemperature(exp, temps[i], tOpt := tOpt))
  }

  /** The month whose temperature is closest to the optimum has the highest GP. */
  lemma MonthlyGpPeaksNearestOptimum(exp: real -> real, latitude: real, longitude: real, grassType: string, m: int)
    requires ExpLike(exp) && ExpIncreasing(exp)
    requires 0 <= m < 12
    requires forall i :: 0 <= i < 12 ==>
      Abs(MonthlyTemperaturesAsWritten(latitude, longitude, grassType)[m] - OptimalTemperature(grassType))
      <= Abs(MonthlyTemperaturesAsWritten(latitude, longitude, grassType)[i] - OptimalTemperature(grassType))
    ensures forall i :: 0 <= i < 12 ==>
      MonthlyGp(exp, latitude, longitude, grassType)[i] <= MonthlyGp(exp, latitude, longitude, grassType)[m]
  {
    var temps := MonthlyTemperaturesAsWritten(latitude, longitude, grassType);
    var tOpt := OptimalTemperature(grassType);
    forall i | 0 <= i < 12
      ensures MonthlyGp(exp, latitude, longitude, grassType)[i] <= MonthlyGp(exp, latitude, longitude, grassType)[m]
    {
      GpDecreasesAwayFromOptimum(exp, temps[m], temps[i], tOpt, DefaultSigma);
    }
  }

  /** normalize_gp_ratios */
  function NormalizeGpRatios(gpValues: seq<real>): (ratios: seq<real>)
    ensures Sum(ratios) == 1.0
    ensures NormalisationOf(ratios, gpValues)
    ensures AllNonNegative(gpValues) ==> AllNonNegative(ratios)
    ensures |gpValues| == 12 ==> |ratios| == 12
  {
    Normalise(gpValues)
  }

  /** Ratios depend only on the shape of the GP curve, not on its scale. */
  lemma NormalizeGpRatiosScaleInvariant(gpValues: seq<real>, c: real)
    requires 0.0 < c
    ensures NormalizeGpRatios(Scale(gpValues, c)) == NormalizeGpRatios(gpValues)
  {
    var scaled := Scale(gpValues, c);
    var s := Sum(gpValues);
    SumScale(gpValues, c);
    assert Sum(scaled) == Mul(c, s);
    if s == 0.0 {
      MulZeroRight(c);
    } else {
      MulNonZero(c, s);
      forall i | 0 <= i < |gpValues|
        ensures Divide(scaled, Mul(c, s))[i] == Divide(gpValues, s)[i]
      {
        CancelFactor(gpValues[i], s, c);
      }
    }
  }

  lemma MulZeroRight(c: real)
    ensures Mul(c, 0.0) == 0.0
  {
  }

  lemma MulNonZero(c: real, s: real)
    requires c != 0.0 && s != 0.0
    ensures Mul(c, s) != 0.0
  {
  }

  lemma CancelFactor(x: real, s: real, c: real)
    requires s != 0.0 && c != 0.0
    ensures (c * x) / Mul(c, s) == x / s
  {
  }
}
