/** The enumerations of the planner, their Japanese labels, and the fixed
    reference tables shared by the annual model. */
module Constants {
  import opened Wrappers

  /** 芝種区分: grass type and its site. */
  datatype GrassType =
    | CoolCompetition | CoolGreen
    | WarmCompetition | WarmGreen | WarmFairway
    | JapaneseFairway | JapaneseZoysia
    | Wos

  /** 利用形態: usage. */
  datatype UsageType = Competition | Golf

  /** 管理強度: management intensity. */
  datatype ManagementIntensity = Low | Medium | High

  /** 施肥スタンス: where in the MSLN..SLAN band the annual amount is placed. */
  datatype FertilizerStance = Lower | Center | Upper

  function GrassLabel(g: GrassType): string
  {
    match g
    case CoolCompetition => "寒地型（競技場）"
    case CoolGreen => "寒地型（ゴルフグリーン）"
    case WarmCompetition => "暖地型（競技場）"
    case WarmGreen => "暖地型（暖地芝グリーン）"
    case WarmFairway => "暖地型（フェアウェイ）"
    case JapaneseFairway => "日本芝（フェアウェイ）"
    case JapaneseZoysia => "日本芝（ゾイシアグリーン）"
    case Wos => "WOS（季節で寒地型／暖地型が優勢）"
  }

  function UsageLabel(u: UsageType): string
  {
    match u
    case Competition => "競技場"
    case Golf => "ゴルフ場"
  }

  function IntensityLabel(m: ManagementIntensity): string
  {
    match m
    case Low => "低"
    case Medium => "中"
    case High => "高"
  }

  function StanceLabel(s: FertilizerStance): string
  {
    match s
    case Lower => "下限寄り"
    case Center => "中央"
    case Upper => "上限寄り"
  }

  const AllGrassTypes: seq<GrassType> :=
    [CoolCompetition, CoolGreen, WarmCompetition, WarmGreen, WarmFairway,
     JapaneseFairway, JapaneseZoysia, Wos]
  const AllUsageTypes: seq<UsageType> := [Competition, Golf]
  const AllIntensities: seq<ManagementIntensity> := [Low, Medium, High]
  const AllStances: seq<FertilizerStance> := [Lower, Center, Upper]

  /** One value per management intensity. */
  function PerIntensity(m: ManagementIntensity, low: real, medium: real, high: real): real
  {
    match m
    case Low => low
    case Medium => medium
    case High => high
  }

  /** ANNUAL_N_REQUIREMENT (kg/ha/year), None for a key the table does not have. */
  function AnnualNRequirement(g: GrassType, u: UsageType, m: ManagementIntensity): Option<real>
  {
    match (g, u)
    case (CoolCompetition, Competition) => Some(PerIntensity(m, 150.0, 200.0, 250.0))
    case (CoolGreen, Golf) => Some(PerIntensity(m, 180.0, 220.0, 280.0))
    case (WarmCompetition, Competition) => Some(PerIntensity(m, 120.0, 160.0, 200.0))
    case (WarmGreen, Golf) => Some(PerIntensity(m, 140.0, 180.0, 220.0))
    case (WarmFairway, Golf) => Some(PerIntensity(m, 100.0, 130.0, 160.0))
    case (JapaneseFairway, Golf) => Some(PerIntensity(m, 80.0, 110.0, 140.0))
    case (JapaneseZoysia, Golf) => Some(PerIntensity(m, 100.0, 130.0, 160.0))
    case (Wos, Competition) => Some(PerIntensity(m, 135.0, 180.0, 225.0))
    case (Wos, Golf) => Some(PerIntensity(m, 160.0, 200.0, 250.0))
    case _ => None
  }

  /** FERTILIZER_STANCE_FACTOR. */
  const FertilizerStanceFactor: map<FertilizerStance, real> :=
    map[Lower := 0.85, Center := 1.0, Upper := 1.15]

  /** SOIL_REFERENCE_RANGES (mg/100g): (lower bound, upper bound) per nutrient. */
  const SoilReferenceRanges: map<string, (real, real)> :=
    map["P" := (10.0, 30.0), "K" := (15.0, 25.0), "Ca" := (200.0, 400.0), "Mg" := (20.0, 40.0)]

  /** IDEAL_RATIO: N:P:K:Ca:Mg. */
  const IdealRatio: map<string, real> :=
    map["N" := 1.0, "P" := 0.3, "K" := 0.5, "Ca" := 0.4, "Mg" := 0.15]

  /** The enumerations list every variant once, and no two labels coincide. */
  lemma EnumerationsComplete()
    ensures |AllGrassTypes| == 8 && |AllUsageTypes| == 2 && |AllIntensities| == 3 && |AllStances| == 3
    ensures forall g: GrassType :: g in AllGrassTypes
    ensures forall u: UsageType :: u in AllUsageTypes
    ensures forall m: ManagementIntensity :: m in AllIntensities
    ensures forall s: FertilizerStance :: s in AllStances
    ensures forall i, j :: 0 <= i < j < |AllGrassTypes| ==> GrassLabel(AllGrassTypes[i]) != GrassLabel(AllGrassTypes[j])
  {
    forall g: GrassType ensures g in AllGrassTypes {
      match g
      case CoolCompetition => assert AllGrassTypes[0] == g;
      case CoolGreen => assert AllGrassTypes[1] == g;
      case WarmCompetition => assert AllGrassTypes[2] == g;
      case WarmGreen => assert AllGrassTypes[3] == g;
      case WarmFairway => assert AllGrassTypes[4] == g;
      case JapaneseFairway => assert AllGrassTypes[5] == g;
      case JapaneseZoysia => assert AllGrassTypes[6] == g;
      case Wos => assert AllGrassTypes[7] == g;
    }
    forall u: UsageType ensures u in AllUsageTypes {
      if u.Competition? { assert AllUsageTypes[0] == u; } else { assert AllUsageTypes[1] == u; }
    }
    forall m: ManagementIntensity ensures m in AllIntensities {
      match m
      case Low => assert AllIntensities[0] == m;
      case Medium => assert AllIntensities[1] == m;
      case High => assert AllIntensities[2] == m;
    }
    forall s: FertilizerStance ensures s in AllStances {
      match s
      case Lower => assert AllStances[0] == s;
      case Center => assert AllStances[1] == s;
      case Upper => assert AllStances[2] == s;
    }
  }

  lemma LabelsDistinct(g1: GrassType, g2: GrassType, u1: UsageType, u2: UsageType,
                       m1: ManagementIntensity, m2: ManagementIntensity,
                       s1: FertilizerStance, s2: FertilizerStance)
    ensures GrassLabel(g1) == GrassLabel(g2) ==> g1 == g2
    ensures UsageLabel(u1) == UsageLabel(u2) ==> u1 == u2
    ensures IntensityLabel(m1) == IntensityLabel(m2) ==> m1 == m2
    ensures StanceLabel(s1) == StanceLabel(s2) ==> s1 == s2
  {
  }

  /** Every soil reference range has 0 < min < max, so `(min - soil) / min` is defined. */
  lemma SoilReferenceRangesWellFormed()
    ensures SoilReferenceRanges.Keys == {"P", "K", "Ca", "Mg"}
    ensures forall k :: k in SoilReferenceRanges ==> 0.0 < SoilReferenceRanges[k].0 < SoilReferenceRanges[k].1
  {
  }

  lemma StanceFactorOrdered()
    ensures FertilizerStanceFactor.Keys == {Lower, Center, Upper}
    ensures FertilizerStanceFactor[Lower] < FertilizerStanceFactor[Center] < FertilizerStanceFactor[Upper]
  {
  }

  /** For every (grass, usage) pair in the table, the requirement rises Low < Medium < High. */
  lemma AnnualNRequirementIncreasing(g: GrassType, u: UsageType)
    requires AnnualNRequirement(g, u, Low).Some?
    ensures AnnualNRequirement(g, u, Medium).Some? && AnnualNRequirement(g, u, High).Some?
    ensures AnnualNRequirement(g, u, Low).value < AnnualNRequirement(g, u, Medium).value < AnnualNRequirement(g, u, High).value
  {
  }
}
