/** Soil Nitrogen Supply tables: field assessment (RB209 Tables 4.3-4.5),
    grass-ley history (Table 4.6), SNS value to index (Table 4.10), and the
    vegetable field tables and SMN thresholds (Tables 6.2-6.4 and 6.6). */
module SnsData {
  import opened Outcomes
  import opened Crops
  import opened Rows

  /** Picks the entry for a rainfall class from a (low, medium, high) triple. */
  function ByRainfall(w: Rainfall, low: int, medium: int, high: int): int {
    match w
    case LowRainfall => low
    case MediumRainfall => medium
    case HighRainfall => high
  }

  // ── Field assessment (SNS_LOOKUP) ───────────────────────────────────

  /** SNS_LOOKUP: every one of the 4 x 4 x 3 keys has an index, and every
      index is in 0..6. */
  function FieldSnsIndex(r: NResidue, s: SoilType, w: Rainfall): (index: int)
    ensures 0 <= index <= 6
  {
    match r
    case LowResidue =>
      (match s
       case LightSoil => ByRainfall(w, 1, 0, 0)
       case MediumSoil => ByRainfall(w, 1, 1, 1)
       case HeavySoil => ByRainfall(w, 2, 2, 1)
       case OrganicSoil => ByRainfall(w, 3, 2, 2))
    case MediumResidue =>
      (match s
       case LightSoil => ByRainfall(w, 2, 1, 1)
       case MediumSoil => ByRainfall(w, 3, 2, 2)
       case HeavySoil => ByRainfall(w, 3, 3, 2)
       case OrganicSoil => ByRainfall(w, 4, 3, 3))
    case HighResidue =>
      (match s
       case LightSoil => ByRainfall(w, 3, 2, 1)
       case MediumSoil => ByRainfall(w, 4, 3, 2)
       case HeavySoil => ByRainfall(w, 4, 3, 3)
       case OrganicSoil => ByRainfall(w, 5, 4, 3))
    case VeryHighResidue =>
      (match s
       case LightSoil => ByRainfall(w, 4, 3, 2)
       case MediumSoil => ByRainfall(w, 5, 4, 3)
       case HeavySoil => ByRainfall(w, 5, 4, 4)
       case OrganicSoil => ByRainfall(w, 6, 5, 4))
  }

  /** For a fixed soil and rainfall, more residue never lowers the index. */
  lemma FieldSnsMonotoneInResidue(r1: NResidue, r2: NResidue, s: SoilType, w: Rainfall)
    requires ResidueRank(r1) <= ResidueRank(r2)
    ensures FieldSnsIndex(r1, s, w) <= FieldSnsIndex(r2, s, w)
  {
  }

  // ── Grass-ley history (GRASS_LEY_SNS_LOOKUP) ────────────────────────

  datatype LeySoilCategory = LeyLight | LeyMedium | LeyHeavyLow | LeyHeavyMediumHigh

  datatype LeyRow = LowNOrCut | HighNGrazedOrMixed | HighNGrazed35yr

  function LeyRowRank(row: LeyRow): nat {
    match row
    case LowNOrCut => 0
    case HighNGrazedOrMixed => 1
    case HighNGrazed35yr => 2
  }

  /** Indices in years 1, 2 and 3 after ploughing out; every one of the
      4 x 3 keys is present and every index is in 0..6. */
  function GrassLeyIndices(cat: LeySoilCategory, row: LeyRow): (y: (int, int, int))
    ensures 0 <= y.0 <= 6 && 0 <= y.1 <= 6 && 0 <= y.2 <= 6
  {
    match cat
    case LeyLight =>
      (match row
       case LowNOrCut => (0, 0, 0)
       case HighNGrazedOrMixed => (1, 2, 1)
       case HighNGrazed35yr => (3, 2, 1))
    case LeyMedium =>
      (match row
       case LowNOrCut => (1, 1, 1)
       case HighNGrazedOrMixed => (2, 2, 1)
       case HighNGrazed35yr => (3, 3, 2))
    case LeyHeavyLow =>
      (match row
       case LowNOrCut => (2, 2, 2)
       case HighNGrazedOrMixed => (3, 3, 2)
       case HighNGrazed35yr => (5, 4, 3))
    case LeyHeavyMediumHigh =>
      (match row
       case LowNOrCut => (1, 1, 1)
       case HighNGrazedOrMixed => (3, 2, 1)
       case HighNGrazed35yr => (4, 3, 2))
  }

  /** The entry for year 1, 2 or 3 of a ley row. */
  function YearOf(y: (int, int, int), year: int): int
    requires 1 <= year <= 3
  {
    if year == 1 then y.0 else if year == 2 then y.1 else y.2
  }

  /** In every soil category and every year, low-n-or-cut <= high-n-grazed-or-mixed
      <= high-n-grazed-35yr. */
  lemma GrassLeyRowsOrdered(cat: LeySoilCategory, r1: LeyRow, r2: LeyRow, year: int)
    requires 1 <= year <= 3
    requires LeyRowRank(r1) <= LeyRowRank(r2)
    ensures YearOf(GrassLeyIndices(cat, r1), year) <= YearOf(GrassLeyIndices(cat, r2), year)
  {
  }

  // ── SNS value to index (SNS_VALUE_TO_INDEX) ─────────────────────────

  const SNS_VALUE_TO_INDEX: seq<(UpperBound, int)> := [
    (AtMost(60.0), 0),
    (AtMost(80.0), 1),
    (AtMost(100.0), 2),
    (AtMost(120.0), 3),
    (AtMost(160.0), 4),
    (AtMost(240.0), 5),
    (Unbounded, 6)
  ]

  /** The bounds strictly ascend, the indices are 0..6 in order, and the last
      bound is unbounded, so a first-match search always stops inside the list. */
  lemma SnsValueTableShape()
    ensures |SNS_VALUE_TO_INDEX| == 7
    ensures Consecutive(SNS_VALUE_TO_INDEX)
    ensures StrictlyAscending(SNS_VALUE_TO_INDEX)
    ensures SNS_VALUE_TO_INDEX[6].0.Unbounded?
    ensures forall v: real :: FirstAdmitting(SNS_VALUE_TO_INDEX, v) < 7
  {
  }

  // ── Vegetable field assessment (VEG_SNS_LOOKUP) ─────────────────────

  datatype VegPreviousCrop =
    | PrevBeans | PrevCereals | PrevForageCut | PrevOilseedRape | PrevPeas | PrevPotatoes
    | PrevSugarBeet | PrevUncropped | PrevVegLowN | PrevVegMediumN | PrevVegHighN

  function VegPreviousCropName(p: VegPreviousCrop): string {
    match p
    case PrevBeans => "beans"
    case PrevCereals => "cereals"
    case PrevForageCut => "forage-cut"
    case PrevOilseedRape => "oilseed-rape"
    case PrevPeas => "peas"
    case PrevPotatoes => "potatoes"
    case PrevSugarBeet => "sugar-beet"
    case PrevUncropped => "uncropped"
    case PrevVegLowN => "veg-low-n"
    case PrevVegMediumN => "veg-medium-n"
    case PrevVegHighN => "veg-high-n"
  }

  function ParseVegPreviousCrop(s: string): (r: Option<VegPreviousCrop>)
    ensures r.Some? ==> VegPreviousCropName(r.value) == s
  {
    if s == "beans" then Some(PrevBeans)
    else if s == "cereals" then Some(PrevCereals)
    else if s == "forage-cut" then Some(PrevForageCut)
    else if s == "oilseed-rape" then Some(PrevOilseedRape)
    else if s == "peas" then Some(PrevPeas)
    else if s == "potatoes" then Some(PrevPotatoes)
    else if s == "sugar-beet" then Some(PrevSugarBeet)
    else if s == "uncropped" then Some(PrevUncropped)
    else if s == "veg-low-n" then Some(PrevVegLowN)
    else if s == "veg-medium-n" then Some(PrevVegMediumN)
    else if s == "veg-high-n" then Some(PrevVegHighN)
    else None
  }

  /** Vegetable soil types: four mineral soils in the table, plus organic and
      peat, which the table leaves out. */
  datatype VegSoil = LightSand | VegMedium | DeepClay | DeepSilt | VegOrganic | Peat

  function VegSoilName(s: VegSoil): string {
    match s
    case LightSand => "light-sand"
    case VegMedium => "medium"
    case DeepClay => "deep-clay"
    case DeepSilt => "deep-silt"
    case VegOrganic => "organic"
    case Peat => "peat"
  }

  function ParseVegSoil(s: string): (r: Option<VegSoil>)
    ensures r.Some? ==> VegSoilName(r.value) == s
  {
    if s == "light-sand" then Some(LightSand)
    else if s == "medium" then Some(VegMedium)
    else if s == "deep-clay" then Some(DeepClay)
    else if s == "deep-silt" then Some(DeepSilt)
    else if s == "organic" then Some(VegOrganic)
    else if s == "peat" then Some(Peat)
    else None
  }

  predicate IsMineral(s: VegSoil) {
    !(s.VegOrganic? || s.Peat?)
  }

  /** Rainfall classes of Section 6: "low", "moderate" and "high". */
  datatype VegRainfall = VegLowRain | ModerateRain | VegHighRain

  function VegRainfallName(w: VegRainfall): string {
    match w
    case VegLowRain => "low"
    case ModerateRain => "moderate"
    case VegHighRain => "high"
  }

  function ParseVegRainfall(s: string): (r: Option<VegRainfall>)
    ensures r.Some? ==> VegRainfallName(r.value) == s
  {
    if s == "low" then Some(VegLowRain)
    else if s == "moderate" then Some(ModerateRain)
    else if s == "high" then Some(VegHighRain)
    else None
  }

  /** Picks the entry for a mineral soil from a (light-sand, medium, deep-clay,
      deep-silt) row; organic and peat have no entry. */
  function BySoil(s: VegSoil, lightSand: int, medium: int, deepClay: int, deepSilt: int): Option<int> {
    match s
    case LightSand => Some(lightSand)
    case VegMedium => Some(medium)
    case DeepClay => Some(deepClay)
    case DeepSilt => Some(deepSilt)
    case _ => None
  }

  /** VEG_SNS_LOOKUP, Tables 6.2 (low), 6.3 (moderate) and 6.4 (high rainfall). */
  function VegFieldSnsIndex(p: VegPreviousCrop, s: VegSoil, w: VegRainfall): Option<int> {
    match w
    case VegLowRain =>
      (match p
       case PrevBeans => BySoil(s, 1, 2, 3, 3)
       case PrevCereals => BySoil(s, 0, 1, 2, 2)
       case PrevForageCut => BySoil(s, 0, 1, 2, 2)
       case PrevOilseedRape => BySoil(s, 1, 2, 3, 3)
       case PrevPeas => BySoil(s, 1, 2, 3, 3)
       case PrevPotatoes => BySoil(s, 1, 2, 3, 3)
       case PrevSugarBeet => BySoil(s, 1, 1, 2, 2)
       case PrevUncropped => BySoil(s, 1, 2, 3, 3)
       case PrevVegLowN => BySoil(s, 0, 1, 2, 2)
       case PrevVegMediumN => BySoil(s, 1, 3, 3, 3)
       case PrevVegHighN => BySoil(s, 2, 4, 4, 4))
    case ModerateRain =>
      (match p
       case PrevBeans => BySoil(s, 1, 2, 2, 3)
       case PrevCereals => BySoil(s, 0, 1, 1, 1)
       case PrevForageCut => BySoil(s, 0, 1, 1, 1)
       case PrevOilseedRape => BySoil(s, 0, 2, 2, 2)
       case PrevPeas => BySoil(s, 1, 2, 2, 3)
       case PrevPotatoes => BySoil(s, 0, 2, 2, 2)
       case PrevSugarBeet => BySoil(s, 0, 1, 1, 1)
       case PrevUncropped => BySoil(s, 1, 2, 2, 2)
       case PrevVegLowN => BySoil(s, 0, 1, 1, 1)
       case PrevVegMediumN => BySoil(s, 0, 2, 3, 3)
       case PrevVegHighN => BySoil(s, 1, 3, 4, 4))
    case VegHighRain =>
      (match p
       case PrevBeans => BySoil(s, 0, 1, 2, 2)
       case PrevCereals => BySoil(s, 0, 1, 1, 1)
       case PrevForageCut => BySoil(s, 0, 1, 1, 1)
       case PrevOilseedRape => BySoil(s, 0, 1, 1, 2)
       case PrevPeas => BySoil(s, 0, 1, 2, 2)
       case PrevPotatoes => BySoil(s, 0, 1, 1, 2)
       case PrevSugarBeet => BySoil(s, 0, 1, 1, 1)
       case PrevUncropped => BySoil(s, 0, 1, 1, 2)
       case PrevVegLowN => BySoil(s, 0, 1, 1, 1)
       case PrevVegMediumN => BySoil(s, 0, 1, 1, 2)
       case PrevVegHighN => BySoil(s, 1, 2, 2, 3))
  }

  /** The table covers exactly the 11 previous crops x 4 mineral soils x 3
      rainfall classes, with indices in 0..6; organic and peat are absent. */
  lemma VegFieldTableCoverage(p: VegPreviousCrop, s: VegSoil, w: VegRainfall)
    ensures VegFieldSnsIndex(p, s, w).Some? <==> IsMineral(s)
    ensures VegFieldSnsIndex(p, s, w).Some? ==> 0 <= VegFieldSnsIndex(p, s, w).value <= 6
  {
  }

  // ── Vegetable SMN thresholds (VEG_SMN_SNS_THRESHOLDS) ───────────────

  /** Thresholds for a sampling depth in cm; only 30, 60 and 90 have a list. */
  function VegSmnThresholds(depth: int): Option<seq<(UpperBound, int)>> {
    if depth == 30 then
      Some([(AtMost(19.9), 0), (AtMost(27.0), 1), (AtMost(33.0), 2), (AtMost(40.0), 3), (AtMost(53.0), 4), (AtMost(80.0), 5)])
    else if depth == 60 then
      Some([(AtMost(39.9), 0), (AtMost(53.0), 1), (AtMost(67.0), 2), (AtMost(80.0), 3), (AtMost(107.0), 4), (AtMost(160.0), 5)])
    else if depth == 90 then
      Some([(AtMost(59.9), 0), (AtMost(80.0), 1), (AtMost(100.0), 2), (AtMost(120.0), 3), (AtMost(160.0), 4), (AtMost(240.0), 5)])
    else None
  }

  /** Lists exist exactly for depths 30, 60 and 90; each has six finite,
      strictly ascending bounds paired with indices 0..5. */
  lemma VegSmnThresholdShape(depth: int)
    ensures VegSmnThresholds(depth).Some? <==> depth == 30 || depth == 60 || depth == 90
    ensures VegSmnThresholds(depth).Some? ==>
      var t := VegSmnThresholds(depth).value;
      |t| == 6 && Consecutive(t) && StrictlyAscending(t) && t[5].0.AtMost?
  {
  }
}
