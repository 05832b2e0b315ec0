/** Fruit, vine and hop tables (RB209 Section 7): pre-planting P/K/Mg
    (Table 7.3), top-fruit nitrogen and P/K/Mg (Tables 7.4 and 7.5), soft
    fruit and vine nitrogen and P/K/Mg (Tables 7.6 and 7.7), strawberry
    nitrogen and P/K/Mg (Tables 7.8 and 7.9) and hops (Table 7.17). The
    rows keyed by index run 0..4 or 0..5, the last key meaning "and over". */
module FruitData {
  import opened Outcomes
  import opened Crops
  import opened Rows

  // ── Soil categories and orchard management ─────────────────────────

  datatype FruitSoil = FruitLightSand | FruitDeepSilt | Clay | OtherMineral

  function FruitSoilName(s: FruitSoil): string {
    match s
    case FruitLightSand => "light-sand"
    case FruitDeepSilt => "deep-silt"
    case Clay => "clay"
    case OtherMineral => "other-mineral"
  }

  function ParseFruitSoil(s: string): (r: Option<FruitSoil>)
    ensures r.Some? ==> FruitSoilName(r.value) == s
  {
    if s == "light-sand" then Some(FruitLightSand)
    else if s == "deep-silt" then Some(FruitDeepSilt)
    else if s == "clay" then Some(Clay)
    else if s == "other-mineral" then Some(OtherMineral)
    else None
  }

  lemma ParseFruitSoilExact(s: string, t: FruitSoil)
    ensures ParseFruitSoil(s) == Some(t) <==> s == FruitSoilName(t)
  {
  }

  datatype OrchardManagement = GrassStrip | OverallGrass

  function ManagementName(m: OrchardManagement): string {
    match m
    case GrassStrip => "grass-strip"
    case OverallGrass => "overall-grass"
  }

  function ParseOrchardManagement(s: string): (r: Option<OrchardManagement>)
    ensures r.Some? ==> ManagementName(r.value) == s
  {
    if s == "grass-strip" then Some(GrassStrip)
    else if s == "overall-grass" then Some(OverallGrass)
    else None
  }

  lemma ParseOrchardManagementExact(s: string, m: OrchardManagement)
    ensures ParseOrchardManagement(s) == Some(m) <==> s == ManagementName(m)
  {
  }

  // ── Crop groups ────────────────────────────────────────────────────

  /** Which table a fruit crop reads. */
  datatype FruitKind = PreplantFruitVines | PreplantHops | TopFruit | SoftFruit | Strawberry | HopGarden

  function KindOf(f: FruitCrop): FruitKind {
    match f
    case Preplant => PreplantFruitVines
    case HopsPreplant => PreplantHops
    case DessertApple | CulinaryApple | Pear | Cherry | Plum => TopFruit
    case Blackcurrant | Redcurrant | Gooseberry | Raspberry | Loganberry | Tayberry | Blackberry | Vine => SoftFruit
    case StrawberryMain | StrawberryEver => Strawberry
    case Hops => HopGarden
  }

  /** Soft-fruit group 1 (currants, gooseberries and cane fruit); group 2 is
      blackberries and vines. */
  predicate SoftGroupOne(f: FruitCrop) {
    f in {Blackcurrant, Redcurrant, Gooseberry, Raspberry, Loganberry, Tayberry}
  }

  datatype PkmNutrient = Phosphate | Potash | Magnesium

  // ── Table 7.3: pre-planting ────────────────────────────────────────

  function PreplantRow(hops: bool, n: PkmNutrient): Row6 {
    match (hops, n)
    case (false, Phosphate) => [200, 100, 50, 50, 0, 0]
    case (false, Potash) => [200, 100, 50, 0, 0, 0]
    case (false, Magnesium) => [165, 125, 85, 0, 0, 0]
    case (true, Phosphate) => [250, 175, 125, 100, 50, 0]
    case (true, Potash) => [300, 250, 200, 150, 100, 0]
    case (true, Magnesium) => [250, 165, 85, 0, 0, 0]
  }

  // ── Tables 7.4 and 7.5: top fruit ──────────────────────────────────

  /** FRUIT_TOP_NITROGEN for a top fruit and soil, as the pair (grass
      strip, overall grass). */
  function TopNitrogenPair(f: FruitCrop, s: FruitSoil): (int, int)
    requires KindOf(f) == TopFruit
  {
    match (f, s)
    case (DessertApple, FruitLightSand) => (80, 120)
    case (DessertApple, FruitDeepSilt) => (30, 70)
    case (DessertApple, Clay) => (40, 80)
    case (DessertApple, OtherMineral) => (60, 100)
    case (CulinaryApple, FruitLightSand) => (110, 150)
    case (CulinaryApple, FruitDeepSilt) => (60, 100)
    case (CulinaryApple, Clay) => (70, 110)
    case (CulinaryApple, OtherMineral) => (90, 130)
    case (_, FruitLightSand) => (140, 180)
    case (_, FruitDeepSilt) => (90, 130)
    case (_, Clay) => (100, 140)
    case (_, OtherMineral) => (120, 160)
  }

  function TopNitrogen(f: FruitCrop, s: FruitSoil, m: OrchardManagement): int
    requires KindOf(f) == TopFruit
  {
    var pair := TopNitrogenPair(f, s);
    if m == GrassStrip then pair.0 else pair.1
  }

  /** FRUIT_TOP_PKM: one table for every top fruit. */
  function TopPkmRow(n: PkmNutrient): Row5 {
    match n
    case Phosphate => [80, 40, 20, 20, 0]
    case Potash => [220, 150, 80, 0, 0]
    case Magnesium => [100, 65, 50, 0, 0]
  }

  // ── Tables 7.6 and 7.7: soft fruit and vines ───────────────────────

  function SoftNitrogen(f: FruitCrop, s: FruitSoil): int
    requires KindOf(f) == SoftFruit
  {
    match (f, s)
    case (Blackcurrant, FruitLightSand) => 160
    case (Blackcurrant, FruitDeepSilt) => 110
    case (Blackcurrant, Clay) => 120
    case (Blackcurrant, OtherMineral) => 140
    case (Vine, FruitLightSand) => 60
    case (Vine, FruitDeepSilt) => 0
    case (Vine, Clay) => 20
    case (Vine, OtherMineral) => 40
    case (_, FruitLightSand) => 120
    case (_, FruitDeepSilt) => 70
    case (_, Clay) => 80
    case (_, OtherMineral) => 100
  }

  /** FRUIT_SOFT_PKM: phosphate and magnesium shared by all eight crops,
      potash by group. */
  function SoftPkmRow(f: FruitCrop, n: PkmNutrient): Row5
    requires KindOf(f) == SoftFruit
  {
    match n
    case Phosphate => [110, 70, 40, 40, 0]
    case Potash => if SoftGroupOne(f) then [250, 180, 120, 60, 0] else [220, 150, 80, 0, 0]
    case Magnesium => [100, 65, 50, 0, 0]
  }

  // ── Tables 7.8 and 7.9: strawberries ───────────────────────────────

  /** FRUIT_STRAWBERRY_NITROGEN by SNS index 0..5; clay reads the
      other-mineral row. */
  function StrawberryNitrogenRow(f: FruitCrop, s: FruitSoil): Row6
    requires KindOf(f) == Strawberry
  {
    match (f, s)
    case (StrawberryMain, FruitLightSand) => [60, 50, 40, 30, 20, 0]
    case (StrawberryMain, FruitDeepSilt) => [0, 0, 0, 0, 0, 0]
    case (StrawberryMain, _) => [40, 40, 30, 20, 0, 0]
    case (_, FruitLightSand) => [80, 70, 60, 40, 20, 0]
    case (_, FruitDeepSilt) => [40, 30, 30, 20, 0, 0]
    case (_, _) => [60, 50, 40, 20, 0, 0]
  }

  function StrawberryPkmRow(n: PkmNutrient): Row5 {
    match n
    case Phosphate => [110, 70, 40, 40, 0]
    case Potash => [220, 150, 80, 0, 0]
    case Magnesium => [100, 65, 50, 0, 0]
  }

  // ── Table 7.17: hops ───────────────────────────────────────────────

  /** FRUIT_HOPS_NITROGEN: light sand and shallow soils are not listed. */
  function HopsNitrogen(s: FruitSoil): (r: Option<int>)
    ensures r.None? <==> s == FruitLightSand
  {
    match s
    case FruitLightSand => None
    case FruitDeepSilt => Some(180)
    case Clay => Some(200)
    case OtherMineral => Some(220)
  }

  function HopsPkmRow(n: PkmNutrient): Row6 {
    match n
    case Phosphate => [250, 200, 150, 100, 50, 0]
    case Potash => [425, 350, 275, 200, 100, 0]
    case Magnesium => [150, 100, 50, 0, 0, 0]
  }

  // ── Table facts ────────────────────────────────────────────────────

  /** For every top fruit and soil, an overall-grass orchard needs 40 kg N/ha
      more than one with grass strips. */
  lemma OverallGrassIsStripPlus40(f: FruitCrop, s: FruitSoil)
    requires KindOf(f) == TopFruit
    ensures TopNitrogen(f, s, OverallGrass) == TopNitrogen(f, s, GrassStrip) + 40
  {
  }

  /** Soft-fruit groups 1 and 2 share phosphate and magnesium but differ in
      potash at every index from 0 to 3. */
  lemma SoftFruitGroups(f: FruitCrop, g: FruitCrop, i: int)
    requires KindOf(f) == SoftFruit && KindOf(g) == SoftFruit && 0 <= i <= 4
    ensures SoftPkmRow(f, Phosphate) == SoftPkmRow(g, Phosphate)
    ensures SoftPkmRow(f, Magnesium) == SoftPkmRow(g, Magnesium)
    ensures SoftPkmRow(f, Potash)[i] != SoftPkmRow(g, Potash)[i] <==> i < 4 && SoftGroupOne(f) != SoftGroupOne(g)
  {
  }
}
