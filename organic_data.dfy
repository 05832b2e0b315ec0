/** Organic material nutrient contents and the nitrogen timing and
    incorporation factors (RB209 9th edition, Section 2). Contents are kg per
    tonne of fresh weight, or kg per cubic metre for slurries. */
module OrganicData {
  import opened Outcomes

  datatype Material =
    | CattleFym | PigFym | SheepFym | HorseFym
    | PoultryLitter | LayerManure
    | CattleSlurry | PigSlurry
    | GreenCompost | GreenFoodCompost
    | BiosolidsCake | PaperCrumble

  /** The value string of each material. */
  function MaterialSlug(m: Material): string {
    match m
    case CattleFym => "cattle-fym"
    case PigFym => "pig-fym"
    case SheepFym => "sheep-fym"
    case HorseFym => "horse-fym"
    case PoultryLitter => "poultry-litter"
    case LayerManure => "layer-manure"
    case CattleSlurry => "cattle-slurry"
    case PigSlurry => "pig-slurry"
    case GreenCompost => "green-compost"
    case GreenFoodCompost => "green-food-compost"
    case BiosolidsCake => "biosolids-cake"
    case PaperCrumble => "paper-crumble"
  }

  /** The material a value string names, if any. */
  function ParseMaterial(s: string): (r: Option<Material>)
    ensures r.Some? ==> MaterialSlug(r.value) == s
  {
    if s == "cattle-fym" then Some(CattleFym)
    else if s == "pig-fym" then Some(PigFym)
    else if s == "sheep-fym" then Some(SheepFym)
    else if s == "horse-fym" then Some(HorseFym)
    else if s == "poultry-litter" then Some(PoultryLitter)
    else if s == "layer-manure" then Some(LayerManure)
    else if s == "cattle-slurry" then Some(CattleSlurry)
    else if s == "pig-slurry" then Some(PigSlurry)
    else if s == "green-compost" then Some(GreenCompost)
    else if s == "green-food-compost" then Some(GreenFoodCompost)
    else if s == "biosolids-cake" then Some(BiosolidsCake)
    else if s == "paper-crumble" then Some(PaperCrumble)
    else None
  }

  /** Parsing recognises the value string of every material. */
  lemma ParseMaterialExact(m: Material)
    ensures ParseMaterial(MaterialSlug(m)) == Some(m)
  {
  }

  /** The nutrient content of one unit of a material. `availableN` is the
      flat crop-available share of `totalN` used when no timing is given. */
  datatype MaterialInfo = MaterialInfo(
    name: string,
    perCubicMetre: bool,
    totalN: real,
    availableN: real,
    p2o5: real,
    k2o: real,
    mgo: real,
    so3: real)

  /** ORGANIC_MATERIAL_INFO. */
  function Info(m: Material): MaterialInfo {
    match m
    case CattleFym => MaterialInfo("Cattle FYM", false, 6.0, 1.2, 3.2, 8.0, 1.8, 3.0)
    case PigFym => MaterialInfo("Pig FYM", false, 7.0, 1.4, 6.0, 5.0, 1.5, 3.0)
    case SheepFym => MaterialInfo("Sheep FYM", false, 7.0, 1.4, 3.2, 6.0, 2.0, 4.0)
    case HorseFym => MaterialInfo("Horse FYM", false, 5.0, 1.0, 3.5, 6.0, 1.5, 2.0)
    case PoultryLitter => MaterialInfo("Poultry Litter (broiler/turkey)", false, 19.0, 5.7, 14.0, 9.5, 3.5, 5.0)
    case LayerManure => MaterialInfo("Layer Manure", false, 16.0, 4.8, 13.0, 8.0, 3.0, 5.5)
    case CattleSlurry => MaterialInfo("Cattle Slurry (6% DM)", true, 2.6, 0.8, 1.2, 2.5, 0.5, 0.8)
    case PigSlurry => MaterialInfo("Pig Slurry (4% DM)", true, 3.6, 2.167, 2.0, 1.6, 0.5, 0.8)
    case GreenCompost => MaterialInfo("Green Compost", false, 4.3, 0.4, 3.0, 4.2, 1.5, 2.5)
    case GreenFoodCompost => MaterialInfo("Green/Food Compost", false, 8.0, 0.8, 4.5, 6.0, 2.0, 4.0)
    case BiosolidsCake => MaterialInfo("Biosolids Cake (sewage sludge)", false, 12.5, 2.5, 12.0, 0.5, 2.0, 7.0)
    case PaperCrumble => MaterialInfo("Paper Crumble", false, 3.0, 0.3, 1.5, 0.5, 2.5, 4.0)
  }

  /** Contents are never negative and the flat available N is a share of the
      total N. */
  lemma InfoContentsSensible(m: Material)
    ensures var i := Info(m);
      0.0 <= i.availableN <= i.totalN && i.p2o5 >= 0.0 && i.k2o >= 0.0 && i.mgo >= 0.0 && i.so3 >= 0.0
  {
  }

  // ── Timing and incorporation factors ────────────────────────────────

  datatype Season = Autumn | Winter | Spring | Summer

  /** The season a timing string names, if any. */
  function ParseSeason(s: string): (r: Option<Season>)
    ensures r == Some(Autumn) <==> s == "autumn"
    ensures r == Some(Winter) <==> s == "winter"
    ensures r == Some(Spring) <==> s == "spring"
    ensures r == Some(Summer) <==> s == "summer"
  {
    if s == "autumn" then Some(Autumn)
    else if s == "winter" then Some(Winter)
    else if s == "spring" then Some(Spring)
    else if s == "summer" then Some(Summer)
    else None
  }

  /** The two soil categories of the factor tables: sandy (light and
      shallow soils) and medium-heavy (medium, heavy and organic soils). */
  datatype SoilCategory = Sandy | MediumHeavy

  /** TIMING_SOIL_CATEGORY with its default: "light" is sandy, and every other
      string, or no soil type at all, is medium-heavy. */
  function TimingSoilCategory(soil: Option<string>): (k: SoilCategory)
    ensures k == Sandy <==> soil == Some("light")
  {
    if soil == Some("light") then Sandy else MediumHeavy
  }

  /** The distinct factor tables; the four FYM types share one. */
  datatype FactorTable = FymFactors | PoultryLitterFactors | LayerManureFactors
                       | CattleSlurryFactors | PigSlurryFactors | BiosolidsCakeFactors

  /** ORGANIC_N_TIMING_FACTORS: composts and paper crumble have no table. */
  function FactorTableOf(m: Material): (r: Option<FactorTable>)
    ensures r.None? <==> m in {GreenCompost, GreenFoodCompost, PaperCrumble}
  {
    match m
    case CattleFym => Some(FymFactors)
    case PigFym => Some(FymFactors)
    case SheepFym => Some(FymFactors)
    case HorseFym => Some(FymFactors)
    case PoultryLitter => Some(PoultryLitterFactors)
    case LayerManure => Some(LayerManureFactors)
    case CattleSlurry => Some(CattleSlurryFactors)
    case PigSlurry => Some(PigSlurryFactors)
    case BiosolidsCake => Some(BiosolidsCakeFactors)
    case GreenCompost => None
    case GreenFoodCompost => None
    case PaperCrumble => None
  }

  /** The factors of one season and one incorporation status, by soil category. */
  datatype SoilPair = SoilPair(sandy: real, mediumHeavy: real)

  function Pick(p: SoilPair, k: SoilCategory): real {
    if k == Sandy then p.sandy else p.mediumHeavy
  }

  /** Surface-applied (not incorporated) factors. */
  function SurfaceFactors(t: FactorTable, s: Season): SoilPair {
    match t
    case FymFactors =>
      (match s case Autumn => SoilPair(0.05, 0.10) case Winter => SoilPair(0.10, 0.10)
               case Spring => SoilPair(0.10, 0.10) case Summer => SoilPair(0.10, 0.10))
    case PoultryLitterFactors =>
      (match s case Autumn => SoilPair(0.10, 0.25) case Winter => SoilPair(0.20, 0.25)
               case Spring => SoilPair(0.30, 0.30) case Summer => SoilPair(0.30, 0.30))
    case LayerManureFactors =>
      (match s case Autumn => SoilPair(0.15, 0.25) case Winter => SoilPair(0.25, 0.25)
               case Spring => SoilPair(0.35, 0.35) case Summer => SoilPair(0.35, 0.35))
    case CattleSlurryFactors =>
      (match s case Autumn => SoilPair(0.05, 0.25) case Winter => SoilPair(0.25, 0.25)
               case Spring => SoilPair(0.35, 0.35) case Summer => SoilPair(0.25, 0.25))
    case PigSlurryFactors =>
      (match s case Autumn => SoilPair(0.10, 0.30) case Winter => SoilPair(0.35, 0.35)
               case Spring => SoilPair(0.50, 0.50) case Summer => SoilPair(0.50, 0.50))
    case BiosolidsCakeFactors =>
      (match s case Autumn => SoilPair(0.10, 0.15) case Winter => SoilPair(0.15, 0.15)
               case Spring => SoilPair(0.15, 0.15) case Summer => SoilPair(0.15, 0.15))
  }

  /** Promptly incorporated factors; summer incorporation has no entry. */
  function IncorporatedFactors(t: FactorTable, s: Season): (r: Option<SoilPair>)
    ensures r.None? <==> s == Summer
  {
    if s == Summer then None
    else Some(match t
      case FymFactors =>
        (match s case Autumn => SoilPair(0.05, 0.10) case Winter => SoilPair(0.10, 0.10)
                 case _ => SoilPair(0.15, 0.15))
      case PoultryLitterFactors =>
        (match s case Autumn => SoilPair(0.10, 0.30) case Winter => SoilPair(0.20, 0.30)
                 case _ => SoilPair(0.40, 0.40))
      case LayerManureFactors =>
        (match s case Autumn => SoilPair(0.15, 0.35) case Winter => SoilPair(0.25, 0.40)
                 case _ => SoilPair(0.50, 0.50))
      case CattleSlurryFactors =>
        (match s case Autumn => SoilPair(0.05, 0.30) case Winter => SoilPair(0.20, 0.30)
                 case _ => SoilPair(0.40, 0.40))
      case PigSlurryFactors =>
        (match s case Autumn => SoilPair(0.10, 0.40) case Winter => SoilPair(0.30, 0.45)
                 case _ => SoilPair(0.60, 0.60))
      case BiosolidsCakeFactors =>
        (match s case Autumn => SoilPair(0.10, 0.15) case Winter => SoilPair(0.15, 0.15)
                 case _ => SoilPair(0.20, 0.20)))
  }

  /** The table entry for (timing, soil category, incorporated), if present:
      every key but the summer-incorporated ones. */
  function Factor(t: FactorTable, s: Season, k: SoilCategory, incorporated: bool): (r: Option<real>)
    ensures r.None? <==> s == Summer && incorporated
  {
    if incorporated then
      match IncorporatedFactors(t, s)
      case None => None
      case Some(p) => Some(Pick(p, k))
    else Some(Pick(SurfaceFactors(t, s), k))
  }

  /** Every factor is a fraction of the total N: more than 0 and at most 0.6. */
  lemma FactorsAreFractions(t: FactorTable, s: Season, k: SoilCategory, incorporated: bool)
    requires Factor(t, s, k, incorporated).Some?
    ensures 0.0 < Factor(t, s, k, incorporated).value <= 0.6
  {
  }

  /** Sandy soils never make more of the nitrogen available than
      medium-heavy soils, at any timing and incorporation. */
  lemma SandyNeverAboveMediumHeavy(t: FactorTable, s: Season, incorporated: bool)
    requires !(s == Summer && incorporated)
    ensures Factor(t, s, Sandy, incorporated).value <= Factor(t, s, MediumHeavy, incorporated).value
  {
  }

  /** Incorporation never lowers the factor, with exactly two exceptions:
      cattle and pig slurry applied in winter on sandy soil. */
  lemma IncorporationLowersOnlyWinterSandySlurry(t: FactorTable, s: Season, k: SoilCategory)
    requires s != Summer
    ensures Factor(t, s, k, true).value < Factor(t, s, k, false).value <==>
      s == Winter && k == Sandy && t in {CattleSlurryFactors, PigSlurryFactors}
  {
  }
}
