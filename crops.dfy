/** Identities the engine works over: crops, soil types, rainfall classes and
    nitrogen-residue categories.

    Crop slugs such as "winter-wheat-feed" are written as constructors such
    as `Arable(WinterWheatFeed)`; the enumeration holds every slug that a
    data table uses. The crop catalogue (which crops exist, their display name,
    whether they have a straw option, their advisory note) lives in a module
    that is not part of this model, so it is a parameter `Catalogue` here. */
module Crops {
  import opened Outcomes

  /** A crop slug. The three groups follow the slug prefixes: bare slugs are
      arable crops, potatoes and grassland (RB209 Sections 3, 4 and 5),
      "veg-" slugs are vegetables (Section 6) and "fruit-" slugs, with
      "hops-preplant", are fruit, vines and hops (Section 7). */
  datatype Crop = Arable(arable: ArableCrop) | Veg(veg: VegCrop) | Fruit(fruit: FruitCrop)

  datatype ArableCrop =
    | WinterWheatFeed | WinterWheatMilling | SpringWheat | WinterBarley | SpringBarley
    | WinterOats | SpringOats | WinterRye | WinterOilseedRape | SpringOilseedRape
    | Linseed | Peas | FieldBeans | SugarBeet | ForageMaize
    | PotatoesMaincrop | PotatoesEarly | PotatoesSeed
    | GrassGrazed | GrassSilage | GrassHay | GrassGrazedOneCut

  /** The vegetable crops; `Asparagus` is the slug "veg-asparagus". */
  datatype VegCrop =
    | AsparagusEst | Asparagus | BrusselsSprouts | CabbageStorage
    | CabbageHeadPreDec | CabbageHeadPostDec | CollardsPreDec | CollardsPostDec
    | CauliflowerSummer | CauliflowerWinterSeedbed | CauliflowerWinterTopdress
    | Calabrese | CelerySeedbed | PeasMarket | BeansBroad | BeansDwarf
    | Radish | Sweetcorn | LettuceWhole | LettuceBaby | Rocket
    | OnionsBulb | OnionsSalad | Leeks | Beetroot | Swedes
    | TurnipsParsnips | Carrots | Bulbs | Coriander | MintEst | Mint
    | CourgettesSeedbed | CourgettesTopdress

  /** The crops of Section 7; `Preplant` is "fruit-preplant", `HopsPreplant`
      is "hops-preplant" and `Hops` is "fruit-hops". */
  datatype FruitCrop =
    | Preplant | HopsPreplant
    | DessertApple | CulinaryApple | Pear | Cherry | Plum
    | Blackcurrant | Redcurrant | Gooseberry | Raspberry
    | Loganberry | Tayberry | Blackberry | Vine
    | StrawberryMain | StrawberryEver | Hops

  predicate IsVegetable(c: Crop) {
    c.Veg?
  }

  predicate IsFruit(c: Crop) {
    c.Fruit?
  }

  /** One entry of the crop catalogue: display name, whether potash depends on
      straw being removed or incorporated, and an advisory note ("" for none). */
  datatype CropInfo = CropInfo(name: string, hasStrawOption: bool, notes: string)

  /** The crop catalogue: a crop is known exactly when it is a key. */
  type Catalogue = map<Crop, CropInfo>

  // ── Soil type ───────────────────────────────────────────────────────

  datatype SoilType = LightSoil | MediumSoil | HeavySoil | OrganicSoil

  function SoilTypeName(t: SoilType): string {
    match t
    case LightSoil => "light"
    case MediumSoil => "medium"
    case HeavySoil => "heavy"
    case OrganicSoil => "organic"
  }

  /** Conversion of a soil-type string to the enumeration; None for any other string. */
  function ParseSoilType(s: string): (r: Option<SoilType>)
    ensures r.Some? ==> SoilTypeName(r.value) == s
  {
    if s == "light" then Some(LightSoil)
    else if s == "medium" then Some(MediumSoil)
    else if s == "heavy" then Some(HeavySoil)
    else if s == "organic" then Some(OrganicSoil)
    else None
  }

  /** A string is accepted exactly when it is the name of a soil type. */
  lemma ParseSoilTypeExact(s: string, t: SoilType)
    ensures ParseSoilType(s) == Some(t) <==> s == SoilTypeName(t)
  {
  }

  // ── Rainfall ────────────────────────────────────────────────────────

  datatype Rainfall = LowRainfall | MediumRainfall | HighRainfall

  function RainfallName(w: Rainfall): string {
    match w
    case LowRainfall => "low"
    case MediumRainfall => "medium"
    case HighRainfall => "high"
  }

  function ParseRainfall(s: string): (r: Option<Rainfall>)
    ensures r.Some? ==> RainfallName(r.value) == s
  {
    if s == "low" then Some(LowRainfall)
    else if s == "medium" then Some(MediumRainfall)
    else if s == "high" then Some(HighRainfall)
    else None
  }

  lemma ParseRainfallExact(s: string, w: Rainfall)
    ensures ParseRainfall(s) == Some(w) <==> s == RainfallName(w)
  {
  }

  // ── Nitrogen residue left by the previous crop ──────────────────────

  datatype NResidue = LowResidue | MediumResidue | HighResidue | VeryHighResidue

  /** Position of a category on the low to very-high scale. */
  function ResidueRank(r: NResidue): (k: nat)
    ensures k <= 3
  {
    match r
    case LowResidue => 0
    case MediumResidue => 1
    case HighResidue => 2
    case VeryHighResidue => 3
  }

  /** The mapping from previous-crop name to residue category; a name is a valid
      previous crop exactly when it is a key. */
  type ResidueTable = map<string, NResidue>
}
