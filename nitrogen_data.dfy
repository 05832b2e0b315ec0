/** Nitrogen tables: the generic arable and grassland recommendations
    (RB209 Sections 3, 4 and 5), the vegetable recommendations (Section 6),
    the soil-specific winter-wheat table (Table 4.17) and the NVZ N-max limits.

    The recommendation tables are keyed by (crop, SNS index); a crop's row is
    its entries in index order. Rows have type `Row7`, so every listed crop has
    exactly the keys SNS 0..6 and its row is descending. Values are kg N/ha. */
module NitrogenData {
  import opened Outcomes
  import opened Crops
  import opened Rows

  /** NITROGEN_RECOMMENDATIONS: every arable, potato and grassland crop has a
      row; no vegetable or fruit crop has one. */
  function GenericNRow(a: ArableCrop): Row7
  {
    match a
    case WinterWheatFeed => [220, 180, 150, 120, 120, 40, 0]
    case WinterWheatMilling => [260, 220, 190, 160, 120, 80, 40]
    case SpringWheat => [160, 130, 100, 80, 50, 20, 0]
    case WinterBarley => [180, 155, 130, 100, 65, 30, 0]
    case SpringBarley => [160, 120, 100, 80, 50, 20, 0]
    case WinterOats => [170, 140, 110, 80, 50, 20, 0]
    case SpringOats => [130, 100, 80, 60, 30, 0, 0]
    case WinterRye => [170, 140, 110, 80, 50, 20, 0]
    case WinterOilseedRape => [220, 190, 160, 130, 80, 30, 0]
    case SpringOilseedRape => [150, 120, 100, 80, 50, 20, 0]
    case Linseed => [100, 70, 40, 20, 0, 0, 0]
    case Peas => [0, 0, 0, 0, 0, 0, 0]
    case FieldBeans => [0, 0, 0, 0, 0, 0, 0]
    case SugarBeet => [120, 120, 80, 50, 0, 0, 0]
    case ForageMaize => [150, 120, 80, 50, 0, 0, 0]
    case PotatoesMaincrop => [270, 220, 180, 140, 100, 60, 0]
    case PotatoesEarly => [200, 160, 130, 100, 60, 30, 0]
    case PotatoesSeed => [160, 130, 100, 80, 50, 20, 0]
    case GrassGrazed => [250, 220, 180, 150, 100, 60, 0]
    case GrassSilage => [320, 280, 240, 200, 160, 100, 40]
    case GrassHay => [200, 170, 140, 110, 70, 30, 0]
    case GrassGrazedOneCut => [280, 240, 200, 170, 130, 80, 20]
  }

  /** NITROGEN_VEG_RECOMMENDATIONS: every vegetable crop has a row. */
  function VegNRow(v: VegCrop): Row7
  {
    match v
    case AsparagusEst => [150, 150, 150, 90, 20, 0, 0]
    case Asparagus => [120, 120, 120, 120, 120, 120, 120]
    case BrusselsSprouts => [330, 300, 270, 230, 180, 80, 0]
    case CabbageStorage => [340, 310, 280, 240, 190, 90, 0]
    case CabbageHeadPreDec => [325, 290, 260, 220, 170, 70, 0]
    case CabbageHeadPostDec => [240, 210, 180, 140, 90, 0, 0]
    case CollardsPreDec => [210, 190, 180, 160, 140, 90, 0]
    case CollardsPostDec => [310, 290, 270, 240, 210, 140, 90]
    case CauliflowerSummer => [290, 260, 235, 210, 170, 80, 0]
    case CauliflowerWinterSeedbed => [100, 100, 100, 100, 60, 0, 0]
    case CauliflowerWinterTopdress => [190, 160, 135, 110, 100, 80, 0]
    case Calabrese => [235, 200, 165, 135, 80, 0, 0]
    case CelerySeedbed => [75, 75, 75, 75, 0, 0, 0]
    case PeasMarket => [0, 0, 0, 0, 0, 0, 0]
    case BeansBroad => [0, 0, 0, 0, 0, 0, 0]
    case BeansDwarf => [180, 150, 120, 80, 30, 0, 0]
    case Radish => [100, 90, 80, 65, 50, 20, 0]
    case Sweetcorn => [220, 175, 125, 75, 0, 0, 0]
    case LettuceWhole => [200, 180, 160, 150, 125, 75, 30]
    case LettuceBaby => [60, 50, 40, 30, 10, 0, 0]
    case Rocket => [125, 115, 100, 90, 75, 40, 0]
    case OnionsBulb => [160, 130, 110, 90, 60, 0, 0]
    case OnionsSalad => [130, 120, 110, 100, 80, 50, 20]
    case Leeks => [200, 190, 170, 160, 130, 80, 40]
    case Beetroot => [290, 260, 240, 220, 190, 120, 60]
    case Swedes => [135, 100, 70, 30, 0, 0, 0]
    case TurnipsParsnips => [170, 130, 100, 70, 20, 0, 0]
    case Carrots => [100, 70, 40, 0, 0, 0, 0]
    case Bulbs => [125, 100, 50, 0, 0, 0, 0]
    case Coriander => [140, 125, 115, 105, 90, 55, 30]
    case MintEst => [180, 170, 160, 150, 130, 100, 70]
    case Mint => [180, 170, 160, 150, 130, 100, 70]
    case CourgettesSeedbed => [100, 100, 100, 40, 0, 0, 0]
    case CourgettesTopdress => [75, 75, 75, 75, 0, 0, 0]
  }

  /** NITROGEN_SOIL_SPECIFIC (Table 4.17): only winter wheat (feed) has entries;
      light soil has its own row, medium and heavy share one, and organic soil
      is tabulated for SNS 3..6 only. */
  function SoilSpecificN(c: Crop, sns: int, soil: SoilType): (r: Option<int>)
    ensures r.Some? <==> c == Arable(WinterWheatFeed) && 0 <= sns <= 6 && !(soil == OrganicSoil && sns < 3)
    ensures r.Some? ==> r.value >= 20
  {
    if c != Arable(WinterWheatFeed) then None
    else if soil == OrganicSoil then At(Some(SoilSpecificRow(soil)), sns - 3)
    else At(Some(SoilSpecificRow(soil)), sns)
  }

  /** The winter-wheat soil-specific rows; the organic row starts at SNS 3. */
  function SoilSpecificRow(soil: SoilType): (r: seq<int>)
    ensures |r| == (if soil == OrganicSoil then 4 else 7) && Descending(r)
    ensures r[|r| - 1] == 20
  {
    match soil
    case LightSoil => [180, 150, 120, 90, 60, 30, 20]
    case MediumSoil | HeavySoil => [250, 220, 190, 160, 120, 60, 20]
    case OrganicSoil =>
      var r := [120, 80, 60, 20];
      assert StepsDownFrom(r, 2) && StepsDownFrom(r, 1) && StepsDownFrom(r, 0);
      StepsDownIsNonIncreasing(r);
      r
  }

  /** NVZ_NMAX: the whole-farm N-max limit of a crop's group, for the crops that have one. */
  function NvzLimit(c: Crop): (r: Option<int>)
    ensures r.Some? ==> !c.Fruit? && r.value >= 0
  {
    match c
    case Arable(WinterWheatFeed) | Arable(WinterOats) | Arable(SpringOats) | Arable(WinterRye) => Some(220)
    case Arable(WinterWheatMilling) => Some(260)
    case Arable(SpringWheat) | Arable(WinterBarley) | Veg(Asparagus) | Veg(AsparagusEst) | Veg(Carrots) | Veg(Radish) | Veg(Swedes) => Some(180)
    case Arable(SpringBarley) | Arable(ForageMaize) => Some(150)
    case Arable(WinterOilseedRape) | Arable(SpringOilseedRape) => Some(250)
    case Arable(GrassGrazed) | Arable(GrassHay) | Arable(GrassGrazedOneCut) => Some(300)
    case Arable(GrassSilage) => Some(340)
    case Arable(SugarBeet) => Some(120)
    case Arable(FieldBeans) | Arable(Peas) | Veg(PeasMarket) | Veg(BeansBroad) => Some(0)
    case Arable(PotatoesMaincrop) | Arable(PotatoesEarly) | Arable(PotatoesSeed) => Some(270)
    case Veg(CelerySeedbed) | Veg(CourgettesSeedbed) | Veg(CourgettesTopdress) | Veg(BeansDwarf) | Veg(LettuceWhole) | Veg(LettuceBaby) | Veg(OnionsBulb) | Veg(OnionsSalad) | Veg(TurnipsParsnips) | Veg(Sweetcorn) => Some(280)
    case Veg(Beetroot) | Veg(BrusselsSprouts) | Veg(CabbageStorage) | Veg(CabbageHeadPreDec) | Veg(CabbageHeadPostDec) | Veg(CollardsPreDec) | Veg(CollardsPostDec) | Veg(Calabrese) | Veg(CauliflowerSummer) | Veg(CauliflowerWinterSeedbed) | Veg(CauliflowerWinterTopdress) | Veg(Leeks) => Some(370)
    case _ => None
  }

  /** The nitrogen-fixing crops: peas and field beans, and the vegetable
      market-pick peas and broad beans. */
  predicate IsNFixing(c: Crop) {
    c == Arable(Peas) || c == Arable(FieldBeans) || c == Veg(PeasMarket) || c == Veg(BeansBroad)
  }

  /** The N-max warning that goes with a recommendation of `n` kg N/ha, as a
      pair (recommendation, limit): present exactly when the crop has a limit
      and `n` is strictly above it. This note is a reconstruction: the engine
      shown here does not issue it. */
  function NvzWarning(c: Crop, n: int): (w: Option<(int, int)>)
    ensures w.Some? <==> NvzLimit(c).Some? && n > NvzLimit(c).value
    ensures w.Some? ==> w.value == (n, NvzLimit(c).value)
  {
    match NvzLimit(c)
    case Some(limit) => if n > limit then Some((n, limit)) else None
    case None => None
  }

  /** On every soil, the soil-specific recommendation never rises with the SNS index. */
  lemma SoilSpecificNonIncreasing(soil: SoilType, i: int, j: int)
    requires i <= j
    requires SoilSpecificN(Arable(WinterWheatFeed), i, soil).Some?
    requires SoilSpecificN(Arable(WinterWheatFeed), j, soil).Some?
    ensures SoilSpecificN(Arable(WinterWheatFeed), i, soil).value >= SoilSpecificN(Arable(WinterWheatFeed), j, soil).value
  {
    var r := SoilSpecificRow(soil);
    var k := if soil == OrganicSoil then 3 else 0;
    assert SoilSpecificN(Arable(WinterWheatFeed), i, soil).value == r[i - k];
    assert SoilSpecificN(Arable(WinterWheatFeed), j, soil).value == r[j - k];
  }

  /** Nitrogen-fixing crops need no fertiliser nitrogen at any SNS index, and
      their NVZ limit is 0. */
  lemma NFixingCropsNeedNoNitrogen(c: Crop, i: int)
    requires IsNFixing(c) && 0 <= i <= 6
    ensures c.Arable? ==> GenericNRow(c.arable)[i] == 0
    ensures c.Veg? ==> VegNRow(c.veg)[i] == 0
    ensures NvzLimit(c) == Some(0)
  {
  }

  /** Milling wheat never gets less nitrogen than feed wheat; it gets 40 kg
      more at every SNS index except 4, where both are 120. */
  lemma MillingAtLeastFeed(i: int)
    requires 0 <= i <= 6
    ensures GenericNRow(WinterWheatMilling)[i] >= GenericNRow(WinterWheatFeed)[i]
    ensures i != 4 <==> GenericNRow(WinterWheatMilling)[i] == GenericNRow(WinterWheatFeed)[i] + 40
  {
  }

  /** Which crops have no NVZ limit: linseed among the generic crops, rocket,
      bulbs, coriander and both mints among the vegetables, and all fruit. */
  lemma NvzLimitCoverage(c: Crop)
    ensures c.Arable? ==> (NvzLimit(c).None? <==> c.arable == Linseed)
    ensures c.Veg? ==> (NvzLimit(c).None? <==> c.veg in {Rocket, Bulbs, Coriander, MintEst, Mint})
    ensures c.Fruit? ==> NvzLimit(c).None?
  {
  }

  /** The N-max examples: feed wheat at its limit of 220 gets no warning, 250
      (the medium-soil SNS 0 value) does, and linseed never does. */
  lemma NvzWarningExamples(n: int)
    ensures NvzWarning(Arable(WinterWheatFeed), 220).None?
    ensures NvzWarning(Arable(WinterWheatFeed), 250) == Some((250, 220))
    ensures NvzWarning(Arable(Linseed), n).None?
    ensures NvzWarning(Arable(SpringBarley), GenericNRow(SpringBarley)[0]) == Some((160, 150))
  {
  }
}
