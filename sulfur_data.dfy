/** Sulfur table (kg SO3/ha for responsive situations), keyed by crop. */
module SulfurData {
  import opened Outcomes
  import opened Crops

  /** SULFUR_RECOMMENDATIONS: every arable and vegetable crop, and no fruit crop. */
  function SulfurRate(c: Crop): (r: Option<int>)
    ensures r.Some? <==> !c.Fruit?
    ensures r.Some? ==> 0 <= r.value <= 75
  {
    match c
    case Arable(WinterWheatFeed) | Arable(WinterBarley) | Arable(PotatoesEarly) | Arable(GrassGrazed) | Arable(GrassHay) => Some(30)
    case Arable(WinterWheatMilling) | Arable(GrassSilage) => Some(40)
    case Arable(SpringWheat) | Arable(SpringBarley) | Arable(WinterOats) | Arable(WinterRye) | Arable(Linseed) | Arable(ForageMaize) | Arable(PotatoesSeed) | Veg(AsparagusEst) | Veg(Asparagus) | Veg(CelerySeedbed) | Veg(Radish) | Veg(Sweetcorn) | Veg(LettuceWhole) | Veg(LettuceBaby) | Veg(Rocket) | Veg(OnionsBulb) | Veg(OnionsSalad) | Veg(Leeks) | Veg(Beetroot) | Veg(Carrots) | Veg(Bulbs) | Veg(Coriander) | Veg(MintEst) | Veg(Mint) | Veg(CourgettesSeedbed) => Some(25)
    case Arable(SpringOats) => Some(20)
    case Arable(WinterOilseedRape) => Some(75)
    case Arable(SpringOilseedRape) | Veg(BrusselsSprouts) | Veg(CabbageStorage) | Veg(CabbageHeadPreDec) | Veg(CabbageHeadPostDec) | Veg(CollardsPreDec) | Veg(CollardsPostDec) | Veg(CauliflowerSummer) | Veg(CauliflowerWinterSeedbed) | Veg(CauliflowerWinterTopdress) | Veg(Calabrese) | Veg(Swedes) | Veg(TurnipsParsnips) => Some(50)
    case Arable(Peas) | Arable(FieldBeans) | Veg(CourgettesTopdress) | Veg(PeasMarket) | Veg(BeansBroad) | Veg(BeansDwarf) => Some(0)
    case Arable(SugarBeet) | Arable(PotatoesMaincrop) | Arable(GrassGrazedOneCut) => Some(35)
    case Fruit(_) => None
  }

  /** The vegetable brassicas, with swedes and turnips. */
  predicate IsBrassica(v: VegCrop) {
    v in {BrusselsSprouts, CabbageStorage, CabbageHeadPreDec, CabbageHeadPostDec,
          CollardsPreDec, CollardsPostDec, CauliflowerSummer, CauliflowerWinterSeedbed,
          CauliflowerWinterTopdress, Calabrese, Swedes, TurnipsParsnips}
  }

  /** Winter oilseed rape alone gets the maximum rate of 75. */
  lemma OilseedRapeHasTheMaximum(c: Crop)
    ensures SulfurRate(c) == Some(75) <==> c == Arable(WinterOilseedRape)
  {
  }

  /** Brassicas get 50; the pulses (market peas, broad and dwarf beans) and
      courgettes for top dressing get 0; every other vegetable gets 25. */
  lemma VegetableSulfurGroups(v: VegCrop)
    ensures SulfurRate(Veg(v)) == Some(
      if IsBrassica(v) then 50
      else if v in {PeasMarket, BeansBroad, BeansDwarf, CourgettesTopdress} then 0
      else 25)
  {
  }

  /** The arable nitrogen-fixing crops get no sulfur. */
  lemma PulsesGetNoSulfur()
    ensures SulfurRate(Arable(Peas)) == Some(0) && SulfurRate(Arable(FieldBeans)) == Some(0)
  {
  }
}
