/** Phosphate tables (kg P2O5/ha), keyed by (crop, P index) with the index
    clamped to 0..4, where 4 stands for "4 and over". */
module PhosphorusData {
  import opened Outcomes
  import opened Crops
  import opened Rows

  /** The eight cereals, the crops whose potash depends on straw handling. */
  predicate IsCereal(a: ArableCrop) {
    a in {WinterWheatFeed, WinterWheatMilling, SpringWheat, WinterBarley, SpringBarley,
          WinterOats, SpringOats, WinterRye}
  }

  /** PHOSPHORUS_RECOMMENDATIONS: every arable, potato and grassland crop has a row. */
  function GenericPRow(a: ArableCrop): Row5
  {
    match a
    case WinterWheatFeed => [110, 85, 60, 30, 0]
    case WinterWheatMilling => [110, 85, 60, 30, 0]
    case SpringWheat => [110, 85, 60, 30, 0]
    case WinterBarley => [110, 85, 60, 30, 0]
    case SpringBarley => [110, 85, 60, 30, 0]
    case WinterOats => [110, 85, 60, 30, 0]
    case SpringOats => [110, 85, 60, 30, 0]
    case WinterRye => [110, 85, 60, 30, 0]
    case WinterOilseedRape => [100, 75, 50, 25, 0]
    case SpringOilseedRape => [100, 75, 50, 25, 0]
    case Linseed => [80, 55, 35, 15, 0]
    case Peas => [80, 55, 30, 0, 0]
    case FieldBeans => [80, 55, 30, 0, 0]
    case SugarBeet => [120, 95, 65, 35, 0]
    case ForageMaize => [120, 95, 65, 35, 0]
    case PotatoesMaincrop => [250, 200, 150, 50, 0]
    case PotatoesEarly => [200, 150, 100, 35, 0]
    case PotatoesSeed => [200, 150, 100, 35, 0]
    case GrassSilage => [120, 80, 50, 20, 0]
    case GrassHay => [120, 80, 50, 20, 0]
    case GrassGrazed => [80, 50, 30, 0, 0]
    case GrassGrazedOneCut => [100, 65, 40, 10, 0]
  }

  /** PHOSPHORUS_VEG_RECOMMENDATIONS: every vegetable except courgettes
      (top dressing) has a row. */
  function VegPRow(v: VegCrop): (r: Option<Row5>)
    ensures r.None? <==> v == CourgettesTopdress
  {
    match v
    case AsparagusEst => Some([175, 150, 125, 100, 75])
    case Asparagus => Some([75, 75, 50, 50, 25])
    case BrusselsSprouts => Some([200, 150, 100, 50, 0])
    case CabbageStorage => Some([200, 150, 100, 50, 0])
    case CabbageHeadPreDec => Some([200, 150, 100, 50, 0])
    case CabbageHeadPostDec => Some([200, 150, 100, 50, 0])
    case CollardsPreDec => Some([200, 150, 100, 50, 0])
    case CollardsPostDec => Some([200, 150, 100, 50, 0])
    case CauliflowerSummer => Some([200, 150, 100, 50, 0])
    case CauliflowerWinterSeedbed => Some([200, 150, 100, 50, 0])
    case CauliflowerWinterTopdress => Some([200, 150, 100, 50, 0])
    case Calabrese => Some([200, 150, 100, 50, 0])
    case CelerySeedbed => Some([250, 200, 150, 100, 50])
    case PeasMarket => Some([185, 135, 85, 35, 0])
    case BeansBroad => Some([200, 150, 100, 50, 0])
    case BeansDwarf => Some([200, 150, 100, 50, 0])
    case Radish => Some([175, 125, 75, 25, 0])
    case Sweetcorn => Some([175, 125, 75, 25, 0])
    case LettuceWhole => Some([250, 200, 150, 100, 0])
    case LettuceBaby => Some([250, 200, 150, 100, 0])
    case Rocket => Some([250, 200, 150, 100, 0])
    case OnionsBulb => Some([200, 150, 100, 50, 0])
    case OnionsSalad => Some([200, 150, 100, 50, 0])
    case Leeks => Some([200, 150, 100, 50, 0])
    case Beetroot => Some([200, 150, 100, 50, 0])
    case Swedes => Some([200, 150, 100, 50, 0])
    case TurnipsParsnips => Some([200, 150, 100, 50, 0])
    case Carrots => Some([200, 150, 100, 50, 0])
    case Bulbs => Some([200, 150, 100, 50, 0])
    case Coriander => Some([175, 125, 75, 25, 0])
    case MintEst => Some([175, 125, 75, 25, 0])
    case Mint => Some([175, 125, 75, 25, 0])
    case CourgettesSeedbed => Some([175, 125, 75, 25, 0])
    case _ => None
  }

  /** All eight cereals share the row 110/85/60/30/0. */
  lemma CerealsSharePhosphateRow(a: ArableCrop)
    requires IsCereal(a)
    ensures GenericPRow(a) == [110, 85, 60, 30, 0]
  {
  }

  /** Every generic crop needs no phosphate at index 4 and over. */
  lemma GenericPhosphateZeroAtFour(a: ArableCrop)
    ensures GenericPRow(a)[4] == 0
  {
  }
}
