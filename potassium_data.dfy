/** Potash tables (kg K2O/ha), keyed by (crop, K index) with the index
    clamped to 0..4: the cereal tables for straw removed and straw
    incorporated, the table of the other arable crops, the vegetable table and
    the vegetable override for the upper half of K index 2 ("2+"). */
module PotassiumData {
  import opened Outcomes
  import opened Crops
  import opened Rows
  import opened PhosphorusData

  /** POTASSIUM_STRAW_REMOVED: the same row for each of the eight cereals. */
  function StrawRemovedRow(a: ArableCrop): (r: Option<Row5>)
    ensures r.Some? <==> IsCereal(a)
  {
    if IsCereal(a) then Some([105, 75, 55, 0, 0]) else None
  }

  /** POTASSIUM_STRAW_INCORPORATED: the same row for each of the eight cereals. */
  function StrawIncorporatedRow(a: ArableCrop): (r: Option<Row5>)
    ensures r.Some? <==> IsCereal(a)
  {
    if IsCereal(a) then Some([65, 40, 25, 0, 0]) else None
  }

  /** POTASSIUM_RECOMMENDATIONS: every arable crop except the cereals. */
  function GenericKRow(a: ArableCrop): (r: Option<Row5>)
    ensures r.Some? <==> !IsCereal(a)
  {
    match a
    case WinterOilseedRape => Some([95, 65, 45, 0, 0])
    case SpringOilseedRape => Some([95, 65, 45, 0, 0])
    case Linseed => Some([75, 50, 35, 0, 0])
    case Peas => Some([75, 50, 35, 0, 0])
    case FieldBeans => Some([75, 50, 35, 0, 0])
    case SugarBeet => Some([175, 130, 95, 0, 0])
    case ForageMaize => Some([175, 130, 95, 0, 0])
    case PotatoesMaincrop => Some([300, 240, 180, 0, 0])
    case PotatoesEarly => Some([250, 200, 150, 0, 0])
    case PotatoesSeed => Some([250, 200, 150, 0, 0])
    case GrassSilage => Some([150, 100, 60, 0, 0])
    case GrassHay => Some([120, 80, 50, 0, 0])
    case GrassGrazed => Some([60, 30, 0, 0, 0])
    case GrassGrazedOneCut => Some([100, 60, 30, 0, 0])
    case _ => None
  }

  /** POTASSIUM_VEG_RECOMMENDATIONS: every vegetable except courgettes (top dressing). */
  function VegKRow(v: VegCrop): (r: Option<Row5>)
    ensures r.None? <==> v == CourgettesTopdress
  {
    match v
    case AsparagusEst => Some([250, 225, 200, 150, 125])
    case Asparagus => Some([100, 50, 50, 50, 0])
    case BrusselsSprouts => Some([300, 250, 200, 60, 0])
    case CabbageStorage => Some([300, 250, 200, 60, 0])
    case CabbageHeadPreDec => Some([300, 250, 200, 60, 0])
    case CabbageHeadPostDec => Some([300, 250, 200, 60, 0])
    case CollardsPreDec => Some([300, 250, 200, 60, 0])
    case CollardsPostDec => Some([300, 250, 200, 60, 0])
    case CauliflowerSummer => Some([275, 225, 175, 35, 0])
    case CauliflowerWinterSeedbed => Some([275, 225, 175, 35, 0])
    case CauliflowerWinterTopdress => Some([275, 225, 175, 35, 0])
    case Calabrese => Some([275, 225, 175, 35, 0])
    case CelerySeedbed => Some([450, 400, 350, 210, 50])
    case PeasMarket => Some([190, 140, 90, 0, 0])
    case BeansBroad => Some([200, 150, 100, 0, 0])
    case BeansDwarf => Some([200, 150, 100, 0, 0])
    case Radish => Some([250, 200, 150, 0, 0])
    case Sweetcorn => Some([250, 200, 150, 0, 0])
    case LettuceWhole => Some([250, 200, 150, 0, 0])
    case LettuceBaby => Some([250, 200, 150, 0, 0])
    case Rocket => Some([250, 200, 150, 0, 0])
    case OnionsBulb => Some([275, 225, 175, 35, 0])
    case OnionsSalad => Some([275, 225, 175, 35, 0])
    case Leeks => Some([275, 225, 175, 35, 0])
    case Beetroot => Some([300, 250, 200, 60, 0])
    case Swedes => Some([300, 250, 200, 60, 0])
    case TurnipsParsnips => Some([300, 250, 200, 60, 0])
    case Carrots => Some([275, 225, 175, 35, 0])
    case Bulbs => Some([300, 250, 200, 60, 0])
    case Coriander => Some([315, 265, 215, 75, 0])
    case MintEst => Some([200, 150, 100, 0, 0])
    case Mint => Some([280, 230, 180, 40, 0])
    case CourgettesSeedbed => Some([250, 200, 150, 0, 0])
    case _ => None
  }

  /** POTASSIUM_VEG_K2_UPPER: the potash for the upper half of K index 2, for
      the vegetables whose RB209 table splits that index. */
  function K2Upper(v: VegCrop): (r: Option<int>)
    ensures r.None? <==> v in {AsparagusEst, Asparagus, CourgettesTopdress}
  {
    match v
    case BrusselsSprouts | CabbageStorage | CabbageHeadPreDec | CabbageHeadPostDec | CollardsPreDec | CollardsPostDec | Beetroot | Swedes | TurnipsParsnips | Bulbs => Some(150)
    case CauliflowerSummer | CauliflowerWinterSeedbed | CauliflowerWinterTopdress | Calabrese | OnionsBulb | OnionsSalad | Leeks | Carrots => Some(125)
    case CelerySeedbed => Some(300)
    case PeasMarket => Some(40)
    case BeansBroad | BeansDwarf | MintEst => Some(50)
    case Radish | Sweetcorn | LettuceWhole | LettuceBaby | Rocket | CourgettesSeedbed => Some(100)
    case Coriander => Some(165)
    case Mint => Some(130)
    case _ => None
  }

  /** With straw removed a cereal never needs less potash than with straw
      incorporated. */
  lemma StrawRemovedAtLeastIncorporated(a: ArableCrop, i: int)
    requires IsCereal(a) && 0 <= i <= 4
    ensures StrawRemovedRow(a).value[i] >= StrawIncorporatedRow(a).value[i]
    ensures i <= 2 ==> StrawRemovedRow(a).value[i] > StrawIncorporatedRow(a).value[i]
  {
  }

  /** The 2+ value is strictly below the tabulated index-2 (2-) value of the
      same crop, which always exists. */
  lemma K2UpperBelowK2Lower(v: VegCrop)
    requires K2Upper(v).Some?
    ensures VegKRow(v).Some? && K2Upper(v).value < VegKRow(v).value[2]
  {
    match v
    case BrusselsSprouts => case CabbageStorage => case CabbageHeadPreDec => case CabbageHeadPostDec =>
    case CollardsPreDec => case CollardsPostDec => case CauliflowerSummer => case CauliflowerWinterSeedbed =>
    case CauliflowerWinterTopdress => case Calabrese => case CelerySeedbed => case PeasMarket =>
    case BeansBroad => case BeansDwarf => case Radish => case Sweetcorn => case LettuceWhole =>
    case LettuceBaby => case Rocket => case OnionsBulb => case OnionsSalad => case Leeks =>
    case Beetroot => case Swedes => case TurnipsParsnips => case Carrots => case Bulbs =>
    case Coriander => case MintEst => case Mint => case CourgettesSeedbed =>
  }
}
