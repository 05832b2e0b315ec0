/** YIELD_ADJUSTMENTS: per-crop yield records (t/ha baseline, kg of N, P2O5
    and K2O per tonne above or below it, and an optional yield cap). The
    arable records follow RB209 Table 4.12 and Section 5; the vegetable
    records derive N per tonne from Table 6.27 uptake at 60 % recovery and
    P and K per tonne from the Table 6.8 offtakes. */
module YieldData {
  import opened Outcomes
  import opened Crops

  datatype YieldRecord = YieldRecord(
    baseline: real, nPerTonne: real, pPerTonne: real, kPerTonne: real, maxYield: Option<real>)

  /** The nutrient a yield adjustment is applied to. */
  datatype Nutrient = NitrogenN | PhosphateP | PotashK

  /** The per-tonne coefficient of a record for a nutrient. */
  function PerTonne(rec: YieldRecord, nut: Nutrient): real {
    match nut
    case NitrogenN => rec.nPerTonne
    case PhosphateP => rec.pPerTonne
    case PotashK => rec.kPerTonne
  }

  function YieldRecordOf(c: Crop): Option<YieldRecord> {
    match c
    case Arable(WinterWheatFeed) => Some(YieldRecord(8.0, 20.0, 7.0, 10.5, Some(13.0)))
    case Arable(WinterWheatMilling) => Some(YieldRecord(8.0, 20.0, 7.0, 10.5, Some(13.0)))
    case Arable(WinterOats) => Some(YieldRecord(6.0, 20.0, 7.0, 12.0, None))
    case Arable(PotatoesMaincrop) => Some(YieldRecord(50.0, 0.0, 0.0, 5.8, None))
    case Arable(PotatoesEarly) => Some(YieldRecord(30.0, 0.0, 0.0, 5.8, None))
    case Veg(BrusselsSprouts) => Some(YieldRecord(20.3, 30.2, 2.6, 6.3, None))
    case Veg(CabbageStorage) => Some(YieldRecord(110.0, 5.7, 0.9, 3.6, None))
    case Veg(CabbageHeadPreDec) => Some(YieldRecord(60.0, 7.5, 0.9, 3.6, None))
    case Veg(CabbageHeadPostDec) => Some(YieldRecord(53.0, 6.4, 0.9, 3.6, None))
    case Veg(CollardsPreDec) => Some(YieldRecord(20.0, 21.7, 0.9, 3.6, None))
    case Veg(CollardsPostDec) => Some(YieldRecord(30.0, 16.7, 0.9, 3.6, None))
    case Veg(CauliflowerSummer) => Some(YieldRecord(30.6, 14.1, 1.4, 4.8, None))
    case Veg(Calabrese) => Some(YieldRecord(16.3, 23.1, 1.4, 4.8, None))
    case Veg(LettuceWhole) => Some(YieldRecord(45.5, 6.0, 0.0, 0.0, None))
    case Veg(Radish) => Some(YieldRecord(50.0, 3.3, 0.0, 0.0, None))
    case Veg(OnionsBulb) => Some(YieldRecord(60.5, 4.1, 0.7, 1.8, None))
    case Veg(OnionsSalad) => Some(YieldRecord(30.0, 6.3, 0.7, 1.8, None))
    case Veg(Leeks) => Some(YieldRecord(47.0, 9.9, 0.0, 0.0, None))
    case Veg(Beetroot) => Some(YieldRecord(60.0, 7.5, 1.0, 4.5, None))
    case Veg(Swedes) => Some(YieldRecord(84.4, 4.4, 0.7, 2.4, None))
    case Veg(TurnipsParsnips) => Some(YieldRecord(48.0, 8.4, 0.0, 0.0, None))
    case Veg(Carrots) => Some(YieldRecord(150.0, 2.0, 0.7, 3.0, None))
    case Veg(Coriander) => Some(YieldRecord(48.0, 4.5, 0.8, 5.5, None))
    case Veg(Mint) => Some(YieldRecord(25.0, 10.2, 1.0, 3.9, None))
    case _ => None
  }

  /** A record is usable when its baseline is positive, its coefficients are
      not negative and any cap lies above the baseline. */
  predicate WellFormedRecord(rec: YieldRecord) {
    && rec.baseline > 0.0
    && rec.nPerTonne >= 0.0 && rec.pPerTonne >= 0.0 && rec.kPerTonne >= 0.0
    && (rec.maxYield.Some? ==> rec.maxYield.value > rec.baseline)
  }

  /** Every record is well formed; only the two winter wheats carry a cap,
      and potatoes get no nitrogen adjustment. */
  lemma YieldTableShape(c: Crop)
    requires YieldRecordOf(c).Some?
    ensures WellFormedRecord(YieldRecordOf(c).value)
    ensures YieldRecordOf(c).value.maxYield.Some? <==> c == Arable(WinterWheatFeed) || c == Arable(WinterWheatMilling)
    ensures c == Arable(PotatoesMaincrop) || c == Arable(PotatoesEarly) ==> YieldRecordOf(c).value.nPerTonne == 0.0
  {
  }

  /** The crops Table 6.27 excludes for want of data have no record, nor do
      linseed or spring barley. */
  lemma CropsWithoutYieldData()
    ensures YieldRecordOf(Arable(Linseed)).None? && YieldRecordOf(Arable(SpringBarley)).None?
    ensures YieldRecordOf(Veg(Asparagus)).None? && YieldRecordOf(Veg(CelerySeedbed)).None?
    ensures YieldRecordOf(Veg(PeasMarket)).None? && YieldRecordOf(Veg(BeansBroad)).None?
    ensures YieldRecordOf(Veg(Sweetcorn)).None? && YieldRecordOf(Veg(CourgettesSeedbed)).None?
    ensures YieldRecordOf(Veg(Bulbs)).None?
  {
  }
}
