/** BER_ADJUSTMENTS and CROP_BER_GROUP: the change to cereal nitrogen for a
    break-even ratio (fertiliser N price over grain price) other than the
    default 5.0, from RB209 Tables 4.25 (wheat) and 4.26 (barley). */
module BerData {
  import opened Outcomes
  import opened Crops

  datatype BerGroup = WheatGroup | BarleyGroup

  /** CROP_BER_GROUP. */
  function BerGroupOf(c: Crop): (g: Option<BerGroup>)
    ensures g == Some(WheatGroup) <==> c in {Arable(WinterWheatFeed), Arable(WinterWheatMilling), Arable(SpringWheat)}
    ensures g == Some(BarleyGroup) <==> c in {Arable(WinterBarley), Arable(SpringBarley)}
  {
    match c
    case Arable(WinterWheatFeed) | Arable(WinterWheatMilling) | Arable(SpringWheat) => Some(WheatGroup)
    case Arable(WinterBarley) | Arable(SpringBarley) => Some(BarleyGroup)
    case _ => None
  }

  /** The (ratio, kg N/ha change) points of a group, in ascending ratio. */
  function BerPoints(g: BerGroup): seq<(real, real)> {
    match g
    case WheatGroup =>
      [(2.0, 30.0), (3.0, 20.0), (4.0, 10.0), (5.0, 0.0), (6.0, -10.0), (7.0, -15.0), (8.0, -20.0), (10.0, -30.0)]
    case BarleyGroup =>
      [(2.0, 25.0), (3.0, 15.0), (4.0, 10.0), (5.0, 0.0), (6.0, -10.0), (7.0, -15.0), (8.0, -20.0), (10.0, -25.0)]
  }

  /** Ratios strictly ascend along the points. */
  predicate AscendingRatios(pts: seq<(real, real)>) {
    forall i | 0 <= i < |pts| - 1 :: pts[i].0 < pts[i + 1].0
  }

  /** Changes strictly descend along the points. */
  predicate DescendingChanges(pts: seq<(real, real)>) {
    forall i | 0 <= i < |pts| - 1 :: pts[i].1 > pts[i + 1].1
  }

  /** Both groups have points at ratios 2, 3, 4, 5, 6, 7, 8 and 10; the
      default ratio 5 changes nothing; the change falls strictly as the
      ratio rises. */
  lemma BerTableShape(g: BerGroup)
    ensures |BerPoints(g)| == 8
    ensures forall i | 0 <= i < 8 :: BerPoints(g)[i].0 == [2.0, 3.0, 4.0, 5.0, 6.0, 7.0, 8.0, 10.0][i]
    ensures BerPoints(g)[3] == (5.0, 0.0)
    ensures AscendingRatios(BerPoints(g)) && DescendingChanges(BerPoints(g))
  {
  }
}
