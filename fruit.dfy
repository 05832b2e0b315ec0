/** The fruit, vine and hop lookups, reconstructed from the Section 7 tables
    and the behaviour their tests pin down: nitrogen by crop group (nothing
    before planting, orchard management for top fruit, the SNS index for
    strawberries, no light-sand row for hops), and P/K/Mg with the "and
    over" clamp at the last key of each table. */
module Fruit {
  import opened Outcomes
  import opened Crops
  import opened Rows
  import opened FruitData
  import Engine

  // ── P/K/Mg ─────────────────────────────────────────────────────────

  /** The largest index key of the crop's P/K/Mg tables: 5 before planting
      and for hops, 4 otherwise. */
  function LastKey(f: FruitCrop): int {
    if KindOf(f) in {PreplantFruitVines, PreplantHops, HopGarden} then 5 else 4
  }

  /** The row a fruit crop reads for one nutrient; its keys are 0..LastKey. */
  function FruitPkmRow(f: FruitCrop, n: PkmNutrient): (r: seq<int>)
    ensures |r| == LastKey(f) + 1
  {
    match KindOf(f)
    case PreplantFruitVines => PreplantRow(false, n)
    case PreplantHops => PreplantRow(true, n)
    case TopFruit => TopPkmRow(n)
    case SoftFruit => SoftPkmRow(f, n)
    case Strawberry => StrawberryPkmRow(n)
    case HopGarden => HopsPkmRow(n)
  }

  /** Every P/K/Mg row of Section 7 is never negative and never rises with
      the index. */
  lemma FruitPkmRowDescending(f: FruitCrop, n: PkmNutrient)
    ensures Descending(FruitPkmRow(f, n))
  {
    match KindOf(f)
    case PreplantFruitVines => Row6Descending(PreplantRow(false, n));
    case PreplantHops => Row6Descending(PreplantRow(true, n));
    case TopFruit => Row5Descending(TopPkmRow(n));
    case SoftFruit => Row5Descending(SoftPkmRow(f, n));
    case Strawberry => Row5Descending(StrawberryPkmRow(n));
    case HopGarden => Row6Descending(HopsPkmRow(n));
  }

  /** The tabulated rate for an index: the row's entry, where an index above
      the last key reads the last key. */
  function FruitPkmRate(f: FruitCrop, n: PkmNutrient, i: int): (v: int)
    requires i >= 0
    ensures i <= LastKey(f) ==> v == FruitPkmRow(f, n)[i]
    ensures i >= LastKey(f) ==> v == FruitPkmRow(f, n)[LastKey(f)]
  {
    FruitPkmRow(f, n)[Engine.ClampIndex(i, LastKey(f))]
  }

  /** recommend_fruit_pkm: the crop must be known and a fruit crop, and each
      index must lie in 0..9; the result is (phosphate, potash, magnesium). */
  function RecommendFruitPkm(cat: Catalogue, c: Crop, p: int, k: int, mg: int): (r: Result<(int, int, int)>)
    ensures c !in cat ==> r == Err(UnknownCrop)
    ensures c in cat && !c.Fruit? ==> r == Err(NotFruitCrop)
    ensures c in cat && c.Fruit? && !(0 <= p <= 9 && 0 <= k <= 9 && 0 <= mg <= 9) ==> r == Err(IndexOutOfRange)
    ensures r.Ok? <==> c in cat && c.Fruit? && 0 <= p <= 9 && 0 <= k <= 9 && 0 <= mg <= 9
    ensures r.Ok? ==>
      r.value == (FruitPkmRate(c.fruit, Phosphate, p), FruitPkmRate(c.fruit, Potash, k), FruitPkmRate(c.fruit, Magnesium, mg))
  {
    var _ :- Engine.CheckCrop(cat, c);
    if !c.Fruit? then Err(NotFruitCrop)
    else
      var pi :- Engine.CheckIndex(p, 0, 9);
      var ki :- Engine.CheckIndex(k, 0, 9);
      var mi :- Engine.CheckIndex(mg, 0, 9);
      Ok((FruitPkmRate(c.fruit, Phosphate, pi), FruitPkmRate(c.fruit, Potash, ki), FruitPkmRate(c.fruit, Magnesium, mi)))
  }

  /** A higher index never needs more of any of the three nutrients. */
  lemma FruitPkmNonIncreasing(cat: Catalogue, f: FruitCrop, p1: int, k1: int, mg1: int, p2: int, k2: int, mg2: int)
    requires RecommendFruitPkm(cat, Fruit(f), p1, k1, mg1).Ok? && RecommendFruitPkm(cat, Fruit(f), p2, k2, mg2).Ok?
    requires p1 <= p2 && k1 <= k2 && mg1 <= mg2
    ensures RecommendFruitPkm(cat, Fruit(f), p1, k1, mg1).value.0 >= RecommendFruitPkm(cat, Fruit(f), p2, k2, mg2).value.0
    ensures RecommendFruitPkm(cat, Fruit(f), p1, k1, mg1).value.1 >= RecommendFruitPkm(cat, Fruit(f), p2, k2, mg2).value.1
    ensures RecommendFruitPkm(cat, Fruit(f), p1, k1, mg1).value.2 >= RecommendFruitPkm(cat, Fruit(f), p2, k2, mg2).value.2
  {
    var last := LastKey(f);
    var rp, rk, rm := FruitPkmRow(f, Phosphate), FruitPkmRow(f, Potash), FruitPkmRow(f, Magnesium);
    FruitPkmRowDescending(f, Phosphate); FruitPkmRowDescending(f, Potash); FruitPkmRowDescending(f, Magnesium);
    assert rp[Engine.ClampIndex(p1, last)] >= rp[Engine.ClampIndex(p2, last)];
    assert rk[Engine.ClampIndex(k1, last)] >= rk[Engine.ClampIndex(k2, last)];
    assert rm[Engine.ClampIndex(mg1, last)] >= rm[Engine.ClampIndex(mg2, last)];
  }

  /** Every index from the last key up to 9 gives the same result as the last
      key itself (5 before planting and for hops, 4 otherwise), and that
      result is nothing. */
  lemma FruitIndicesAboveLastKeyClamp(cat: Catalogue, f: FruitCrop, p: int, k: int, mg: int)
    requires Fruit(f) in cat
    requires LastKey(f) <= p <= 9 && LastKey(f) <= k <= 9 && LastKey(f) <= mg <= 9
    ensures RecommendFruitPkm(cat, Fruit(f), p, k, mg) == RecommendFruitPkm(cat, Fruit(f), LastKey(f), LastKey(f), LastKey(f))
    ensures RecommendFruitPkm(cat, Fruit(f), p, k, mg) == Ok((0, 0, 0))
  {
  }

  /** Every index outside 0..9 is refused, for every fruit crop. */
  lemma FruitIndicesOutsideRangeFail(cat: Catalogue, f: FruitCrop, p: int, k: int, mg: int)
    requires Fruit(f) in cat
    requires p < 0 || p > 9 || k < 0 || k > 9 || mg < 0 || mg > 9
    ensures RecommendFruitPkm(cat, Fruit(f), p, k, mg) == Err(IndexOutOfRange)
  {
  }

  /** All five top fruit read one table. */
  lemma TopFruitShareOneTable(cat: Catalogue, f: FruitCrop, g: FruitCrop, p: int, k: int, mg: int)
    requires Fruit(f) in cat && Fruit(g) in cat
    requires KindOf(f) == TopFruit && KindOf(g) == TopFruit
    ensures RecommendFruitPkm(cat, Fruit(f), p, k, mg) == RecommendFruitPkm(cat, Fruit(g), p, k, mg)
  {
  }

  /** Soft fruit and vines share phosphate and magnesium; their potash
      differs exactly when one is in group 1 and the other is not, at an
      index below 4. */
  lemma SoftFruitPkmGroups(cat: Catalogue, f: FruitCrop, g: FruitCrop, p: int, k: int, mg: int)
    requires Fruit(f) in cat && Fruit(g) in cat
    requires KindOf(f) == SoftFruit && KindOf(g) == SoftFruit
    requires 0 <= p <= 9 && 0 <= k <= 9 && 0 <= mg <= 9
    ensures RecommendFruitPkm(cat, Fruit(f), p, k, mg).value.0 == RecommendFruitPkm(cat, Fruit(g), p, k, mg).value.0
    ensures RecommendFruitPkm(cat, Fruit(f), p, k, mg).value.2 == RecommendFruitPkm(cat, Fruit(g), p, k, mg).value.2
    ensures RecommendFruitPkm(cat, Fruit(f), p, k, mg).value.1 != RecommendFruitPkm(cat, Fruit(g), p, k, mg).value.1
        <==> k < 4 && SoftGroupOne(f) != SoftGroupOne(g)
  {
    var kk := Engine.ClampIndex(k, 4);
    var rf := RecommendFruitPkm(cat, Fruit(f), p, k, mg);
    var rg := RecommendFruitPkm(cat, Fruit(g), p, k, mg);
    assert rf.value == (FruitPkmRate(f, Phosphate, p), FruitPkmRate(f, Potash, k), FruitPkmRate(f, Magnesium, mg));
    assert rg.value == (FruitPkmRate(g, Phosphate, p), FruitPkmRate(g, Potash, k), FruitPkmRate(g, Magnesium, mg));
    SoftFruitRate(f, Phosphate, p); SoftFruitRate(f, Potash, k); SoftFruitRate(f, Magnesium, mg);
    SoftFruitRate(g, Phosphate, p); SoftFruitRate(g, Potash, k); SoftFruitRate(g, Magnesium, mg);
    SoftFruitGroups(f, g, kk);
  }

  /** A soft fruit reads Table 7.7 at the index clamped to 4. */
  lemma SoftFruitRate(f: FruitCrop, n: PkmNutrient, i: int)
    requires KindOf(f) == SoftFruit && i >= 0
    ensures FruitPkmRate(f, n, i) == SoftPkmRow(f, n)[Engine.ClampIndex(i, 4)]
  {
  }

  // ── Nitrogen ───────────────────────────────────────────────────────

  /** recommend_fruit_nitrogen. The crop is checked, then that it is a fruit
      crop, then the soil category; the group then decides: nothing before
      planting, the orchard management for top fruit (required), the soil
      alone for soft fruit and vines, the SNS index (required, 0..6, read at
      most at 5, clay reading the other-mineral row) for strawberries, and
      the soil for hops, which have no light-sand row. */
  function RecommendFruitNitrogen(cat: Catalogue, c: Crop, soil: string, orchard: Option<string>, sns: Option<int>): (r: Result<int>)
    ensures c !in cat ==> r == Err(UnknownCrop)
    ensures c in cat && !c.Fruit? ==> r == Err(NotFruitCrop)
    ensures c in cat && c.Fruit? && ParseFruitSoil(soil).None? ==> r == Err(UnknownFruitSoil)
    ensures r.Ok? ==> c in cat && c.Fruit? && ParseFruitSoil(soil).Some? && r.value >= 0
  {
    var _ :- Engine.CheckCrop(cat, c);
    if !c.Fruit? then Err(NotFruitCrop)
    else
      var f := c.fruit;
      var t :- ParseFruitSoil(soil).ToResult(UnknownFruitSoil);
      match KindOf(f)
      case PreplantFruitVines => Ok(0)
      case PreplantHops => Ok(0)
      case TopFruit =>
        var name :- orchard.ToResult(MissingOrchardManagement);
        var m :- ParseOrchardManagement(name).ToResult(UnknownOrchardManagement);
        Ok(TopNitrogen(f, t, m))
      case SoftFruit => Ok(SoftNitrogen(f, t))
      case Strawberry =>
        var s :- sns.ToResult(MissingSnsIndex);
        var i :- Engine.CheckIndex(s, 0, 6);
        var row := StrawberryNitrogenRow(f, t);
        Ok(row[Engine.ClampIndex(i, 5)])
      case HopGarden => HopsNitrogen(t).ToResult(NoHopsData)
  }

  /** Before planting no nitrogen is recommended, whatever the soil. */
  lemma PreplantNeedsNoNitrogen(cat: Catalogue, f: FruitCrop, soil: string, orchard: Option<string>, sns: Option<int>)
    requires Fruit(f) in cat && KindOf(f) in {PreplantFruitVines, PreplantHops}
    requires ParseFruitSoil(soil).Some?
    ensures RecommendFruitNitrogen(cat, Fruit(f), soil, orchard, sns) == Ok(0)
  {
  }

  /** Top fruit: a missing or unrecognised orchard management fails, and a
      recognised one reads Table 7.4; the SNS index plays no part. */
  lemma TopFruitNitrogenByManagement(cat: Catalogue, f: FruitCrop, t: FruitSoil, orchard: Option<string>, sns: Option<int>)
    requires Fruit(f) in cat && KindOf(f) == TopFruit
    ensures orchard.None? ==> RecommendFruitNitrogen(cat, Fruit(f), FruitSoilName(t), orchard, sns) == Err(MissingOrchardManagement)
    ensures orchard.Some? && ParseOrchardManagement(orchard.value).None? ==>
      RecommendFruitNitrogen(cat, Fruit(f), FruitSoilName(t), orchard, sns) == Err(UnknownOrchardManagement)
    ensures forall m :: orchard == Some(ManagementName(m)) ==>
      RecommendFruitNitrogen(cat, Fruit(f), FruitSoilName(t), orchard, sns) == Ok(TopNitrogen(f, t, m))
  {
    ParseFruitSoilExact(FruitSoilName(t), t);
    forall m | orchard == Some(ManagementName(m)) {
      ParseOrchardManagementExact(ManagementName(m), m);
    }
  }

  /** An orchard under overall grass needs 40 kg N/ha more than one with
      grass strips, for every top fruit and soil. */
  lemma OverallGrassAddsForty(cat: Catalogue, f: FruitCrop, t: FruitSoil, sns: Option<int>)
    requires Fruit(f) in cat && KindOf(f) == TopFruit
    ensures RecommendFruitNitrogen(cat, Fruit(f), FruitSoilName(t), Some("overall-grass"), sns).Ok?
    ensures RecommendFruitNitrogen(cat, Fruit(f), FruitSoilName(t), Some("overall-grass"), sns).value
         == RecommendFruitNitrogen(cat, Fruit(f), FruitSoilName(t), Some("grass-strip"), sns).value + 40
  {
    TopFruitNitrogenByManagement(cat, f, t, Some(ManagementName(OverallGrass)), sns);
    TopFruitNitrogenByManagement(cat, f, t, Some(ManagementName(GrassStrip)), sns);
    OverallGrassIsStripPlus40(f, t);
  }

  /** Soft fruit and vines read Table 7.6 by soil alone. */
  lemma SoftFruitNitrogenBySoil(cat: Catalogue, f: FruitCrop, t: FruitSoil, orchard: Option<string>, sns: Option<int>)
    requires Fruit(f) in cat && KindOf(f) == SoftFruit
    ensures RecommendFruitNitrogen(cat, Fruit(f), FruitSoilName(t), orchard, sns) == Ok(SoftNitrogen(f, t))
  {
    ParseFruitSoilExact(FruitSoilName(t), t);
  }

  /** Strawberries: a missing SNS index fails and one outside 0..6 is
      refused; otherwise clay gives the other-mineral result. */
  lemma StrawberryNitrogenInputs(cat: Catalogue, f: FruitCrop, soil: string, orchard: Option<string>, sns: Option<int>)
    requires Fruit(f) in cat && KindOf(f) == Strawberry
    requires ParseFruitSoil(soil).Some?
    ensures sns.None? ==> RecommendFruitNitrogen(cat, Fruit(f), soil, orchard, sns) == Err(MissingSnsIndex)
    ensures sns.Some? && !(0 <= sns.value <= 6) ==> RecommendFruitNitrogen(cat, Fruit(f), soil, orchard, sns) == Err(IndexOutOfRange)
    ensures RecommendFruitNitrogen(cat, Fruit(f), "clay", orchard, sns) == RecommendFruitNitrogen(cat, Fruit(f), "other-mineral", orchard, sns)
  {
  }

  /** Strawberries with an SNS index in 0..6 read Table 7.8 for the soil at
      the index clamped to 5 ("5 and over"). */
  lemma StrawberryNitrogenBySns(cat: Catalogue, f: FruitCrop, t: FruitSoil, orchard: Option<string>, s: int)
    requires Fruit(f) in cat && KindOf(f) == Strawberry && 0 <= s <= 6
    ensures RecommendFruitNitrogen(cat, Fruit(f), FruitSoilName(t), orchard, Some(s))
         == Ok(StrawberryNitrogenRow(f, t)[Engine.ClampIndex(s, 5)])
  {
    ParseFruitSoilExact(FruitSoilName(t), t);
  }

  /** Strawberries: a higher SNS index never needs more nitrogen, and SNS 6
      reads the "5 and over" entry. */
  lemma StrawberryNitrogenNonIncreasing(cat: Catalogue, f: FruitCrop, soil: string, i: int, j: int)
    requires Fruit(f) in cat && KindOf(f) == Strawberry
    requires ParseFruitSoil(soil).Some? && 0 <= i <= j <= 6
    ensures RecommendFruitNitrogen(cat, Fruit(f), soil, None, Some(i)).Ok?
    ensures RecommendFruitNitrogen(cat, Fruit(f), soil, None, Some(i)).value
         >= RecommendFruitNitrogen(cat, Fruit(f), soil, None, Some(j)).value
    ensures RecommendFruitNitrogen(cat, Fruit(f), soil, None, Some(6)) == RecommendFruitNitrogen(cat, Fruit(f), soil, None, Some(5))
  {
    var row := StrawberryNitrogenRow(f, ParseFruitSoil(soil).value);
    Row6Descending(row);
    assert row[Engine.ClampIndex(i, 5)] >= row[Engine.ClampIndex(j, 5)];
  }

  /** Hops fail on light sand and otherwise read Table 7.17. */
  lemma HopsNitrogenBySoil(cat: Catalogue, t: FruitSoil, orchard: Option<string>, sns: Option<int>)
    requires Fruit(Hops) in cat
    ensures RecommendFruitNitrogen(cat, Fruit(Hops), FruitSoilName(t), orchard, sns)
         == (if t == FruitLightSand then Err(NoHopsData) else Ok(HopsNitrogen(t).value))
  {
    ParseFruitSoilExact(FruitSoilName(t), t);
  }

  // ── Everything together ────────────────────────────────────────────

  datatype FruitRecommendation = FruitRecommendation(nitrogen: int, phosphate: int, potash: int, magnesium: int)

  /** recommend_fruit_all: nitrogen, then phosphate, potash and magnesium;
      any failing part makes the whole fail. */
  function RecommendFruitAll(cat: Catalogue, c: Crop, soil: string, p: int, k: int, mg: int,
                             orchard: Option<string>, sns: Option<int>): (r: Result<FruitRecommendation>)
    ensures r.Ok? <==> RecommendFruitNitrogen(cat, c, soil, orchard, sns).Ok? && RecommendFruitPkm(cat, c, p, k, mg).Ok?
    ensures RecommendFruitNitrogen(cat, c, soil, orchard, sns).Err? ==> r == Err(RecommendFruitNitrogen(cat, c, soil, orchard, sns).error)
    ensures RecommendFruitNitrogen(cat, c, soil, orchard, sns).Ok? && RecommendFruitPkm(cat, c, p, k, mg).Err? ==>
      r == Err(RecommendFruitPkm(cat, c, p, k, mg).error)
    ensures r.Ok? ==>
      && r.value.nitrogen == RecommendFruitNitrogen(cat, c, soil, orchard, sns).value
      && (r.value.phosphate, r.value.potash, r.value.magnesium) == RecommendFruitPkm(cat, c, p, k, mg).value
  {
    var n :- RecommendFruitNitrogen(cat, c, soil, orchard, sns);
    var pkm :- RecommendFruitPkm(cat, c, p, k, mg);
    Ok(FruitRecommendation(n, pkm.0, pkm.1, pkm.2))
  }

  /** Worked example: dessert apple on light sand with grass strips, at
      P, K and Mg index 2. */
  lemma TopFruitExample(cat: Catalogue)
    requires Fruit(DessertApple) in cat
    ensures RecommendFruitNitrogen(cat, Fruit(DessertApple), "light-sand", Some("grass-strip"), None) == Ok(80)
    ensures RecommendFruitPkm(cat, Fruit(DessertApple), 2, 2, 2) == Ok((20, 80, 50))
  {
  }

  /** Worked example: raspberry on other mineral soil at index 1. */
  lemma SoftFruitExample(cat: Catalogue)
    requires Fruit(Raspberry) in cat
    ensures RecommendFruitNitrogen(cat, Fruit(Raspberry), "other-mineral", None, None) == Ok(100)
    ensures RecommendFruitPkm(cat, Fruit(Raspberry), 1, 1, 1) == Ok((70, 180, 65))
  {
  }

  /** Worked example: main-season strawberry on light sand at SNS index 1
      and P, K and Mg index 2. */
  lemma StrawberryExample(cat: Catalogue)
    requires Fruit(StrawberryMain) in cat
    ensures RecommendFruitNitrogen(cat, Fruit(StrawberryMain), "light-sand", None, Some(1)) == Ok(50)
    ensures RecommendFruitPkm(cat, Fruit(StrawberryMain), 2, 2, 2) == Ok((40, 80, 50))
  {
  }

  /** Worked example: hops on clay at P, K and Mg index 2. */
  lemma HopsExample(cat: Catalogue)
    requires Fruit(Hops) in cat
    ensures RecommendFruitNitrogen(cat, Fruit(Hops), "clay", None, None) == Ok(200)
    ensures RecommendFruitPkm(cat, Fruit(Hops), 2, 2, 2) == Ok((150, 275, 50))
  {
  }

  /** The four worked examples through recommend_fruit_all. */
  lemma FruitAllExamples(cat: Catalogue)
    requires Fruit(DessertApple) in cat && Fruit(Raspberry) in cat && Fruit(StrawberryMain) in cat && Fruit(Hops) in cat
    ensures RecommendFruitAll(cat, Fruit(DessertApple), "light-sand", 2, 2, 2, Some("grass-strip"), None) == Ok(FruitRecommendation(80, 20, 80, 50))
    ensures RecommendFruitAll(cat, Fruit(Raspberry), "other-mineral", 1, 1, 1, None, None) == Ok(FruitRecommendation(100, 70, 180, 65))
    ensures RecommendFruitAll(cat, Fruit(StrawberryMain), "light-sand", 2, 2, 2, None, Some(1)) == Ok(FruitRecommendation(50, 40, 80, 50))
    ensures RecommendFruitAll(cat, Fruit(Hops), "clay", 2, 2, 2, None, None) == Ok(FruitRecommendation(200, 150, 275, 50))
  {
    TopFruitExample(cat);
    SoftFruitExample(cat);
    StrawberryExample(cat);
    HopsExample(cat);
  }

  /** Error examples: an arable crop, an unknown soil, an unknown orchard
      management and a negative index. */
  lemma FruitErrorExamples(cat: Catalogue)
    requires Arable(WinterWheatFeed) in cat && Fruit(Blackcurrant) in cat && Fruit(DessertApple) in cat && Fruit(Hops) in cat
    ensures RecommendFruitNitrogen(cat, Arable(WinterWheatFeed), "light-sand", None, None) == Err(NotFruitCrop)
    ensures RecommendFruitNitrogen(cat, Fruit(Blackcurrant), "bogus-soil", None, None) == Err(UnknownFruitSoil)
    ensures RecommendFruitNitrogen(cat, Fruit(DessertApple), "light-sand", Some("bogus-management"), None) == Err(UnknownOrchardManagement)
    ensures RecommendFruitPkm(cat, Fruit(Hops), -1, 0, 0) == Err(IndexOutOfRange)
  {
  }
}
