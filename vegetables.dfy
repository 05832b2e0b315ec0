/** The vegetable lookups, reconstructed: the engine shown reads only the
    arable tables, while the vegetable tables (nitrogen, phosphate, potash
    with its K index 2 split, and magnesium) document how they are read. A
    vegetable crop reads its own table here, with the engine's validation
    and clamping; every other crop gets the engine's result unchanged. */
module Vegetables {
  import opened Outcomes
  import opened Crops
  import opened Rows
  import opened NitrogenData
  import opened PhosphorusData
  import opened PotassiumData
  import opened MagnesiumData
  import Engine

  /** Nitrogen: a vegetable reads its SNS 0..6 row. */
  function RecommendNitrogenVeg(cat: Catalogue, c: Crop, sns: int): (r: Result<int>)
    ensures !c.Veg? ==> r == Engine.RecommendNitrogen(cat, c, sns, None)
    ensures c.Veg? ==> (r.Ok? <==> c in cat && 0 <= sns <= 6)
    ensures c.Veg? && c !in cat ==> r == Err(UnknownCrop)
    ensures c.Veg? && c in cat && !(0 <= sns <= 6) ==> r == Err(IndexOutOfRange)
    ensures r.Ok? ==> r.value >= 0
  {
    if !c.Veg? then Engine.RecommendNitrogen(cat, c, sns, None)
    else
      var _ :- Engine.CheckCrop(cat, c);
      var i :- Engine.CheckIndex(sns, 0, 6);
      var row := VegNRow(c.veg);
      Row7Descending(row);
      Ok(row[i])
  }

  /** Phosphate: a vegetable reads its row at the index clamped to 4. */
  function RecommendPhosphorusVeg(cat: Catalogue, c: Crop, p: int): (r: Result<int>)
    ensures !c.Veg? ==> r == Engine.RecommendPhosphorus(cat, c, p)
    ensures c.Veg? && c !in cat ==> r == Err(UnknownCrop)
    ensures c.Veg? && c in cat && !(0 <= p <= 9) ==> r == Err(IndexOutOfRange)
    ensures c.Veg? && c in cat && 0 <= p <= 9 ==>
      r == (if VegPRow(c.veg).Some? then Ok(VegPRow(c.veg).value[Engine.ClampIndex(p, 4)]) else Err(NoPhosphorusData))
  {
    if !c.Veg? then Engine.RecommendPhosphorus(cat, c, p)
    else
      var _ :- Engine.CheckCrop(cat, c);
      var i :- Engine.CheckIndex(p, 0, 9);
      if VegPRow(c.veg).Some? then Ok(VegPRow(c.veg).value[Engine.ClampIndex(i, 4)]) else Err(NoPhosphorusData)
  }

  /** The potash of a vegetable row at a clamped key, with the 2+ value
      replacing index 2 when the upper half is asked for and the crop splits
      that index. */
  function VegPotash(v: VegCrop, key: int, upperHalf: bool): (r: Option<int>)
    requires 0 <= key <= 4
    ensures r.None? <==> VegKRow(v).None?
  {
    if VegKRow(v).None? then None
    else if key == 2 && upperHalf && K2Upper(v).Some? then
      K2UpperBelowK2Lower(v);
      K2Upper(v)
    else Some(VegKRow(v).value[key])
  }

  /** Potash: a vegetable reads its row at the index clamped to 4, or the 2+
      value (see VegPotash); other crops get the engine's straw-aware lookup. */
  function RecommendPotassiumVeg(cat: Catalogue, c: Crop, k: int, strawRemoved: bool, upperHalf: bool): (r: Result<int>)
    ensures !c.Veg? ==> r == Engine.RecommendPotassium(cat, c, k, strawRemoved)
    ensures c.Veg? && c !in cat ==> r == Err(UnknownCrop)
    ensures c.Veg? && c in cat && !(0 <= k <= 9) ==> r == Err(IndexOutOfRange)
    ensures c.Veg? && c in cat && 0 <= k <= 9 ==>
      r == VegPotash(c.veg, Engine.ClampIndex(k, 4), upperHalf).ToResult(NoPotassiumData)
  {
    if !c.Veg? then Engine.RecommendPotassium(cat, c, k, strawRemoved)
    else
      var _ :- Engine.CheckCrop(cat, c);
      var i :- Engine.CheckIndex(k, 0, 9);
      VegPotash(c.veg, Engine.ClampIndex(i, 4), upperHalf).ToResult(NoPotassiumData)
  }

  /** Magnesium with an optional crop: a given crop must be known; a
      vegetable reads the vegetable rates, anything else (or no crop) the
      arable rates, at the index clamped to 4. */
  function RecommendMagnesiumFor(cat: Catalogue, crop: Option<Crop>, mg: int): (r: Result<int>)
    ensures crop.Some? && crop.value !in cat ==> r == Err(UnknownCrop)
    ensures crop.None? ==> r == Engine.RecommendMagnesium(mg)
    ensures crop.Some? && crop.value in cat && !crop.value.Veg? ==> r == Engine.RecommendMagnesium(mg)
    ensures crop.Some? && crop.value in cat && crop.value.Veg? ==>
      r == (if 0 <= mg <= 9 then Ok(VegMgRow()[Engine.ClampIndex(mg, 4)]) else Err(IndexOutOfRange))
  {
    if crop.Some? && crop.value !in cat then Err(UnknownCrop)
    else
      var i :- Engine.CheckIndex(mg, 0, 9);
      if crop.Some? && crop.value.Veg? then Ok(VegMgRow()[Engine.ClampIndex(i, 4)])
      else Ok(ArableMgRow()[Engine.ClampIndex(i, 4)])
  }

  // ── Properties ──────────────────────────────────────────────────────

  /** Vegetable nitrogen never rises with the SNS index; the N-fixing
      vegetables get none at any index. */
  lemma VegNitrogenNonIncreasing(cat: Catalogue, v: VegCrop, i: int, j: int)
    requires Veg(v) in cat && 0 <= i <= j <= 6
    ensures RecommendNitrogenVeg(cat, Veg(v), i).value >= RecommendNitrogenVeg(cat, Veg(v), j).value
    ensures IsNFixing(Veg(v)) ==> RecommendNitrogenVeg(cat, Veg(v), i) == Ok(0)
  {
    var row := VegNRow(v);
    Row7Descending(row);
    assert row[i] >= row[j];
    if IsNFixing(Veg(v)) {
      NFixingCropsNeedNoNitrogen(Veg(v), i);
    }
  }

  /** The upper-half flag never raises potash. It lowers it exactly at K
      index 2 for a crop with a 2+ value, and changes nothing otherwise. */
  lemma UpperHalfOnlyLowersIndexTwo(cat: Catalogue, v: VegCrop, k: int)
    requires Veg(v) in cat && 0 <= k <= 9 && VegKRow(v).Some?
    ensures var lower := RecommendPotassiumVeg(cat, Veg(v), k, false, false);
            var upper := RecommendPotassiumVeg(cat, Veg(v), k, false, true);
            && lower.Ok? && upper.Ok?
            && upper.value <= lower.value
            && (upper.value < lower.value <==> k == 2 && K2Upper(v).Some?)
  {
    if k == 2 && K2Upper(v).Some? {
      K2UpperBelowK2Lower(v);
    }
  }

  /** P, K and Mg indices 5 to 9 give the index-4 result for every crop. */
  lemma VegIndicesAboveFourClamp(cat: Catalogue, c: Crop, i: int, strawRemoved: bool, upperHalf: bool)
    requires 4 <= i <= 9
    ensures RecommendPhosphorusVeg(cat, c, i) == RecommendPhosphorusVeg(cat, c, 4)
    ensures RecommendPotassiumVeg(cat, c, i, strawRemoved, upperHalf) == RecommendPotassiumVeg(cat, c, 4, strawRemoved, upperHalf)
    ensures RecommendMagnesiumFor(cat, Some(c), i) == RecommendMagnesiumFor(cat, Some(c), 4)
  {
    Engine.IndicesAboveFourClamp(cat, c, i, strawRemoved);
  }

  /** A vegetable never gets less magnesium than the arable rate at the same
      index. */
  lemma VegMagnesiumAtLeastArable(cat: Catalogue, v: VegCrop, mg: int)
    requires Veg(v) in cat && 0 <= mg <= 9
    ensures RecommendMagnesiumFor(cat, Some(Veg(v)), mg).value >= RecommendMagnesiumFor(cat, None, mg).value
  {
    VegMgAtLeastArable(Engine.ClampIndex(mg, 4));
  }

  /** The K index 2 values the vegetable tests pin down: sprouts 200 (2-) and
      150 (2+), celery 350 and 300, and 200 either way for asparagus in its
      establishment year, which has no split. */
  lemma VegPotashExamples(cat: Catalogue)
    requires Veg(BrusselsSprouts) in cat && Veg(CelerySeedbed) in cat && Veg(AsparagusEst) in cat
    ensures RecommendPotassiumVeg(cat, Veg(BrusselsSprouts), 2, false, false) == Ok(200)
    ensures RecommendPotassiumVeg(cat, Veg(BrusselsSprouts), 2, false, true) == Ok(150)
    ensures RecommendPotassiumVeg(cat, Veg(CelerySeedbed), 2, false, true) == Ok(300)
    ensures RecommendPotassiumVeg(cat, Veg(AsparagusEst), 2, false, true) == Ok(200)
  {
  }

  /** Magnesium: 150 at index 0 for a vegetable, 90 for wheat or no crop. */
  lemma VegMagnesiumExamples(cat: Catalogue)
    requires Veg(BrusselsSprouts) in cat && Arable(WinterWheatFeed) in cat
    ensures RecommendMagnesiumFor(cat, Some(Veg(BrusselsSprouts)), 0) == Ok(150)
    ensures RecommendMagnesiumFor(cat, Some(Arable(WinterWheatFeed)), 0) == Ok(90)
    ensures RecommendMagnesiumFor(cat, None, 1) == Ok(60)
  {
  }
}
