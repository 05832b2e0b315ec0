/** The nutrient recommendations of the engine: validation of crops and
    indices, the single-nutrient lookups (nitrogen, phosphate, potash,
    magnesium, sulfur) and the full recommendation that composes them. Every
    lookup reads the generic (arable) tables only. */
module Engine {
  import opened Outcomes
  import opened Crops
  import opened Rows
  import opened NitrogenData
  import opened PhosphorusData
  import opened PotassiumData
  import opened MagnesiumData
  import opened SulfurData

  // ── Validation ──────────────────────────────────────────────────────

  /** _validate_crop: a crop is valid exactly when the catalogue lists it. */
  function CheckCrop(cat: Catalogue, c: Crop): (r: Result<CropInfo>)
    ensures r.Ok? <==> c in cat
    ensures r.Ok? ==> r.value == cat[c]
    ensures r.Err? ==> r.error == UnknownCrop
  {
    if c in cat then Ok(cat[c]) else Err(UnknownCrop)
  }

  /** _validate_index: an index is accepted exactly when it lies in [lo, hi]. */
  function CheckIndex(value: int, lo: int, hi: int): (r: Result<int>)
    ensures r.Ok? <==> lo <= value <= hi
    ensures r.Ok? ==> r.value == value
    ensures r.Err? ==> r.error == IndexOutOfRange
  {
    if lo <= value <= hi then Ok(value) else Err(IndexOutOfRange)
  }

  /** _clamp_index: the index, or the table's largest key when it is above it. */
  function ClampIndex(value: int, maxKey: int): (k: int)
    ensures k <= value && k <= maxKey
    ensures k == value || k == maxKey
  {
    if value < maxKey then value else maxKey
  }

  // ── Single nutrients ────────────────────────────────────────────────

  /** recommend_nitrogen. The SNS index is rejected, never clamped, outside
      0..6. With a soil type only the soil-specific table is read, and a
      missing key fails; without one the generic table is read. */
  function RecommendNitrogen(cat: Catalogue, c: Crop, sns: int, soil: Option<string>): (r: Result<int>)
    ensures c !in cat ==> r == Err(UnknownCrop)
    ensures c in cat && !(0 <= sns <= 6) ==> r == Err(IndexOutOfRange)
    ensures c in cat && 0 <= sns <= 6 && soil.Some? ==>
      r == (match ParseSoilType(soil.value)
            case None => Err(UnknownSoilType)
            case Some(t) => SoilSpecificN(c, sns, t).ToResult(NoSoilSpecificData))
    ensures c in cat && 0 <= sns <= 6 && soil.None? ==>
      r == (if c.Arable? then Ok(GenericNRow(c.arable)[sns]) else Err(NoNitrogenData))
    ensures r.Ok? ==> r.value >= 0
  {
    var _ :- CheckCrop(cat, c);
    var i :- CheckIndex(sns, 0, 6);
    if soil.Some? then
      var t :- ParseSoilType(soil.value).ToResult(UnknownSoilType);
      SoilSpecificN(c, i, t).ToResult(NoSoilSpecificData)
    else if c.Arable? then
      Ok(GenericNRow(c.arable)[i])
    else
      Err(NoNitrogenData)
  }

  /** recommend_phosphorus: the index must lie in 0..9 and is clamped to 4. */
  function RecommendPhosphorus(cat: Catalogue, c: Crop, p: int): (r: Result<int>)
    ensures c !in cat ==> r == Err(UnknownCrop)
    ensures c in cat && !(0 <= p <= 9) ==> r == Err(IndexOutOfRange)
    ensures c in cat && 0 <= p <= 9 ==>
      r == (if c.Arable? then Ok(GenericPRow(c.arable)[ClampIndex(p, 4)]) else Err(NoPhosphorusData))
  {
    var _ :- CheckCrop(cat, c);
    var i :- CheckIndex(p, 0, 9);
    var key := ClampIndex(i, 4);
    if c.Arable? then Ok(GenericPRow(c.arable)[key]) else Err(NoPhosphorusData)
  }

  /** The potash straw table the flag selects. */
  function StrawRow(a: ArableCrop, strawRemoved: bool): Option<Row5> {
    if strawRemoved then StrawRemovedRow(a) else StrawIncorporatedRow(a)
  }

  /** recommend_potassium: the index must lie in 0..9 and is clamped to 4. A
      crop the catalogue marks as having a straw option reads the table the
      flag selects when that table has the crop; otherwise, and for every
      other crop, the generic table is read, and a missing key fails. */
  function RecommendPotassium(cat: Catalogue, c: Crop, k: int, strawRemoved: bool): (r: Result<int>)
    ensures c !in cat ==> r == Err(UnknownCrop)
    ensures c in cat && !(0 <= k <= 9) ==> r == Err(IndexOutOfRange)
    ensures c in cat && 0 <= k <= 9 && cat[c].hasStrawOption && c.Arable? && StrawRow(c.arable, strawRemoved).Some? ==>
      r == Ok(StrawRow(c.arable, strawRemoved).value[ClampIndex(k, 4)])
    ensures c in cat && 0 <= k <= 9 && !(cat[c].hasStrawOption && c.Arable? && StrawRow(c.arable, strawRemoved).Some?) ==>
      r == (if c.Arable? && GenericKRow(c.arable).Some? then Ok(GenericKRow(c.arable).value[ClampIndex(k, 4)])
            else Err(NoPotassiumData))
  {
    var info :- CheckCrop(cat, c);
    var i :- CheckIndex(k, 0, 9);
    var key := ClampIndex(i, 4);
    if info.hasStrawOption && c.Arable? && StrawRow(c.arable, strawRemoved).Some? then
      Ok(StrawRow(c.arable, strawRemoved).value[key])
    else if c.Arable? && GenericKRow(c.arable).Some? then
      Ok(GenericKRow(c.arable).value[key])
    else
      Err(NoPotassiumData)
  }

  /** recommend_magnesium: the index must lie in 0..9 and is clamped to 4; the
      arable table always has the clamped key. */
  function RecommendMagnesium(mg: int): (r: Result<int>)
    ensures r.Ok? <==> 0 <= mg <= 9
    ensures r.Err? ==> r.error == IndexOutOfRange
    ensures r.Ok? ==> r.value == ArableMgRow()[ClampIndex(mg, 4)]
  {
    var i :- CheckIndex(mg, 0, 9);
    Ok(ArableMgRow()[ClampIndex(i, 4)])
  }

  /** recommend_sulfur: a crop absent from the sulfur table fails. */
  function RecommendSulfur(cat: Catalogue, c: Crop): (r: Result<int>)
    ensures c !in cat ==> r == Err(UnknownCrop)
    ensures c in cat ==> r == SulfurRate(c).ToResult(NoSulfurData)
  {
    var _ :- CheckCrop(cat, c);
    SulfurRate(c).ToResult(NoSulfurData)
  }

  // ── Full recommendation ─────────────────────────────────────────────

  /** The notes of a full recommendation, as tagged values. */
  datatype EngineNote =
    | StrawNote(strawRemoved: bool)   // the potash assumes straw removed or incorporated
    | CropNote(text: string)          // the catalogue's advisory note for the crop
    | NFixingNote                     // a nitrogen-fixing crop needs no fertiliser N

  /** Position of a note kind in the order the notes are emitted. */
  function NoteRank(n: EngineNote): nat {
    match n
    case StrawNote(_) => 0
    case CropNote(_) => 1
    case NFixingNote => 2
  }

  datatype NutrientRecommendation = NutrientRecommendation(
    crop: string,
    nitrogen: int,
    phosphorus: int,
    potassium: int,
    magnesium: int,
    sulfur: int,
    notes: seq<EngineNote>)

  /** The notes of recommend_all, appended in the engine's order. */
  function AllNotes(info: CropInfo, c: Crop, n: int, strawRemoved: bool): seq<EngineNote> {
    (if info.hasStrawOption then [StrawNote(strawRemoved)] else [])
    + (if info.notes != "" then [CropNote(info.notes)] else [])
    + (if n == 0 && (c == Arable(Peas) || c == Arable(FieldBeans)) then [NFixingNote] else [])
  }

  /** recommend_all: the crop is checked first, then the five nutrients in the
      order nitrogen, phosphate, potash, magnesium, sulfur; the first failure
      is the result. */
  function RecommendAll(cat: Catalogue, c: Crop, sns: int, p: int, k: int, mg: int,
                        strawRemoved: bool, soil: Option<string>): (r: Result<NutrientRecommendation>)
    ensures c !in cat ==> r == Err(UnknownCrop)
    ensures r.Ok? <==>
      RecommendNitrogen(cat, c, sns, soil).Ok? && RecommendPhosphorus(cat, c, p).Ok?
      && RecommendPotassium(cat, c, k, strawRemoved).Ok? && RecommendMagnesium(mg).Ok?
      && RecommendSulfur(cat, c).Ok?
    ensures RecommendNitrogen(cat, c, sns, soil).Err? ==> r == Err(RecommendNitrogen(cat, c, sns, soil).error)
    ensures RecommendNitrogen(cat, c, sns, soil).Ok? && RecommendPhosphorus(cat, c, p).Err? ==>
      r == Err(RecommendPhosphorus(cat, c, p).error)
    ensures (RecommendNitrogen(cat, c, sns, soil).Ok? && RecommendPhosphorus(cat, c, p).Ok?
             && RecommendPotassium(cat, c, k, strawRemoved).Err?) ==>
      r == Err(RecommendPotassium(cat, c, k, strawRemoved).error)
    ensures (RecommendNitrogen(cat, c, sns, soil).Ok? && RecommendPhosphorus(cat, c, p).Ok?
             && RecommendPotassium(cat, c, k, strawRemoved).Ok? && RecommendMagnesium(mg).Err?) ==>
      r == Err(RecommendMagnesium(mg).error)
    ensures (RecommendNitrogen(cat, c, sns, soil).Ok? && RecommendPhosphorus(cat, c, p).Ok?
             && RecommendPotassium(cat, c, k, strawRemoved).Ok? && RecommendMagnesium(mg).Ok?
             && RecommendSulfur(cat, c).Err?) ==>
      r == Err(RecommendSulfur(cat, c).error)
    ensures r.Ok? ==>
      && r.value.crop == cat[c].name
      && r.value.nitrogen == RecommendNitrogen(cat, c, sns, soil).value
      && r.value.phosphorus == RecommendPhosphorus(cat, c, p).value
      && r.value.potassium == RecommendPotassium(cat, c, k, strawRemoved).value
      && r.value.magnesium == RecommendMagnesium(mg).value
      && r.value.sulfur == RecommendSulfur(cat, c).value
      && r.value.notes == AllNotes(cat[c], c, r.value.nitrogen, strawRemoved)
  {
    var info :- CheckCrop(cat, c);
    var n :- RecommendNitrogen(cat, c, sns, soil);
    var pv :- RecommendPhosphorus(cat, c, p);
    var kv :- RecommendPotassium(cat, c, k, strawRemoved);
    var m :- RecommendMagnesium(mg);
    var s :- RecommendSulfur(cat, c);
    Ok(NutrientRecommendation(info.name, n, pv, kv, m, s, AllNotes(info, c, n, strawRemoved)))
  }

  // ── Properties ──────────────────────────────────────────────────────

  /** The notes come in the order straw, crop note, N-fixing, each at most
      once. */
  lemma AllNotesOrdered(info: CropInfo, c: Crop, n: int, strawRemoved: bool)
    ensures var notes := AllNotes(info, c, n, strawRemoved);
      forall i, j | 0 <= i < j < |notes| :: NoteRank(notes[i]) < NoteRank(notes[j])
  {
    var notes := AllNotes(info, c, n, strawRemoved);
    var a := if info.hasStrawOption then [StrawNote(strawRemoved)] else [];
    var b := if info.notes != "" then [CropNote(info.notes)] else [];
    var d := if n == 0 && (c == Arable(Peas) || c == Arable(FieldBeans)) then [NFixingNote] else [];
    assert notes == a + b + d;
    forall i, j | 0 <= i < j < |notes|
      ensures NoteRank(notes[i]) < NoteRank(notes[j])
    {
      assert forall x | x in a :: NoteRank(x) == 0;
      assert forall x | x in b :: NoteRank(x) == 1;
      assert forall x | x in d :: NoteRank(x) == 2;
      assert notes[i] in a ==> i < |a|;
    }
  }

  /** The straw note appears exactly when the crop has the straw option, the
      crop note exactly when the catalogue has one, and the N-fixing note
      exactly when nitrogen is 0 for peas or field beans; each note carries
      the values it was given. */
  lemma AllNotesCharacterised(info: CropInfo, c: Crop, n: int, strawRemoved: bool)
    ensures var notes := AllNotes(info, c, n, strawRemoved);
      && (StrawNote(strawRemoved) in notes <==> info.hasStrawOption)
      && (forall b :: StrawNote(b) in notes ==> b == strawRemoved)
      && (CropNote(info.notes) in notes <==> info.notes != "")
      && (forall t :: CropNote(t) in notes ==> t == info.notes)
      && (NFixingNote in notes <==> n == 0 && (c == Arable(Peas) || c == Arable(FieldBeans)))
  {
    var notes := AllNotes(info, c, n, strawRemoved);
    var a := if info.hasStrawOption then [StrawNote(strawRemoved)] else [];
    var b := if info.notes != "" then [CropNote(info.notes)] else [];
    var d := if n == 0 && (c == Arable(Peas) || c == Arable(FieldBeans)) then [NFixingNote] else [];
    assert notes == a + b + d;
  }

  /** Peas and field beans recommended without a soil type always carry the
      N-fixing note, because their nitrogen row is 0 throughout. */
  lemma PulsesCarryNFixingNote(cat: Catalogue, c: Crop, sns: int, p: int, k: int, mg: int, strawRemoved: bool)
    requires c == Arable(Peas) || c == Arable(FieldBeans)
    requires RecommendAll(cat, c, sns, p, k, mg, strawRemoved, None).Ok?
    ensures RecommendAll(cat, c, sns, p, k, mg, strawRemoved, None).value.nitrogen == 0
    ensures NFixingNote in RecommendAll(cat, c, sns, p, k, mg, strawRemoved, None).value.notes
  {
    NFixingCropsNeedNoNitrogen(c, sns);
    AllNotesCharacterised(cat[c], c, 0, strawRemoved);
  }

  /** With or without a soil type, the nitrogen of a crop never rises with
      the SNS index. */
  lemma NitrogenNonIncreasingInSns(cat: Catalogue, c: Crop, i: int, j: int, soil: Option<string>)
    requires i <= j
    requires RecommendNitrogen(cat, c, i, soil).Ok? && RecommendNitrogen(cat, c, j, soil).Ok?
    ensures RecommendNitrogen(cat, c, i, soil).value >= RecommendNitrogen(cat, c, j, soil).value
  {
    if soil.Some? {
      var t := ParseSoilType(soil.value).value;
      assert RecommendNitrogen(cat, c, i, soil) == SoilSpecificN(c, i, t).ToResult(NoSoilSpecificData);
      assert RecommendNitrogen(cat, c, j, soil) == SoilSpecificN(c, j, t).ToResult(NoSoilSpecificData);
      SoilSpecificNonIncreasing(t, i, j);
    } else {
      var r := GenericNRow(c.arable);
      Row7Descending(r);
      assert r[i] >= r[j];
    }
  }

  /** Any P, K or Mg index from 4 to 9 gives the same result as index 4. */
  lemma IndicesAboveFourClamp(cat: Catalogue, c: Crop, i: int, strawRemoved: bool)
    requires 4 <= i <= 9
    ensures RecommendPhosphorus(cat, c, i) == RecommendPhosphorus(cat, c, 4)
    ensures RecommendPotassium(cat, c, i, strawRemoved) == RecommendPotassium(cat, c, 4, strawRemoved)
    ensures RecommendMagnesium(i) == RecommendMagnesium(4)
  {
  }

  /** Every index outside 0..9 is rejected for P, K and Mg alike. */
  lemma IndicesOutsideRangeFail(cat: Catalogue, c: Crop, i: int, strawRemoved: bool)
    requires c in cat && !(0 <= i <= 9)
    ensures RecommendPhosphorus(cat, c, i) == Err(IndexOutOfRange)
    ensures RecommendPotassium(cat, c, i, strawRemoved) == Err(IndexOutOfRange)
    ensures RecommendMagnesium(i) == Err(IndexOutOfRange)
  {
  }

  /** A listed arable crop gets no phosphate at P index 4 and over, so index 7 gives 0. */
  lemma PhosphateZeroAtHighIndex(cat: Catalogue, a: ArableCrop, p: int)
    requires Arable(a) in cat && 4 <= p <= 9
    ensures RecommendPhosphorus(cat, Arable(a), p) == Ok(0)
  {
    GenericPhosphateZeroAtFour(a);
  }

  /** Arable magnesium is 90 at index 0, 60 at index 1 and 0 from 2 to 9. */
  lemma MagnesiumValues(mg: int)
    requires 0 <= mg <= 9
    ensures RecommendMagnesium(mg) == Ok(if mg == 0 then 90 else if mg == 1 then 60 else 0)
  {
    VegMgAtLeastArable(ClampIndex(mg, 4));
  }

  /** For a listed cereal with the straw option, straw removed never needs
      less potash than straw incorporated. */
  lemma StrawRemovedNeedsMorePotash(cat: Catalogue, a: ArableCrop, k: int)
    requires Arable(a) in cat && cat[Arable(a)].hasStrawOption && IsCereal(a) && 0 <= k <= 9
    ensures RecommendPotassium(cat, Arable(a), k, true).Ok? && RecommendPotassium(cat, Arable(a), k, false).Ok?
    ensures RecommendPotassium(cat, Arable(a), k, true).value >= RecommendPotassium(cat, Arable(a), k, false).value
  {
    StrawRemovedAtLeastIncorporated(a, ClampIndex(k, 4));
  }

  /** Every fruit crop fails in recommend_sulfur, and hence in recommend_all. */
  lemma FruitHasNoSulfur(cat: Catalogue, f: FruitCrop)
    requires Fruit(f) in cat
    ensures RecommendSulfur(cat, Fruit(f)) == Err(NoSulfurData)
  {
  }

  /** The shown engine never reads the vegetable tables: nitrogen without a
      soil type, and phosphate, fail for every listed vegetable. */
  lemma VegetablesNotLookedUp(cat: Catalogue, v: VegCrop, sns: int, p: int)
    requires Veg(v) in cat && 0 <= sns <= 6 && 0 <= p <= 9
    ensures RecommendNitrogen(cat, Veg(v), sns, None) == Err(NoNitrogenData)
    ensures RecommendPhosphorus(cat, Veg(v), p) == Err(NoPhosphorusData)
  {
  }

  /** With a soil type, every crop except winter wheat (feed) fails, and so does
      winter wheat on organic soil at SNS 0..2. */
  lemma SoilSpecificOnlyForFeedWheat(cat: Catalogue, c: Crop, sns: int, soil: SoilType)
    requires c in cat && 0 <= sns <= 6
    ensures RecommendNitrogen(cat, c, sns, Some(SoilTypeName(soil))).Ok? <==>
      c == Arable(WinterWheatFeed) && !(soil == OrganicSoil && sns < 3)
  {
    ParseSoilTypeExact(SoilTypeName(soil), soil);
  }
}
