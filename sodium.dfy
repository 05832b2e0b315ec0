/** recommend_sodium, reconstructed: the engine shown imports no sodium
    function, so the lookup order here is the one the sodium tables and their
    documentation describe. Sugar beet reads its K-index table (index
    required, 0..9, clamped to 4), asparagus its flat rate, grassland the
    grassland rate, and every other known crop gets 0. */
module Sodium {
  import opened Outcomes
  import opened Crops
  import opened Rows
  import opened SodiumData
  import Engine

  function RecommendSodium(cat: Catalogue, c: Crop, kIndex: Option<int>): (r: Result<int>)
    ensures c !in cat ==> r == Err(UnknownCrop)
    ensures c in cat && kIndex.Some? && !(0 <= kIndex.value <= 9) ==> r == Err(IndexOutOfRange)
    ensures c in cat && c == Arable(SugarBeet) && kIndex.None? ==> r == Err(MissingKIndex)
    ensures r.Ok? <==> c in cat && (kIndex.Some? ==> 0 <= kIndex.value <= 9) && (c == Arable(SugarBeet) ==> kIndex.Some?)
    ensures r.Ok? && c == Arable(SugarBeet) ==> r.value == SugarBeetNaRow()[Engine.ClampIndex(kIndex.value, 4)]
    ensures r.Ok? && c == Veg(Asparagus) ==> r.value == 500
    ensures r.Ok? && IsGrassland(c) ==> r.value == GrasslandNaRate
    ensures r.Ok? && c != Arable(SugarBeet) && c != Veg(Asparagus) && !IsGrassland(c) ==> r.value == 0
  {
    var _ :- Engine.CheckCrop(cat, c);
    if kIndex.Some? && !(0 <= kIndex.value <= 9) then Err(IndexOutOfRange)
    else if c == Arable(SugarBeet) then
      if kIndex.None? then Err(MissingKIndex)
      else Ok(SugarBeetNaRow()[Engine.ClampIndex(kIndex.value, 4)])
    else if FlatNaRate(c).Some? then Ok(FlatNaRate(c).value)
    else if IsGrassland(c) then Ok(GrasslandNaRate)
    else Ok(0)
  }

  /** The advisory sodium notes of a crop: those of its key, or none. */
  function SodiumNotes(c: Crop): (notes: seq<SodiumNote>)
    ensures notes != [] <==> NoteKeyOf(c).Some?
  {
    match NoteKeyOf(c)
    case Some(k) => NotesOfKey(k)
    case None => []
  }

  /** Sugar-beet sodium never rises with the K index, and every index above
      4 gives the value at 4, which is 0. */
  lemma SugarBeetSodiumNonIncreasing(cat: Catalogue, i: int, j: int)
    requires Arable(SugarBeet) in cat && 0 <= i <= j <= 9
    ensures RecommendSodium(cat, Arable(SugarBeet), Some(i)).value >= RecommendSodium(cat, Arable(SugarBeet), Some(j)).value
    ensures j >= 4 ==> RecommendSodium(cat, Arable(SugarBeet), Some(j)) == Ok(0)
  {
    var r := SugarBeetNaRow();
    Row5Descending(r);
    assert r[Engine.ClampIndex(i, 4)] >= r[Engine.ClampIndex(j, 4)];
  }

  /** A crop that gets sodium always gets a note with it. A crop with notes
      but no sodium is celery, asparagus in its establishment year, or sugar
      beet at K index 3 and over. */
  lemma RateComesWithNotes(cat: Catalogue, c: Crop, kIndex: Option<int>)
    requires RecommendSodium(cat, c, kIndex).Ok?
    ensures RecommendSodium(cat, c, kIndex).value > 0 ==> SodiumNotes(c) != []
    ensures SodiumNotes(c) != [] && RecommendSodium(cat, c, kIndex).value == 0 ==>
      c in {Veg(CelerySeedbed), Veg(AsparagusEst), Arable(SugarBeet)}
  {
    if c == Arable(SugarBeet) {
      assert NoteKeyOf(c) == Some(SugarBeetKey);
    }
  }

  /** The rates the sodium tests pin down. */
  lemma SodiumExamples(cat: Catalogue)
    requires Arable(SugarBeet) in cat && Veg(Asparagus) in cat && Veg(AsparagusEst) in cat
    requires Arable(GrassHay) in cat && Veg(CelerySeedbed) in cat
    ensures RecommendSodium(cat, Arable(SugarBeet), Some(2)) == Ok(100)
    ensures RecommendSodium(cat, Arable(SugarBeet), Some(6)) == Ok(0)
    ensures RecommendSodium(cat, Arable(SugarBeet), Some(10)) == Err(IndexOutOfRange)
    ensures RecommendSodium(cat, Veg(Asparagus), None) == Ok(500)
    ensures RecommendSodium(cat, Veg(AsparagusEst), None) == Ok(0)
    ensures RecommendSodium(cat, Arable(GrassHay), None) == Ok(140)
    ensures RecommendSodium(cat, Veg(CelerySeedbed), None) == Ok(0) && SodiumNotes(Veg(CelerySeedbed)) == [CeleryResponsive]
  {
  }
}
