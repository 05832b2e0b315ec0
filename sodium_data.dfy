/** Sodium tables (kg Na2O/ha): sugar beet by K index (RB209 Table 4.36),
    the flat asparagus rate, the grassland rate and the crops it applies to,
    and the advisory notes attached per crop. */
module SodiumData {
  import opened Outcomes
  import opened Crops
  import opened Rows

  /** SODIUM_RECOMMENDATIONS: sugar beet by K index 0..4. */
  function SugarBeetNaRow(): (r: Row5)
    ensures r[0] == 200 && r[4] == 0
  {
    [200, 200, 100, 0, 0]
  }

  /** SODIUM_FLAT_RATES: a rate that does not depend on any index. */
  function FlatNaRate(c: Crop): (r: Option<int>)
    ensures r.Some? <==> c == Veg(Asparagus)
  {
    if c == Veg(Asparagus) then Some(500) else None
  }

  /** SODIUM_GRASSLAND_RATE. */
  const GrasslandNaRate := 140

  /** SODIUM_GRASSLAND_CROPS. */
  predicate IsGrassland(c: Crop) {
    c == Arable(GrassGrazed) || c == Arable(GrassSilage) || c == Arable(GrassHay) || c == Arable(GrassGrazedOneCut)
  }

  /** The individual sodium notes, in the order the table lists them. */
  datatype SodiumNote =
    | NaCanReplacePotash          // sugar beet: sodium partly replaces potash
    | NaOnlyBelow25AtK2           // sugar beet: at K index 2 only where soil Na < 25 mg/l
    | NaTwoWeeksBeforeSowing      // sugar beet: apply and incorporate before sowing
    | AsparagusResponds           // asparagus: up to 500 at the end of June
    | AsparagusNotInEstYear       // asparagus: none in the establishment year
    | AsparagusEstNoSodium        // asparagus (establishment): no sodium this year
    | CeleryResponsive            // celery: responsive, rate from an adviser
    | NaForLivestockHealth        // grassland: no growth effect, needed by livestock
    | Na140InEarlySpring          // grassland: 140 in early spring where herbage Na is low
    | Na10ForPalatability         // grassland: regular small dressings

  /** The note keys of SODIUM_NOTES; the grassland crops share one key. */
  datatype NoteKey = SugarBeetKey | AsparagusKey | AsparagusEstKey | CeleryKey | GrasslandKey

  function NoteKeyOf(c: Crop): (k: Option<NoteKey>)
    ensures k == Some(GrasslandKey) <==> IsGrassland(c)
  {
    if c == Arable(SugarBeet) then Some(SugarBeetKey)
    else if c == Veg(Asparagus) then Some(AsparagusKey)
    else if c == Veg(AsparagusEst) then Some(AsparagusEstKey)
    else if c == Veg(CelerySeedbed) then Some(CeleryKey)
    else if IsGrassland(c) then Some(GrasslandKey)
    else None
  }

  function NotesOfKey(k: NoteKey): (notes: seq<SodiumNote>)
    ensures |notes| > 0
  {
    match k
    case SugarBeetKey => [NaCanReplacePotash, NaOnlyBelow25AtK2, NaTwoWeeksBeforeSowing]
    case AsparagusKey => [AsparagusResponds, AsparagusNotInEstYear]
    case AsparagusEstKey => [AsparagusEstNoSodium]
    case CeleryKey => [CeleryResponsive]
    case GrasslandKey => [NaForLivestockHealth, Na140InEarlySpring, Na10ForPalatability]
  }
}
