/** The engine's Soil Nitrogen Supply calculations: field assessment, SMN
    measurement, grass-ley history, and the vegetable field and SMN methods. */
module Sns {
  import opened Outcomes
  import opened Crops
  import opened Rows
  import opened SnsData

  datatype SnsMethod = FieldAssessment | SmnMeasurement | Table46 | VegFieldAssessment | Combined

  /** The advisory notes of an SNS result, as tagged values carrying the
      numbers the engine's sentences print. */
  datatype SnsNote =
    | ResidueNote(previousCrop: string, category: NResidue)
    | SmnNote(smn: real)
    | CropNNote(cropN: real)
    | TotalSnsNote(total: real, index: int)
    | LeyHistoryNote(age: string, intensity: string, management: string, soil: string, rainfall: string, year: int)
    | VegIndexNote(previousCrop: string, index: int)
    | FactsAdvisoryNote(vegSoil: VegSoil, index: int)

  /** The engine's SNSResult; a field the method does not set is None. */
  datatype SnsResult = SnsResult(
    snsIndex: int,
    how: SnsMethod,
    previousCrop: Option<string>,
    soilType: Option<string>,
    rainfall: Option<string>,
    smn: Option<real>,
    cropN: Option<real>,
    snsValue: Option<real>,
    notes: seq<SnsNote>)

  // ── Field assessment ────────────────────────────────────────────────

  /** calculate_sns: the previous crop is valid exactly when the residue table
      has it; then soil and rainfall are checked, in that order. */
  function CalculateSns(residues: ResidueTable, previousCrop: string, soil: string, rain: string): (r: Result<SnsResult>)
    ensures previousCrop !in residues ==> r == Err(UnknownPreviousCrop)
    ensures previousCrop in residues && ParseSoilType(soil).None? ==> r == Err(UnknownSoilType)
    ensures previousCrop in residues && ParseSoilType(soil).Some? && ParseRainfall(rain).None? ==> r == Err(UnknownRainfall)
    ensures r.Ok? <==> previousCrop in residues && ParseSoilType(soil).Some? && ParseRainfall(rain).Some?
    ensures r.Ok? ==> 0 <= r.value.snsIndex <= 6 && r.value.how == FieldAssessment
    ensures r.Ok? ==>
      r.value.snsIndex == FieldSnsIndex(residues[previousCrop], ParseSoilType(soil).value, ParseRainfall(rain).value)
      && r.value.notes == [ResidueNote(previousCrop, residues[previousCrop])]
  {
    if previousCrop !in residues then Err(UnknownPreviousCrop)
    else
      var s :- ParseSoilType(soil).ToResult(UnknownSoilType);
      var w :- ParseRainfall(rain).ToResult(UnknownRainfall);
      var category := residues[previousCrop];
      Ok(SnsResult(FieldSnsIndex(category, s, w), FieldAssessment,
                   Some(previousCrop), Some(soil), Some(rain), None, None, None,
                   [ResidueNote(previousCrop, category)]))
  }

  // ── SNS value to index (Table 4.10) ─────────────────────────────────

  /** The specification of sns_value_to_index: the index paired with the first
      bound that admits the value, 6 above every bound, and an error below 0. */
  function SnsIndexOf(v: real): Result<int> {
    if v < 0.0 then Err(NegativeInput) else Ok(FirstMatch(SNS_VALUE_TO_INDEX, v, 6))
  }

  /** sns_value_to_index: the first-match loop with early return. */
  method SnsValueToIndex(v: real) returns (r: Result<int>)
    ensures r == SnsIndexOf(v)
  {
    if v < 0.0 {
      return Err(NegativeInput);
    }
    var i := 0;
    while i < |SNS_VALUE_TO_INDEX|
      invariant 0 <= i <= |SNS_VALUE_TO_INDEX|
      invariant forall j | 0 <= j < i :: !Admits(SNS_VALUE_TO_INDEX[j].0, v)
    {
      var (bound, index) := SNS_VALUE_TO_INDEX[i];
      if Admits(bound, v) {
        FirstAdmittingIs(SNS_VALUE_TO_INDEX, v, i);
        return Ok(index);
      }
      i := i + 1;
    }
    FirstAdmittingIs(SNS_VALUE_TO_INDEX, v, i);
    return Ok(6);
  }

  /** The position the loop stops at is the first admitting one. */
  lemma FirstAdmittingIs(t: seq<(UpperBound, int)>, v: real, i: nat)
    requires i <= |t|
    requires forall j | 0 <= j < i :: !Admits(t[j].0, v)
    requires i < |t| ==> Admits(t[i].0, v)
    ensures FirstAdmitting(t, v) == i
  {
  }

  /** The bound of Table 4.10 at position i < 6. */
  function SnsBound(i: int): real
    requires 0 <= i < 6
  {
    SNS_VALUE_TO_INDEX[i].0.limit
  }

  /** A value v >= 0 gets index i exactly when it exceeds the bound below i
      and is within the bound of i (index 6 has no upper bound). */
  lemma SnsIndexCharacterised(v: real)
    requires v >= 0.0
    ensures SnsIndexOf(v).Ok?
    ensures var i := SnsIndexOf(v).value;
      0 <= i <= 6 && (i < 6 ==> v <= SnsBound(i)) && (i > 0 ==> v > SnsBound(i - 1))
  {
    SnsValueTableShape();
    var p := FirstAdmitting(SNS_VALUE_TO_INDEX, v);
    assert SNS_VALUE_TO_INDEX[p].1 == p;
  }

  /** A larger SNS value never gives a smaller index. */
  lemma SnsIndexMonotone(v: real, w: real)
    requires 0.0 <= v <= w
    ensures SnsIndexOf(v).value <= SnsIndexOf(w).value
  {
    SnsValueTableShape();
    FirstAdmittingMonotone(SNS_VALUE_TO_INDEX, v, w);
    var p := FirstAdmitting(SNS_VALUE_TO_INDEX, v);
    var q := FirstAdmitting(SNS_VALUE_TO_INDEX, w);
    assert SNS_VALUE_TO_INDEX[p].1 == p;
    assert SNS_VALUE_TO_INDEX[q].1 == q;
  }

  /** The boundary values of Table 4.10. */
  lemma SnsIndexBoundaries()
    ensures SnsIndexOf(0.0) == Ok(0) && SnsIndexOf(60.0) == Ok(0) && SnsIndexOf(61.0) == Ok(1)
    ensures SnsIndexOf(240.0) == Ok(5) && SnsIndexOf(241.0) == Ok(6)
    ensures SnsIndexOf(-1.0) == Err(NegativeInput)
  {
    SnsIndexCharacterised(0.0);
    SnsIndexCharacterised(60.0);
    SnsIndexCharacterised(61.0);
    SnsIndexCharacterised(240.0);
    SnsIndexCharacterised(241.0);
  }

  // ── SMN measurement ─────────────────────────────────────────────────

  /** calculate_smn_sns: SMN is checked before crop N; the SNS value is their
      sum and the index is that value's Table 4.10 index. */
  function CalculateSmnSns(smn: real, cropN: real): (r: Result<SnsResult>)
    ensures smn < 0.0 ==> r == Err(NegativeInput)
    ensures cropN < 0.0 ==> r == Err(NegativeInput)
    ensures r.Ok? <==> smn >= 0.0 && cropN >= 0.0
    ensures r.Ok? ==>
      r.value.snsValue == Some(smn + cropN) && r.value.how == SmnMeasurement
      && Ok(r.value.snsIndex) == SnsIndexOf(smn + cropN)
      && 0 <= r.value.snsIndex <= 6
      && r.value.notes == [SmnNote(smn), CropNNote(cropN), TotalSnsNote(smn + cropN, r.value.snsIndex)]
  {
    if smn < 0.0 then Err(NegativeInput)
    else if cropN < 0.0 then Err(NegativeInput)
    else
      var total := smn + cropN;
      SnsIndexCharacterised(total);
      var index := SnsIndexOf(total).value;
      Ok(SnsResult(index, SmnMeasurement, None, None, None, Some(smn), Some(cropN), Some(total),
                   [SmnNote(smn), CropNNote(cropN), TotalSnsNote(total, index)]))
  }

  /** Worked example 4.3: SMN 115 plus crop N 25 is 140 kg N/ha, index 4. */
  lemma SmnWorkedExample()
    ensures CalculateSmnSns(115.0, 25.0).Ok?
    ensures CalculateSmnSns(115.0, 25.0).value.snsValue == Some(140.0)
    ensures CalculateSmnSns(115.0, 25.0).value.snsIndex == 4
  {
    SnsIndexCharacterised(140.0);
  }

  // ── Grass-ley history (Table 4.6) ───────────────────────────────────

  datatype LeyAge = ShortLey | MediumLey

  function LeyAgeName(a: LeyAge): string {
    match a
    case ShortLey => "1-2yr"
    case MediumLey => "3-5yr"
  }

  function ParseLeyAge(s: string): (r: Option<LeyAge>)
    ensures r.Some? ==> LeyAgeName(r.value) == s
  {
    if s == "1-2yr" then Some(ShortLey) else if s == "3-5yr" then Some(MediumLey) else None
  }

  datatype NIntensity = LowIntensity | HighIntensity

  function IntensityName(n: NIntensity): string {
    match n
    case LowIntensity => "low"
    case HighIntensity => "high"
  }

  function ParseIntensity(s: string): (r: Option<NIntensity>)
    ensures r.Some? ==> IntensityName(r.value) == s
  {
    if s == "low" then Some(LowIntensity) else if s == "high" then Some(HighIntensity) else None
  }

  datatype LeyManagement = CutLey | GrazedLey | CutThenGrazed

  function ManagementName(m: LeyManagement): string {
    match m
    case CutLey => "cut"
    case GrazedLey => "grazed"
    case CutThenGrazed => "1-cut-then-grazed"
  }

  function ParseManagement(s: string): (r: Option<LeyManagement>)
    ensures r.Some? ==> ManagementName(r.value) == s
  {
    if s == "cut" then Some(CutLey)
    else if s == "grazed" then Some(GrazedLey)
    else if s == "1-cut-then-grazed" then Some(CutThenGrazed)
    else None
  }

  /** The Table 4.6 soil category: heavy soil splits by rainfall. */
  function LeyCategoryOf(s: SoilType, w: Rainfall): (cat: LeySoilCategory)
    requires !s.OrganicSoil?
    ensures s.HeavySoil? ==> (cat == LeyHeavyLow <==> w.LowRainfall?)
    ensures s.HeavySoil? <==> cat.LeyHeavyLow? || cat.LeyHeavyMediumHigh?
    ensures s.LightSoil? <==> cat.LeyLight?
  {
    match s
    case LightSoil => LeyLight
    case MediumSoil => LeyMedium
    case HeavySoil => if w.LowRainfall? then LeyHeavyLow else LeyHeavyMediumHigh
  }

  /** The grazed-or-mixed condition of the engine's second branch. */
  predicate GrazedOrMixed(a: LeyAge, n: NIntensity, m: LeyManagement) {
    (n.HighIntensity? && m.GrazedLey?)
    || (a.MediumLey? && n.LowIntensity? && m.GrazedLey?)
    || (a.MediumLey? && n.HighIntensity? && m.CutThenGrazed?)
  }

  /** The ley row: the 3-5yr high-N grazed test comes first, so it wins even
      though that combination also satisfies the grazed-or-mixed condition. */
  function LeyRowOf(a: LeyAge, n: NIntensity, m: LeyManagement): (row: LeyRow)
    ensures row == HighNGrazed35yr <==> a.MediumLey? && n.HighIntensity? && m.GrazedLey?
    ensures row == HighNGrazedOrMixed <==> GrazedOrMixed(a, n, m) && !(a.MediumLey? && n.HighIntensity? && m.GrazedLey?)
    ensures row == LowNOrCut <==> !GrazedOrMixed(a, n, m)
  {
    if a.MediumLey? && n.HighIntensity? && m.GrazedLey? then HighNGrazed35yr
    else if GrazedOrMixed(a, n, m) then HighNGrazedOrMixed
    else LowNOrCut
  }

  /** calculate_grass_ley_sns: checks age, intensity, management, soil type,
      organic soil, rainfall and year, in that order. */
  function CalculateGrassLeySns(age: string, intensity: string, management: string,
                                soil: string, rain: string, year: int): (r: Result<SnsResult>)
    ensures ParseLeyAge(age).None? ==> r == Err(UnknownLeyAge)
    ensures (ParseLeyAge(age).Some? && ParseIntensity(intensity).None?) ==> r == Err(UnknownIntensity)
    ensures (ParseLeyAge(age).Some? && ParseIntensity(intensity).Some? && ParseManagement(management).None?) ==>
      r == Err(UnknownManagement)
    ensures (ParseLeyAge(age).Some? && ParseIntensity(intensity).Some? && ParseManagement(management).Some?
             && ParseSoilType(soil).None?) ==> r == Err(UnknownSoilType)
    ensures (ParseLeyAge(age).Some? && ParseIntensity(intensity).Some? && ParseManagement(management).Some?
             && ParseSoilType(soil).Some? && soil != "organic" && ParseRainfall(rain).None?) ==>
      r == Err(UnknownRainfall)
    ensures (ParseLeyAge(age).Some? && ParseIntensity(intensity).Some? && ParseManagement(management).Some?
             && ParseSoilType(soil).Some? && soil != "organic" && ParseRainfall(rain).Some? && !(1 <= year <= 3)) ==>
      r == Err(YearOutOfRange)
    ensures (soil == "organic" && ParseLeyAge(age).Some? && ParseIntensity(intensity).Some?
             && ParseManagement(management).Some?) ==> r == Err(OrganicSoilNotCovered)
    ensures r.Ok? <==>
      ParseLeyAge(age).Some? && ParseIntensity(intensity).Some? && ParseManagement(management).Some?
      && ParseSoilType(soil).Some? && soil != "organic" && ParseRainfall(rain).Some? && 1 <= year <= 3
    ensures r.Ok? ==>
      var cat := LeyCategoryOf(ParseSoilType(soil).value, ParseRainfall(rain).value);
      var row := LeyRowOf(ParseLeyAge(age).value, ParseIntensity(intensity).value, ParseManagement(management).value);
      r.value.snsIndex == YearOf(GrassLeyIndices(cat, row), year)
      && 0 <= r.value.snsIndex <= 6 && r.value.how == Table46
    ensures r.Ok? ==>
      && r.value.soilType == Some(soil) && r.value.rainfall == Some(rain)
      && r.value.previousCrop.None? && r.value.smn.None? && r.value.cropN.None? && r.value.snsValue.None?
      && r.value.notes == [LeyHistoryNote(age, intensity, management, soil, rain, year)]
  {
    var a :- ParseLeyAge(age).ToResult(UnknownLeyAge);
    var n :- ParseIntensity(intensity).ToResult(UnknownIntensity);
    var m :- ParseManagement(management).ToResult(UnknownManagement);
    var s :- ParseSoilType(soil).ToResult(UnknownSoilType);
    if s.OrganicSoil? then Err(OrganicSoilNotCovered)
    else
      var w :- ParseRainfall(rain).ToResult(UnknownRainfall);
      if !(1 <= year <= 3) then Err(YearOutOfRange)
      else
        var index := YearOf(GrassLeyIndices(LeyCategoryOf(s, w), LeyRowOf(a, n, m)), year);
        Ok(SnsResult(index, Table46, None, Some(soil), Some(rain), None, None, None,
                     [LeyHistoryNote(age, intensity, management, soil, rain, year)]))
  }

  /** Worked example 4.4: a 3-5yr high-N ley cut once then grazed, on medium
      soil with medium rainfall, gives indices 2, 2 and 1 in years 1 to 3. */
  lemma GrassLeyWorkedExample()
    ensures CalculateGrassLeySns("3-5yr", "high", "1-cut-then-grazed", "medium", "medium", 1).value.snsIndex == 2
    ensures CalculateGrassLeySns("3-5yr", "high", "1-cut-then-grazed", "medium", "medium", 2).value.snsIndex == 2
    ensures CalculateGrassLeySns("3-5yr", "high", "1-cut-then-grazed", "medium", "medium", 3).value.snsIndex == 1
  {
  }

  // ── Combined assessment (reconstruction) ────────────────────────────

  /** combine_sns: of two assessments of the same field the one with the
      higher index is kept, the first on a tie; the result is labelled
      "combined" and carries the notes of both, the first assessment's first. */
  function CombineSns(a: SnsResult, b: SnsResult): (r: SnsResult)
    ensures r.snsIndex >= a.snsIndex && r.snsIndex >= b.snsIndex
    ensures r.snsIndex == a.snsIndex || r.snsIndex == b.snsIndex
    ensures r.how == Combined && r.notes == a.notes + b.notes
    ensures var w := if a.snsIndex >= b.snsIndex then a else b;
      r == w.(how := Combined, notes := a.notes + b.notes)
  {
    var winner := if b.snsIndex > a.snsIndex then b else a;
    winner.(how := Combined, notes := a.notes + b.notes)
  }

  /** The combined index does not depend on the order of the assessments,
      and combining an index with one no higher leaves it unchanged. */
  lemma CombineSnsIndexSymmetric(a: SnsResult, b: SnsResult)
    ensures CombineSns(a, b).snsIndex == CombineSns(b, a).snsIndex
    ensures b.snsIndex <= a.snsIndex ==> CombineSns(a, b).snsIndex == a.snsIndex
  {
  }

  /** calculate_sns with a grass history: the field assessment combined with
      the Table 4.6 index of the ley in the given year, for the same soil and
      rainfall. The field assessment is checked first. */
  function CalculateSnsWithLey(residues: ResidueTable, previousCrop: string, soil: string, rain: string,
                               age: string, intensity: string, management: string, year: int): (r: Result<SnsResult>)
    ensures r.Ok? <==>
      CalculateSns(residues, previousCrop, soil, rain).Ok?
      && CalculateGrassLeySns(age, intensity, management, soil, rain, year).Ok?
    ensures CalculateSns(residues, previousCrop, soil, rain).Err? ==>
      r == Err(CalculateSns(residues, previousCrop, soil, rain).error)
    ensures r.Ok? ==>
      var field := CalculateSns(residues, previousCrop, soil, rain).value.snsIndex;
      var ley := CalculateGrassLeySns(age, intensity, management, soil, rain, year).value.snsIndex;
      r.value.how == Combined && r.value.snsIndex == if field >= ley then field else ley
  {
    var field :- CalculateSns(residues, previousCrop, soil, rain);
    var ley :- CalculateGrassLeySns(age, intensity, management, soil, rain, year);
    Ok(CombineSns(field, ley))
  }

  /** Worked example 4.5: after cereals (low residues) on heavy soil with
      high rainfall the field assessment gives index 1, and year 2 after a
      1-2 year high-N grazed ley gives index 2; the combined index is 2. */
  lemma CombinedWorkedExample(residues: ResidueTable)
    requires "cereals" in residues && residues["cereals"] == LowResidue
    ensures CalculateSns(residues, "cereals", "heavy", "high").value.snsIndex == 1
    ensures CalculateGrassLeySns("1-2yr", "high", "grazed", "heavy", "high", 2).value.snsIndex == 2
    ensures CalculateSnsWithLey(residues, "cereals", "heavy", "high", "1-2yr", "high", "grazed", 2).value.snsIndex == 2
    ensures CalculateSnsWithLey(residues, "cereals", "heavy", "high", "1-2yr", "high", "grazed", 2).value.how == Combined
  {
  }

  // ── Vegetable field assessment (reconstruction) ─────────────────────

  /** calculate_veg_sns as its callers use it: the previous crop, soil and
      rainfall are checked in that order; mineral soils read Tables 6.2-6.4,
      organic soil gets advisory index 4 and peat index 5, each with a note
      pointing to the FACTS adviser. */
  function CalculateVegSns(previousCrop: string, soil: string, rain: string): (r: Result<SnsResult>)
    ensures ParseVegPreviousCrop(previousCrop).None? ==> r == Err(UnknownPreviousCrop)
    ensures (ParseVegPreviousCrop(previousCrop).Some? && ParseVegSoil(soil).None?) ==> r == Err(UnknownSoilType)
    ensures (ParseVegPreviousCrop(previousCrop).Some? && ParseVegSoil(soil).Some? && ParseVegRainfall(rain).None?) ==>
      r == Err(UnknownRainfall)
    ensures r.Ok? <==>
      ParseVegPreviousCrop(previousCrop).Some? && ParseVegSoil(soil).Some? && ParseVegRainfall(rain).Some?
    ensures r.Ok? ==> r.value.how == VegFieldAssessment && 0 <= r.value.snsIndex <= 6
    ensures r.Ok? && soil == "organic" ==> r.value.snsIndex == 4 && r.value.notes == [FactsAdvisoryNote(VegOrganic, 4)]
    ensures r.Ok? && soil == "peat" ==> r.value.snsIndex == 5 && r.value.notes == [FactsAdvisoryNote(Peat, 5)]
    ensures r.Ok? && IsMineral(ParseVegSoil(soil).value) ==>
      Some(r.value.snsIndex) == VegFieldSnsIndex(ParseVegPreviousCrop(previousCrop).value,
                                                 ParseVegSoil(soil).value, ParseVegRainfall(rain).value)
      && r.value.notes == [VegIndexNote(previousCrop, r.value.snsIndex)]
    ensures r.Ok? ==>
      && r.value.previousCrop == Some(previousCrop) && r.value.soilType == Some(soil) && r.value.rainfall == Some(rain)
      && r.value.smn.None? && r.value.cropN.None? && r.value.snsValue.None?
  {
    var p :- ParseVegPreviousCrop(previousCrop).ToResult(UnknownPreviousCrop);
    var s :- ParseVegSoil(soil).ToResult(UnknownSoilType);
    var w :- ParseVegRainfall(rain).ToResult(UnknownRainfall);
    VegFieldTableCoverage(p, s, w);
    var index :=
      match s
      case VegOrganic => 4
      case Peat => 5
      case _ => VegFieldSnsIndex(p, s, w).value;
    var notes := if IsMineral(s) then [VegIndexNote(previousCrop, index)] else [FactsAdvisoryNote(s, index)];
    Ok(SnsResult(index, VegFieldAssessment, Some(previousCrop), Some(soil), Some(rain), None, None, None, notes))
  }

  /** The arable soil "heavy" and the arable rainfall "medium" are not
      vegetable classes. */
  lemma VegSnsRejectsArableClasses()
    ensures CalculateVegSns("cereals", "heavy", "low") == Err(UnknownSoilType)
    ensures CalculateVegSns("cereals", "medium", "medium") == Err(UnknownRainfall)
    ensures CalculateVegSns("winter-wheat", "medium", "low") == Err(UnknownPreviousCrop)
  {
  }

  // ── Vegetable SMN to index (reconstruction) ─────────────────────────

  /** smn_to_sns_index_veg: a negative SMN or a depth other than 30, 60 or 90
      fails; otherwise the first admitting threshold's index, and 6 above the
      last threshold. */
  function SmnToSnsIndexVeg(smn: real, depth: int): (r: Result<int>)
    ensures r.Ok? <==> smn >= 0.0 && (depth == 30 || depth == 60 || depth == 90)
    ensures smn < 0.0 ==> r == Err(NegativeInput)
    ensures smn >= 0.0 && VegSmnThresholds(depth).None? ==> r == Err(UnknownDepth)
    ensures r.Ok? ==> 0 <= r.value <= 6
    ensures r.Ok? ==> var t := VegSmnThresholds(depth).value;
      (r.value == 6 <==> smn > t[5].0.limit)
      && (r.value < 6 ==> smn <= t[r.value].0.limit && (r.value > 0 ==> smn > t[r.value - 1].0.limit))
  {
    if smn < 0.0 then Err(NegativeInput)
    else
      var t :- VegSmnThresholds(depth).ToResult(UnknownDepth);
      VegSmnThresholdShape(depth);
      var p := FirstAdmitting(t, smn);
      if p < |t| then assert t[p].1 == p; Ok(t[p].1)
      else Ok(6)
  }

  /** Boundaries of Table 6.6 at a depth of 30 cm. */
  lemma VegSmnBoundaries30()
    ensures SmnToSnsIndexVeg(19.9, 30) == Ok(0) && SmnToSnsIndexVeg(20.0, 30) == Ok(1)
    ensures SmnToSnsIndexVeg(81.0, 30) == Ok(6)
  {
  }

  /** Boundaries of Table 6.6 at 60 and 90 cm; other depths are not in the table. */
  lemma VegSmnBoundariesDeeper()
    ensures SmnToSnsIndexVeg(161.0, 60) == Ok(6)
    ensures SmnToSnsIndexVeg(59.9, 90) == Ok(0) && SmnToSnsIndexVeg(60.0, 90) == Ok(1)
    ensures SmnToSnsIndexVeg(50.0, 45) == Err(UnknownDepth)
  {
  }
}
