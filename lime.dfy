/** calculate_lime: the lime needed to raise soil pH to a target. */
module Lime {
  import opened Outcomes
  import opened Crops
  import opened Rounding

  /** The lime constants: tonnes of lime per pH unit for each soil type, and
      the largest single application. They are read from a module outside
      this model, so they are a parameter here. */
  datatype LimeConstants = LimeConstants(
    light: real, medium: real, heavy: real, organic: real,
    maxSingleApplication: real)

  /** The assumption the lime constants are expected to meet: every factor
      is positive. */
  predicate PositiveFactors(k: LimeConstants) {
    k.light > 0.0 && k.medium > 0.0 && k.heavy > 0.0 && k.organic > 0.0
  }

  /** LIME_FACTORS[soil_type]. */
  function LimeFactor(k: LimeConstants, t: SoilType): real {
    match t
    case LightSoil => k.light
    case MediumSoil => k.medium
    case HeavySoil => k.heavy
    case OrganicSoil => k.organic
  }

  datatype LimeNote =
    | NoLimeRequired                               // pH already at or above target
    | SplitDressing(total: real, maximum: real)    // total exceeds one application

  datatype LimeRecommendation = LimeRecommendation(
    currentPh: real,
    targetPh: real,
    soilType: string,
    limeRequired: real,
    notes: seq<LimeNote>)

  /** The lime for a pH deficit, rounded to one decimal place. */
  function LimeForDeficit(k: LimeConstants, t: SoilType, deficit: real): real {
    Round1(Scale(deficit, LimeFactor(k, t)))
  }

  /** calculate_lime. The soil type is checked first, then the current pH
      (3 to 9), then the target pH (4 to 8.5). At or above target no lime is
      needed; otherwise the deficit times the soil factor, with a split note
      exactly when that exceeds the single-application ceiling. */
  function CalculateLime(k: LimeConstants, currentPh: real, targetPh: real, soil: string): (r: Result<LimeRecommendation>)
    ensures ParseSoilType(soil).None? ==> r == Err(UnknownSoilType)
    ensures ParseSoilType(soil).Some? && !(3.0 <= currentPh <= 9.0) ==> r == Err(CurrentPhOutOfRange)
    ensures ParseSoilType(soil).Some? && 3.0 <= currentPh <= 9.0 && !(4.0 <= targetPh <= 8.5) ==>
      r == Err(TargetPhOutOfRange)
    ensures r.Ok? <==> ParseSoilType(soil).Some? && 3.0 <= currentPh <= 9.0 && 4.0 <= targetPh <= 8.5
    ensures r.Ok? ==> r.value.currentPh == currentPh && r.value.targetPh == targetPh && r.value.soilType == soil
    ensures r.Ok? && currentPh >= targetPh ==> r.value.limeRequired == 0.0 && r.value.notes == [NoLimeRequired]
    ensures r.Ok? && currentPh < targetPh ==>
      && r.value.limeRequired == LimeForDeficit(k, ParseSoilType(soil).value, targetPh - currentPh)
      && (r.value.notes == [] || r.value.notes == [SplitDressing(r.value.limeRequired, k.maxSingleApplication)])
      && (r.value.notes != [] <==> r.value.limeRequired > k.maxSingleApplication)
  {
    var t :- ParseSoilType(soil).ToResult(UnknownSoilType);
    if !(3.0 <= currentPh <= 9.0) then Err(CurrentPhOutOfRange)
    else if !(4.0 <= targetPh <= 8.5) then Err(TargetPhOutOfRange)
    else if currentPh >= targetPh then
      Ok(LimeRecommendation(currentPh, targetPh, soil, 0.0, [NoLimeRequired]))
    else
      var lime := LimeForDeficit(k, t, targetPh - currentPh);
      var notes := if lime > k.maxSingleApplication then [SplitDressing(lime, k.maxSingleApplication)] else [];
      Ok(LimeRecommendation(currentPh, targetPh, soil, lime, notes))
  }

  /** With positive factors the lime required is never negative, and it is
      within 0.05 t/ha of the exact deficit times factor. */
  lemma LimeNonNegativeAndClose(k: LimeConstants, currentPh: real, targetPh: real, soil: string)
    requires PositiveFactors(k)
    requires CalculateLime(k, currentPh, targetPh, soil).Ok?
    ensures CalculateLime(k, currentPh, targetPh, soil).value.limeRequired >= 0.0
    ensures currentPh < targetPh ==>
      var exact := Scale(targetPh - currentPh, LimeFactor(k, ParseSoilType(soil).value));
      exact - 0.05 <= CalculateLime(k, currentPh, targetPh, soil).value.limeRequired <= exact + 0.05
  {
    if currentPh < targetPh {
      var t := ParseSoilType(soil).value;
      ScaleMonotone(0.0, targetPh - currentPh, LimeFactor(k, t));
      Round1NonNegative(Scale(targetPh - currentPh, LimeFactor(k, t)));
    }
  }

  /** Raising the target pH, for the same current pH and soil, never lowers
      the lime required. */
  lemma LimeMonotoneInTarget(k: LimeConstants, currentPh: real, target1: real, target2: real, soil: string)
    requires PositiveFactors(k) && target1 <= target2
    requires CalculateLime(k, currentPh, target1, soil).Ok? && CalculateLime(k, currentPh, target2, soil).Ok?
    ensures CalculateLime(k, currentPh, target1, soil).value.limeRequired
         <= CalculateLime(k, currentPh, target2, soil).value.limeRequired
  {
    var t := ParseSoilType(soil).value;
    var f := LimeFactor(k, t);
    LimeNonNegativeAndClose(k, currentPh, target2, soil);
    if currentPh < target1 {
      ScaleMonotone(target1 - currentPh, target2 - currentPh, f);
      Round1Monotone(Scale(target1 - currentPh, f), Scale(target2 - currentPh, f));
    }
  }

  /** Worked example: with a heavy-soil factor of 7.5, raising pH 4.5 to 7.5
      needs 22.5 t/ha, which exceeds a ceiling of 7.5 t/ha. */
  lemma HeavySoilExample(k: LimeConstants)
    requires k.heavy == 7.5 && k.maxSingleApplication == 7.5
    ensures CalculateLime(k, 4.5, 7.5, "heavy").Ok?
    ensures CalculateLime(k, 4.5, 7.5, "heavy").value.limeRequired == 22.5
    ensures CalculateLime(k, 4.5, 7.5, "heavy").value.notes == [SplitDressing(22.5, 7.5)]
  {
    assert Scale(7.5 - 4.5, 7.5) == 225 as real / 10.0;
    Round1OfTenths(225);
  }
}
