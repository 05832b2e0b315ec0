/** Yield and break-even-ratio adjustments to a recommendation,
    reconstructed: the engine shown takes neither an expected yield nor a
    break-even ratio, so the formulas here are the ones the yield and BER
    tables document. A yield moves a value by the crop's per-tonne
    coefficient times the distance of the (capped) yield from the baseline;
    a break-even ratio, clamped to the tabulated 2..10, moves cereal nitrogen
    by the change read off the group's points, blending linearly between
    neighbouring points. Each step clamps its result at 0, and the ratio
    applies after the yield. */
module Adjustments {
  import opened Outcomes
  import opened Crops
  import opened YieldData
  import opened BerData
  import Engine

  function Max0(x: real): real {
    if x < 0.0 then 0.0 else x
  }

  /** The expected yield limited to the record's cap, when it has one. */
  function CappedYield(rec: YieldRecord, y: real): (e: real)
    ensures e <= y
    ensures rec.maxYield.Some? ==> e <= rec.maxYield.value
  {
    if rec.maxYield.Some? && y > rec.maxYield.value then rec.maxYield.value else y
  }

  /** (capped yield - baseline) x coefficient: the change a yield makes. */
  function YieldShift(rec: YieldRecord, nut: Nutrient, y: real): real {
    (CappedYield(rec, y) - rec.baseline) * PerTonne(rec, nut)
  }

  /** base + (capped yield - baseline) x coefficient, never below 0. */
  function YieldAdjusted(rec: YieldRecord, nut: Nutrient, base: real, y: real): (r: real)
    ensures r >= 0.0
  {
    Max0(base + YieldShift(rec, nut, y))
  }

  /** The yield step: no yield leaves the value alone; a yield for a crop
      without a record fails. */
  function AdjustForYield(c: Crop, nut: Nutrient, base: real, expectedYield: Option<real>): (r: Result<real>)
    ensures expectedYield.None? ==> r == Ok(base)
    ensures expectedYield.Some? ==> (r.Err? <==> YieldRecordOf(c).None?)
    ensures r.Err? ==> r.error == NoYieldData
    ensures expectedYield.Some? && r.Ok? ==> r.value == YieldAdjusted(YieldRecordOf(c).value, nut, base, expectedYield.value)
  {
    match expectedYield
    case None => Ok(base)
    case Some(y) =>
      match YieldRecordOf(c)
      case None => Err(NoYieldData)
      case Some(rec) => Ok(YieldAdjusted(rec, nut, base, y))
  }

  /** The expected yield equal to the baseline, or a zero coefficient, leaves
      a non-negative value unchanged. */
  lemma YieldAtBaselineUnchanged(rec: YieldRecord, nut: Nutrient, base: real, y: real)
    requires WellFormedRecord(rec) && base >= 0.0
    requires y == rec.baseline || PerTonne(rec, nut) == 0.0
    ensures YieldAdjusted(rec, nut, base, y) == base
  {
  }

  /** Any yield above the cap counts as the cap. */
  lemma YieldAboveCap(rec: YieldRecord, nut: Nutrient, base: real, y: real)
    requires rec.maxYield.Some? && y >= rec.maxYield.value
    ensures YieldAdjusted(rec, nut, base, y) == YieldAdjusted(rec, nut, base, rec.maxYield.value)
  {
    assert CappedYield(rec, y) == CappedYield(rec, rec.maxYield.value);
    assert YieldShift(rec, nut, y) == YieldShift(rec, nut, rec.maxYield.value);
  }

  /** A higher expected yield never lowers the adjusted value. */
  lemma YieldMonotone(rec: YieldRecord, nut: Nutrient, base: real, y1: real, y2: real)
    requires WellFormedRecord(rec) && y1 <= y2
    ensures YieldAdjusted(rec, nut, base, y1) <= YieldAdjusted(rec, nut, base, y2)
  {
    YieldShiftMonotone(rec, nut, y1, y2);
  }

  lemma YieldShiftMonotone(rec: YieldRecord, nut: Nutrient, y1: real, y2: real)
    requires WellFormedRecord(rec) && y1 <= y2
    ensures YieldShift(rec, nut, y1) <= YieldShift(rec, nut, y2)
  {
    var e1, e2 := CappedYield(rec, y1), CappedYield(rec, y2);
    var k := PerTonne(rec, nut);
    assert e1 <= e2;
    assert k >= 0.0;
    ScaleByNonNegative(e1 - rec.baseline, e2 - rec.baseline, k);
    assert YieldShift(rec, nut, y1) == (e1 - rec.baseline) * k;
    assert YieldShift(rec, nut, y2) == (e2 - rec.baseline) * k;
  }

  lemma ScaleByNonNegative(a: real, b: real, k: real)
    requires a <= b && k >= 0.0
    ensures a * k <= b * k
  {
  }

  // ── Break-even ratio ────────────────────────────────────────────────

  /** The change at `x` on the straight line from point `p` to point `q`. */
  function Blend(p: (real, real), q: (real, real), x: real): real
    requires p.0 < q.0
  {
    p.1 + (x - p.0) * ((q.1 - p.1) / (q.0 - p.0))
  }

  /** The bracket search: the first pair of neighbouring points whose right
      ratio is at least `x` (the last pair when none is). */
  function Interpolate(pts: seq<(real, real)>, x: real): real
    requires |pts| >= 2 && AscendingRatios(pts)
    decreases |pts|
  {
    if |pts| == 2 || x <= pts[1].0 then Blend(pts[0], pts[1], x)
    else Interpolate(pts[1..], x)
  }

  /** At a tabulated ratio the interpolation gives that point's change. */
  lemma {:induction false} InterpolateAtPoint(pts: seq<(real, real)>, i: nat)
    requires |pts| >= 2 && AscendingRatios(pts) && i < |pts|
    ensures Interpolate(pts, pts[i].0) == pts[i].1
  {
    if i >= 2 {
      assert pts[1].0 < pts[i].0 by {
        AscendingStrictly(pts, 1, i);
      }
      InterpolateAtPoint(pts[1..], i - 1);
    }
  }

  lemma {:induction false} AscendingStrictly(pts: seq<(real, real)>, i: nat, j: nat)
    requires AscendingRatios(pts) && i < j < |pts|
    ensures pts[i].0 < pts[j].0
    decreases j - i
  {
    if i + 1 < j {
      AscendingStrictly(pts, i + 1, j);
    }
  }

  lemma {:induction false} DescendingStrictly(pts: seq<(real, real)>, i: nat, j: nat)
    requires DescendingChanges(pts) && i < j < |pts|
    ensures pts[i].1 > pts[j].1
    decreases j - i
  {
    if i + 1 < j {
      DescendingStrictly(pts, i + 1, j);
    }
  }

  /** On its segment a falling line lies between its end values and falls. */
  lemma BlendFalls(p: (real, real), q: (real, real), x: real, y: real)
    requires p.0 < q.0 && q.1 <= p.1 && p.0 <= x <= y <= q.0
    ensures q.1 <= Blend(p, q, y) <= Blend(p, q, x) <= p.1
  {
    var d := q.0 - p.0;
    var s := (q.1 - p.1) / d;
    assert s <= 0.0;
    assert s * d == q.1 - p.1;
    NonNegativeTimesNonPositive(y - x, s);
    NonNegativeTimesNonPositive(x - p.0, s);
    NonNegativeTimesNonPositive(q.0 - y, s);
    assert Blend(p, q, x) == p.1 + (x - p.0) * s;
    assert Blend(p, q, y) == p.1 + (y - p.0) * s;
    assert (y - p.0) * s == (x - p.0) * s + (y - x) * s;
    assert (y - p.0) * s == s * d - (q.0 - y) * s;
  }

  lemma NonNegativeTimesNonPositive(a: real, s: real)
    requires a >= 0.0 && s <= 0.0
    ensures a * s <= 0.0
  {
  }

  /** Within the tabulated ratios the change lies between the first and the
      last point's change and never rises as the ratio rises. */
  lemma {:induction false} InterpolateFalls(pts: seq<(real, real)>, x: real, y: real)
    requires |pts| >= 2 && AscendingRatios(pts) && DescendingChanges(pts)
    requires pts[0].0 <= x <= y <= pts[|pts| - 1].0
    ensures pts[|pts| - 1].1 <= Interpolate(pts, y) <= Interpolate(pts, x) <= pts[0].1
    decreases |pts|
  {
    if |pts| == 2 {
      BlendFalls(pts[0], pts[1], x, y);
    } else {
      var rest := pts[1..];
      assert rest[|rest| - 1] == pts[|pts| - 1];
      if y <= pts[1].0 {
        BlendFalls(pts[0], pts[1], x, y);
        DescendingStrictly(pts, 1, |pts| - 1);
      } else if x <= pts[1].0 {
        BlendFalls(pts[0], pts[1], x, pts[1].0);
        InterpolateFalls(rest, pts[1].0, y);
        InterpolateAtPoint(rest, 0);
      } else {
        InterpolateFalls(rest, x, y);
        assert pts[0].1 > pts[1].1;
      }
    }
  }

  /** The ratio clamped to the tabulated range 2..10. */
  function ClampRatio(ratio: real): (x: real)
    ensures 2.0 <= x <= 10.0
    ensures 2.0 <= ratio <= 10.0 ==> x == ratio
  {
    if ratio < 2.0 then 2.0 else if ratio > 10.0 then 10.0 else ratio
  }

  /** The nitrogen change of a group at a break-even ratio. */
  function BerChange(g: BerGroup, ratio: real): real {
    BerTableShape(g);
    Interpolate(BerPoints(g), ClampRatio(ratio))
  }

  /** The BER step: only the wheat and barley groups are affected, and the
      result is never below 0. */
  function ApplyBer(c: Crop, n: real, ber: Option<real>): (r: real)
    ensures ber.None? || BerGroupOf(c).None? ==> r == n
    ensures ber.Some? && BerGroupOf(c).Some? ==> r >= 0.0
  {
    match (ber, BerGroupOf(c))
    case (Some(ratio), Some(g)) => Max0(n + BerChange(g, ratio))
    case _ => n
  }

  /** A higher break-even ratio never gives more nitrogen; at the default 5
      nothing changes; at a tabulated ratio the change is the tabulated one;
      and the change stays within the first and last tabulated changes. */
  lemma BerChangeFalls(g: BerGroup, r1: real, r2: real)
    requires r1 <= r2
    ensures BerChange(g, r2) <= BerChange(g, r1)
    ensures BerPoints(g)[7].1 <= BerChange(g, r1) <= BerPoints(g)[0].1
  {
    BerTableShape(g);
    InterpolateFalls(BerPoints(g), ClampRatio(r1), ClampRatio(r2));
  }

  /** At a tabulated ratio the change is the tabulated one. */
  lemma BerChangeAtPoints(g: BerGroup, i: nat)
    requires i < 8
    ensures BerChange(g, BerPoints(g)[i].0) == BerPoints(g)[i].1
  {
    BerTableShape(g);
    InterpolateAtPoint(BerPoints(g), i);
  }

  /** A ratio outside 2..10 counts as the nearer end. */
  lemma BerChangeClamps(g: BerGroup, ratio: real)
    ensures ratio <= 2.0 ==> BerChange(g, ratio) == BerPoints(g)[0].1
    ensures ratio >= 10.0 ==> BerChange(g, ratio) == BerPoints(g)[7].1
  {
    BerChangeAtPoints(g, 0);
    BerChangeAtPoints(g, 7);
  }

  /** Between points the change is the straight-line blend: wheat at 4.5
      gives +5, barley at 5.5 gives -5 and at 9 gives -22.5. */
  lemma BerBlendExamples()
    ensures BerChange(WheatGroup, 4.5) == 5.0
    ensures BerChange(BarleyGroup, 5.5) == -5.0
    ensures BerChange(BarleyGroup, 9.0) == -22.5
  {
  }

  // ── Adjusted recommendations ────────────────────────────────────────

  /** recommend_nitrogen with the optional expected yield and break-even
      ratio: the engine's value, then the yield step, then the BER step. */
  function RecommendNitrogenAdjusted(cat: Catalogue, c: Crop, sns: int, soil: Option<string>,
                                     expectedYield: Option<real>, ber: Option<real>): (r: Result<real>)
    ensures Engine.RecommendNitrogen(cat, c, sns, soil).Err? ==> r == Err(Engine.RecommendNitrogen(cat, c, sns, soil).error)
    ensures Engine.RecommendNitrogen(cat, c, sns, soil).Ok? ==>
      var base := Engine.RecommendNitrogen(cat, c, sns, soil).value as real;
      match AdjustForYield(c, NitrogenN, base, expectedYield)
      case Err(e) => r == Err(e)
      case Ok(y) => r == Ok(ApplyBer(c, y, ber))
    ensures r.Ok? ==> r.value >= 0.0
  {
    var n :- Engine.RecommendNitrogen(cat, c, sns, soil);
    var y :- AdjustForYield(c, NitrogenN, n as real, expectedYield);
    Ok(ApplyBer(c, y, ber))
  }

  /** recommend_phosphorus with an optional expected yield. */
  function RecommendPhosphorusAdjusted(cat: Catalogue, c: Crop, p: int, expectedYield: Option<real>): (r: Result<real>)
    ensures Engine.RecommendPhosphorus(cat, c, p).Err? ==> r == Err(Engine.RecommendPhosphorus(cat, c, p).error)
    ensures Engine.RecommendPhosphorus(cat, c, p).Ok? ==>
      r == AdjustForYield(c, PhosphateP, Engine.RecommendPhosphorus(cat, c, p).value as real, expectedYield)
  {
    var v :- Engine.RecommendPhosphorus(cat, c, p);
    AdjustForYield(c, PhosphateP, v as real, expectedYield)
  }

  /** recommend_potassium with an optional expected yield. */
  function RecommendPotassiumAdjusted(cat: Catalogue, c: Crop, k: int, strawRemoved: bool,
                                      expectedYield: Option<real>): (r: Result<real>)
    ensures Engine.RecommendPotassium(cat, c, k, strawRemoved).Err? ==>
      r == Err(Engine.RecommendPotassium(cat, c, k, strawRemoved).error)
    ensures Engine.RecommendPotassium(cat, c, k, strawRemoved).Ok? ==>
      r == AdjustForYield(c, PotashK, Engine.RecommendPotassium(cat, c, k, strawRemoved).value as real, expectedYield)
  {
    var v :- Engine.RecommendPotassium(cat, c, k, strawRemoved);
    AdjustForYield(c, PotashK, v as real, expectedYield)
  }

  /** With neither a yield nor a ratio the adjusted value is the engine's,
      and a crop outside the BER groups ignores the ratio. */
  lemma NoAdjustmentIsEngine(cat: Catalogue, c: Crop, sns: int, soil: Option<string>,
                             expectedYield: Option<real>, ber: Option<real>)
    requires Engine.RecommendNitrogen(cat, c, sns, soil).Ok?
    ensures RecommendNitrogenAdjusted(cat, c, sns, soil, None, None) == Ok(Engine.RecommendNitrogen(cat, c, sns, soil).value as real)
    ensures BerGroupOf(c).None? ==>
      RecommendNitrogenAdjusted(cat, c, sns, soil, expectedYield, ber) == RecommendNitrogenAdjusted(cat, c, sns, soil, expectedYield, None)
  {
  }

  /** A higher break-even ratio never raises the adjusted nitrogen. */
  lemma AdjustedNitrogenFallsWithBer(cat: Catalogue, c: Crop, sns: int, soil: Option<string>,
                                     expectedYield: Option<real>, r1: real, r2: real)
    requires r1 <= r2
    requires RecommendNitrogenAdjusted(cat, c, sns, soil, expectedYield, Some(r1)).Ok?
    ensures RecommendNitrogenAdjusted(cat, c, sns, soil, expectedYield, Some(r2)).Ok?
    ensures RecommendNitrogenAdjusted(cat, c, sns, soil, expectedYield, Some(r2)).value
         <= RecommendNitrogenAdjusted(cat, c, sns, soil, expectedYield, Some(r1)).value
  {
    if BerGroupOf(c).Some? {
      BerChangeFalls(BerGroupOf(c).value, r1, r2);
    }
  }

  /** Feed wheat at SNS 2 (150 kg N/ha): 10 t/ha gives 190, 6 t/ha 110 and
      15 t/ha the capped 250; at SNS 5 (40) a 4 t/ha yield clamps to 0. */
  lemma YieldExamples(cat: Catalogue)
    requires Arable(WinterWheatFeed) in cat
    ensures RecommendNitrogenAdjusted(cat, Arable(WinterWheatFeed), 2, None, Some(10.0), None) == Ok(190.0)
    ensures RecommendNitrogenAdjusted(cat, Arable(WinterWheatFeed), 2, None, Some(6.0), None) == Ok(110.0)
    ensures RecommendNitrogenAdjusted(cat, Arable(WinterWheatFeed), 2, None, Some(15.0), None) == Ok(250.0)
    ensures RecommendNitrogenAdjusted(cat, Arable(WinterWheatFeed), 5, None, Some(4.0), None) == Ok(0.0)
  {
  }

  /** A yield for a crop without a record fails, and maincrop potatoes at 60
      t/ha get 180 + 10 x 5.8 = 238 kg K2O/ha at K index 2. */
  lemma YieldRecordExamples(cat: Catalogue)
    requires Arable(Linseed) in cat && Arable(PotatoesMaincrop) in cat
    requires !cat[Arable(PotatoesMaincrop)].hasStrawOption
    ensures RecommendNitrogenAdjusted(cat, Arable(Linseed), 2, None, Some(5.0), None) == Err(NoYieldData)
    ensures RecommendPotassiumAdjusted(cat, Arable(PotatoesMaincrop), 2, false, Some(60.0)) == Ok(238.0)
  {
  }

  /** The ratio applies after the yield: feed wheat at SNS 2 with 10 t/ha
      gives 190, then 220 at ratio 2 and 160 at ratio 10. */
  lemma YieldThenBerExamples(cat: Catalogue)
    requires Arable(WinterWheatFeed) in cat
    ensures RecommendNitrogenAdjusted(cat, Arable(WinterWheatFeed), 2, None, Some(10.0), Some(2.0)) == Ok(220.0)
    ensures RecommendNitrogenAdjusted(cat, Arable(WinterWheatFeed), 2, None, Some(10.0), Some(10.0)) == Ok(160.0)
  {
    BerChangeAtPoints(WheatGroup, 0);
    BerChangeAtPoints(WheatGroup, 7);
  }
}
