/** calculate_organic: the nutrients an application of an organic material
    supplies, each rounded to one decimal place. */
module Organic {
  import opened Outcomes
  import opened Rounding
  import opened OrganicData

  datatype OrganicNutrients = OrganicNutrients(
    material: string,
    rate: real,
    totalN: real,
    availableN: real,
    p2o5: real,
    k2o: real,
    mgo: real,
    so3: real)

  /** The share of the total N available to the next crop: the factor-table
      entry when a timing is given, else none (the flat coefficient applies).
      Fails when the material has no factor table, or the table has no entry
      for the key (an unrecognised timing, or summer with incorporation). */
  function TimingFactor(m: Material, timing: string, incorporated: bool, soil: Option<string>): (r: Result<real>)
    ensures FactorTableOf(m).None? ==> r == Err(NoTimingFactors)
    ensures FactorTableOf(m).Some? && ParseSeason(timing).None? ==> r == Err(NoTimingFactor)
    ensures FactorTableOf(m).Some? && ParseSeason(timing).Some? ==>
      r == Factor(FactorTableOf(m).value, ParseSeason(timing).value, TimingSoilCategory(soil), incorporated)
             .ToResult(NoTimingFactor)
  {
    var t :- FactorTableOf(m).ToResult(NoTimingFactors);
    var s :- ParseSeason(timing).ToResult(NoTimingFactor);
    Factor(t, s, TimingSoilCategory(soil), incorporated).ToResult(NoTimingFactor)
  }

  /** The crop-available N of `rate` units: the timing factor's share of the
      total N when a timing is given, else the flat coefficient. */
  function AvailableN(m: Material, rate: real, timing: Option<string>,
                      incorporated: bool, soil: Option<string>): (r: Result<real>)
    ensures timing.None? ==> r == Ok(Round1(Scale(Info(m).availableN, rate)))
    ensures timing.Some? ==>
      var f := TimingFactor(m, timing.value, incorporated, soil);
      (r.Ok? <==> f.Ok?)
      && (f.Err? ==> r.error == f.error)
      && (f.Ok? ==> r.value == Round1(Scale(f.value, Scale(Info(m).totalN, rate))))
  {
    if timing.None? then Ok(Round1(Scale(Info(m).availableN, rate)))
    else
      var f := TimingFactor(m, timing.value, incorporated, soil);
      if f.Err? then Err(f.error) else Ok(Round1(Scale(f.value, Scale(Info(m).totalN, rate))))
  }

  /** The nutrients `rate` units of material `m` supply. The rate is checked
      first; the timing factors are consulted only when a timing is given,
      and `incorporated` and the soil type matter only then. */
  function Supply(m: Material, rate: real, timing: Option<string>,
                  incorporated: bool, soil: Option<string>): (r: Result<OrganicNutrients>)
    ensures rate < 0.0 ==> r == Err(NegativeInput)
    ensures rate >= 0.0 ==> (r.Ok? <==> AvailableN(m, rate, timing, incorporated, soil).Ok?)
    ensures rate >= 0.0 && r.Err? ==> r.error == AvailableN(m, rate, timing, incorporated, soil).error
    ensures r.Ok? ==>
      && r.value.material == Info(m).name && r.value.rate == rate
      && r.value.availableN == AvailableN(m, rate, timing, incorporated, soil).value
      && r.value.totalN == Round1(Scale(Info(m).totalN, rate))
      && r.value.p2o5 == Round1(Scale(Info(m).p2o5, rate)) && r.value.k2o == Round1(Scale(Info(m).k2o, rate))
      && r.value.mgo == Round1(Scale(Info(m).mgo, rate)) && r.value.so3 == Round1(Scale(Info(m).so3, rate))
  {
    if rate < 0.0 then Err(NegativeInput)
    else
      var available :- AvailableN(m, rate, timing, incorporated, soil);
      var i := Info(m);
      Ok(OrganicNutrients(i.name, rate, Round1(Scale(i.totalN, rate)), available,
                          Round1(Scale(i.p2o5, rate)), Round1(Scale(i.k2o, rate)),
                          Round1(Scale(i.mgo, rate)), Round1(Scale(i.so3, rate))))
  }

  /** calculate_organic: an unrecognised material fails before anything else. */
  function CalculateOrganic(material: string, rate: real, timing: Option<string>,
                            incorporated: bool, soil: Option<string>): (r: Result<OrganicNutrients>)
    ensures ParseMaterial(material).None? ==> r == Err(UnknownMaterial)
    ensures ParseMaterial(material).Some? ==>
      r == Supply(ParseMaterial(material).value, rate, timing, incorporated, soil)
  {
    var m :- ParseMaterial(material).ToResult(UnknownMaterial);
    Supply(m, rate, timing, incorporated, soil)
  }

  /** Every amount reported is non-negative, and the available N never
      exceeds the total N, with or without a timing. */
  lemma AvailableNeverAboveTotal(m: Material, rate: real, timing: Option<string>,
                                 incorporated: bool, soil: Option<string>)
    requires Supply(m, rate, timing, incorporated, soil).Ok?
    ensures var o := Supply(m, rate, timing, incorporated, soil).value;
      && 0.0 <= o.availableN <= o.totalN
      && o.p2o5 >= 0.0 && o.k2o >= 0.0 && o.mgo >= 0.0 && o.so3 >= 0.0
  {
    var i := Info(m);
    InfoContentsSensible(m);
    ScaleMonotone(0.0, i.p2o5, rate);
    ScaleMonotone(0.0, i.k2o, rate);
    ScaleMonotone(0.0, i.mgo, rate);
    ScaleMonotone(0.0, i.so3, rate);
    Round1NonNegative(Scale(i.p2o5, rate));
    Round1NonNegative(Scale(i.k2o, rate));
    Round1NonNegative(Scale(i.mgo, rate));
    Round1NonNegative(Scale(i.so3, rate));
    var total := Scale(i.totalN, rate);
    ScaleMonotone(0.0, i.totalN, rate);
    if timing.Some? {
      var t := FactorTableOf(m).value;
      var s := ParseSeason(timing.value).value;
      var k := TimingSoilCategory(soil);
      FactorsAreFractions(t, s, k, incorporated);
      var f := Factor(t, s, k, incorporated).value;
      ScaleFraction(f, total);
      Round1Monotone(Scale(f, total), total);
      Round1NonNegative(Scale(f, total));
    } else {
      ScaleMonotone(i.availableN, i.totalN, rate);
      Round1Monotone(Scale(i.availableN, rate), total);
      Round1NonNegative(Scale(i.availableN, rate));
    }
  }

  /** Summer incorporation has no factor for any material that has a table,
      so asking for it fails. */
  lemma SummerIncorporationFails(m: Material, rate: real, soil: Option<string>)
    requires FactorTableOf(m).Some? && rate >= 0.0
    ensures CalculateOrganic(MaterialSlug(m), rate, Some("summer"), true, soil) == Err(NoTimingFactor)
  {
    ParseMaterialExact(m);
  }

  /** Composts and paper crumble fail whenever a timing is given. */
  lemma NoFactorTableFailsWithTiming(m: Material, rate: real, timing: string, incorporated: bool, soil: Option<string>)
    requires m in {GreenCompost, GreenFoodCompost, PaperCrumble} && rate >= 0.0
    ensures CalculateOrganic(MaterialSlug(m), rate, Some(timing), incorporated, soil) == Err(NoTimingFactors)
  {
    ParseMaterialExact(m);
  }

  /** A rate of zero supplies nothing. */
  lemma ZeroRateSuppliesNothing(m: Material, timing: Option<string>, incorporated: bool, soil: Option<string>)
    requires CalculateOrganic(MaterialSlug(m), 0.0, timing, incorporated, soil).Ok?
    ensures var o := CalculateOrganic(MaterialSlug(m), 0.0, timing, incorporated, soil).value;
      o.totalN == 0.0 && o.availableN == 0.0 && o.p2o5 == 0.0 && o.k2o == 0.0 && o.mgo == 0.0 && o.so3 == 0.0
  {
    ParseMaterialExact(m);
    Round1OfTenths(0);
  }

  /** Worked example: 40 m3/ha of pig slurry in spring, surface-applied on
      light soil, gives 50% of 144 kg total N. */
  lemma PigSlurrySpringExample()
    ensures CalculateOrganic("pig-slurry", 40.0, Some("spring"), false, Some("light")).Ok?
    ensures CalculateOrganic("pig-slurry", 40.0, Some("spring"), false, Some("light")).value.totalN == 144.0
    ensures CalculateOrganic("pig-slurry", 40.0, Some("spring"), false, Some("light")).value.availableN == 72.0
  {
    ParseMaterialExact(PigSlurry);
    assert TimingFactor(PigSlurry, "spring", false, Some("light")) == Ok(0.50);
    Round1OfTenths(1440);
    Round1OfTenths(720);
    assert Scale(3.6, 40.0) == 1440 as real / 10.0;
    assert Scale(0.50, Scale(3.6, 40.0)) == 720 as real / 10.0;
  }
}
