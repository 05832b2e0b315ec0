/** nitrogen_timing: a split-dressing schedule for a total nitrogen amount.
    The first rule that matches gives the dressings; every dressing but the
    last gets its fraction of the total, rounded, and the last gets the
    remainder, so the amounts always add up to the rounded total. */
module Timing {
  import opened Outcomes
  import opened Crops
  import opened Rounding
  import opened TimingData
  import Engine

  /** The position of the first rule that matches, or |rules| when none does. */
  function FirstRule(rules: seq<Rule>, n: real, soil: Option<string>): (k: nat)
    ensures k <= |rules|
    ensures forall j | 0 <= j < k :: !RuleMatches(rules[j], n, soil)
    ensures k < |rules| ==> RuleMatches(rules[k], n, soil)
  {
    if |rules| == 0 then 0
    else if RuleMatches(rules[0], n, soil) then 0
    else 1 + FirstRule(rules[1..], n, soil)
  }

  function Sum(s: seq<int>): int {
    if |s| == 0 then 0 else Sum(s[..|s| - 1]) + s[|s| - 1]
  }

  /** The rounded share of the total for each dressing. */
  function Shares(splits: seq<Split>, n: real): (r: seq<int>)
    ensures |r| == |splits|
  {
    if |splits| == 0 then []
    else Shares(splits[..|splits| - 1], n) + [RoundHalfEven(Scale(splits[|splits| - 1].fraction, n))]
  }

  /** Each share is the dressing's fraction of the total, rounded. */
  lemma {:induction false} SharesAt(splits: seq<Split>, n: real, i: nat)
    requires i < |splits|
    ensures Shares(splits, n)[i] == RoundHalfEven(Scale(splits[i].fraction, n))
  {
    if i < |splits| - 1 {
      SharesAt(splits[..|splits| - 1], n, i);
    }
  }

  /** `head` followed by what is left of `total` once `head` is given out. */
  function Remainder(head: seq<int>, total: int): (r: seq<int>)
    ensures |r| == |head| + 1 && r[..|head|] == head
    ensures Sum(r) == total
  {
    SumSnoc(head, total - Sum(head));
    head + [total - Sum(head)]
  }

  /** The amount of every dressing: the rounded share for all but the last,
      and for the last the rounded total less what the others received. */
  function Allocate(splits: seq<Split>, n: real): (amounts: seq<int>)
    ensures |amounts| == |splits|
  {
    if |splits| == 0 then []
    else Remainder(Shares(splits[..|splits| - 1], n), RoundHalfEven(n))
  }

  /** However the shares round, the amounts add up to the rounded total. */
  lemma AllocateSumsToTotal(splits: seq<Split>, n: real)
    requires |splits| > 0
    ensures Sum(Allocate(splits, n)) == RoundHalfEven(n)
  {
  }

  /** Every dressing but the last gets exactly its rounded share. */
  lemma AllocateHeadShares(splits: seq<Split>, n: real, i: nat)
    requires i < |splits| - 1
    ensures Allocate(splits, n)[i] == RoundHalfEven(Scale(splits[i].fraction, n))
  {
    SharesAt(splits[..|splits| - 1], n, i);
  }

  /** The allocation loop: shares are handed out dressing by dressing while
      the running total is kept, and the last dressing takes the remainder. */
  method AllocateSplits(splits: seq<Split>, n: real) returns (amounts: seq<int>)
    ensures amounts == Allocate(splits, n)
  {
    amounts := [];
    if |splits| == 0 {
      return;
    }
    var given := 0;
    var i := 0;
    while i < |splits| - 1
      invariant 0 <= i <= |splits| - 1
      invariant amounts == Shares(splits[..i], n)
      invariant given == Sum(amounts)
    {
      var share := RoundHalfEven(Scale(splits[i].fraction, n));
      SharesSnoc(splits, i, n);
      SumSnoc(amounts, share);
      amounts := amounts + [share];
      given := given + share;
      i := i + 1;
    }
    assert splits[..|splits| - 1] == splits[..i];
    amounts := amounts + [RoundHalfEven(n) - given];
  }

  /** One more dressing appends its rounded share. */
  lemma SharesSnoc(splits: seq<Split>, i: nat, n: real)
    requires i < |splits|
    ensures Shares(splits[..i + 1], n) == Shares(splits[..i], n) + [RoundHalfEven(Scale(splits[i].fraction, n))]
  {
    assert splits[..i + 1][..i] == splits[..i];
  }

  /** Appending one amount adds it to the sum. */
  lemma SumSnoc(s: seq<int>, x: int)
    ensures Sum(s + [x]) == Sum(s) + x
  {
    assert (s + [x])[..|s|] == s;
  }

  /** The sum of up to three amounts, written out. */
  lemma SumSmall(s: seq<int>)
    requires 1 <= |s| <= 3
    ensures |s| == 1 ==> Sum(s) == s[0]
    ensures |s| == 2 ==> Sum(s) == s[0] + s[1]
    ensures |s| == 3 ==> Sum(s) == s[0] + s[1] + s[2]
  {
    assert s[..1][..0] == [];
    if |s| >= 2 {
      assert s[..2][..1] == s[..1];
    }
  }

  /** One dressing of the schedule. */
  datatype NitrogenSplit = NitrogenSplit(amount: int, timing: TimingLabel)

  datatype NitrogenTimingPlan = NitrogenTimingPlan(
    crop: string,
    totalN: real,
    splits: seq<NitrogenSplit>,
    notes: seq<TimingNote>)

  /** The dressings of a rule, with their amounts. */
  function Dressings(splits: seq<Split>, n: real): (r: seq<NitrogenSplit>)
    ensures |r| == |splits|
    ensures forall i | 0 <= i < |r| :: r[i] == NitrogenSplit(Allocate(splits, n)[i], splits[i].timing)
  {
    var amounts := Allocate(splits, n);
    seq(|splits|, i requires 0 <= i < |splits| => NitrogenSplit(amounts[i], splits[i].timing))
  }

  /** The amounts of a schedule. */
  function Amounts(s: seq<NitrogenSplit>): (r: seq<int>)
    ensures |r| == |s| && forall i | 0 <= i < |s| :: r[i] == s[i].amount
  {
    seq(|s|, i requires 0 <= i < |s| => s[i].amount)
  }

  /** The amounts of a rule's dressings are its allocation. */
  lemma AmountsOfDressings(splits: seq<Split>, n: real)
    ensures Amounts(Dressings(splits, n)) == Allocate(splits, n)
  {
  }

  /** nitrogen_timing. The crop is checked first, then the total N, then the
      soil type when one is given. The first matching rule gives the schedule
      and its notes; when the crop has no rules, or none matches, the whole
      rounded total is one dressing with the no-guidance note. */
  function NitrogenTiming(cat: Catalogue, c: Crop, n: real, soil: Option<string>): (r: Result<NitrogenTimingPlan>)
    ensures c !in cat ==> r == Err(UnknownCrop)
    ensures c in cat && n < 0.0 ==> r == Err(NegativeInput)
    ensures c in cat && n >= 0.0 && soil.Some? && ParseSoilType(soil.value).None? ==> r == Err(UnknownSoilType)
    ensures r.Ok? <==> c in cat && n >= 0.0 && (soil.Some? ==> ParseSoilType(soil.value).Some?)
    ensures r.Ok? ==> r.value.crop == cat[c].name && r.value.totalN == n
    ensures r.Ok? ==>
      var rules := TimingRules(c);
      var k := FirstRule(rules, n, soil);
      if k < |rules| then
        r.value.splits == Dressings(rules[k].splits, n) && r.value.notes == rules[k].notes
      else
        r.value.splits == [NitrogenSplit(RoundHalfEven(n), SingleApplication)] && r.value.notes == [NoTimingGuidance]
  {
    var info :- Engine.CheckCrop(cat, c);
    if n < 0.0 then Err(NegativeInput)
    else if soil.Some? && ParseSoilType(soil.value).None? then Err(UnknownSoilType)
    else
      var rules := TimingRules(c);
      var k := FirstRule(rules, n, soil);
      if k < |rules| then
        Ok(NitrogenTimingPlan(info.name, n, Dressings(rules[k].splits, n), rules[k].notes))
      else
        Ok(NitrogenTimingPlan(info.name, n, [NitrogenSplit(RoundHalfEven(n), SingleApplication)], [NoTimingGuidance]))
  }

  // ── Properties ──────────────────────────────────────────────────────

  /** The amounts of every schedule add up exactly to the rounded total N. */
  lemma AmountsSumToRoundedTotal(cat: Catalogue, c: Crop, n: real, soil: Option<string>)
    requires NitrogenTiming(cat, c, n, soil).Ok?
    ensures Sum(Amounts(NitrogenTiming(cat, c, n, soil).value.splits)) == RoundHalfEven(n)
  {
    var rules := TimingRules(c);
    var k := FirstRule(rules, n, soil);
    var plan := NitrogenTiming(cat, c, n, soil).value;
    if k < |rules| {
      TimingRulesWellFormed(c, k);
      assert Amounts(plan.splits) == Allocate(rules[k].splits, n);
      AllocateSumsToTotal(rules[k].splits, n);
    } else {
      SumSmall(Amounts(plan.splits));
    }
  }

  /** The rules are tried in order: the schedule comes from a rule that
      matches, and no earlier rule matches. */
  lemma FirstMatchingRuleWins(cat: Catalogue, c: Crop, n: real, soil: Option<string>, k: nat)
    requires NitrogenTiming(cat, c, n, soil).Ok?
    requires k < |TimingRules(c)| && RuleMatches(TimingRules(c)[k], n, soil)
    requires forall j | 0 <= j < k :: !RuleMatches(TimingRules(c)[j], n, soil)
    ensures NitrogenTiming(cat, c, n, soil).value.splits == Dressings(TimingRules(c)[k].splits, n)
    ensures NitrogenTiming(cat, c, n, soil).value.notes == TimingRules(c)[k].notes
  {
    assert FirstRule(TimingRules(c), n, soil) == k;
  }

  /** Every whole-number total for a crop with rules gets a rule's schedule,
      never the no-guidance fallback. */
  lemma IntegerTotalsGetGuidance(cat: Catalogue, c: Crop, n: nat, soil: Option<string>)
    requires HasTimingRules(c) && NitrogenTiming(cat, c, n as real, soil).Ok?
    ensures NoTimingGuidance !in NitrogenTiming(cat, c, n as real, soil).value.notes
  {
    IntegerTotalsAlwaysMatch(c, n, soil);
    var rules := TimingRules(c);
    var j :| 0 <= j < |rules| && RuleMatches(rules[j], n as real, soil);
    assert FirstRule(rules, n as real, soil) <= j;
  }

  /** A total between two integer ranges matches no rule: 120.5 kg N/ha of
      winter wheat (feed) gets the single no-guidance dressing of 120. */
  lemma FractionalTotalInGapFallsBack(cat: Catalogue)
    requires Arable(WinterWheatFeed) in cat
    ensures NitrogenTiming(cat, Arable(WinterWheatFeed), 120.5, None).Ok?
    ensures NitrogenTiming(cat, Arable(WinterWheatFeed), 120.5, None).value.splits
            == [NitrogenSplit(120, SingleApplication)]
    ensures NitrogenTiming(cat, Arable(WinterWheatFeed), 120.5, None).value.notes == [NoTimingGuidance]
  {
    var rules := TimingRules(Arable(WinterWheatFeed));
    assert !RuleMatches(rules[0], 120.5, None) && !RuleMatches(rules[1], 120.5, None);
    assert FirstRule(rules, 120.5, None) == 2;
    RoundHalfEvenUnique(120.5, 120);
  }

  /** Winter barley at 200 kg N/ha: 80, 80 and 40, with the lodging note. */
  lemma WinterBarleyExample(cat: Catalogue)
    requires Arable(WinterBarley) in cat
    ensures NitrogenTiming(cat, Arable(WinterBarley), 200.0, None).Ok?
    ensures Amounts(NitrogenTiming(cat, Arable(WinterBarley), 200.0, None).value.splits) == [80, 80, 40]
    ensures NitrogenTiming(cat, Arable(WinterBarley), 200.0, None).value.notes == [BarleyLodging]
  {
    var rules := TimingRules(Arable(WinterBarley));
    assert !RuleMatches(rules[0], 200.0, None) && !RuleMatches(rules[1], 200.0, None);
    assert FirstRule(rules, 200.0, None) == 2;
    FirstMatchingRuleWins(cat, Arable(WinterBarley), 200.0, None, 2);
    var s := rules[2].splits;
    AmountsOfDressings(s, 200.0);
    RoundHalfEvenOfInteger(80);
    RoundHalfEvenOfInteger(200);
    assert Scale(0.4, 200.0) == 80 as real;
    var a := Allocate(s, 200.0);
    AllocateHeadShares(s, 200.0, 0);
    AllocateHeadShares(s, 200.0, 1);
    assert a[0] == 80 && a[1] == 80;
    SumSmall(a);
    assert a == [80, 80, 40];
  }

  /** Potatoes at 270 kg N/ha on light soil: 180 in the seedbed and 90
      after emergence. */
  lemma PotatoLightSoilExample(cat: Catalogue)
    requires Arable(PotatoesMaincrop) in cat
    ensures NitrogenTiming(cat, Arable(PotatoesMaincrop), 270.0, Some("light")).Ok?
    ensures Amounts(NitrogenTiming(cat, Arable(PotatoesMaincrop), 270.0, Some("light")).value.splits) == [180, 90]
  {
    var rules := TimingRules(Arable(PotatoesMaincrop));
    assert rules == PotatoRules();
    assert ParseSoilType("light") == Some(LightSoil);
    FirstMatchingRuleWins(cat, Arable(PotatoesMaincrop), 270.0, Some("light"), 0);
    var s := rules[0].splits;
    AmountsOfDressings(s, 270.0);
    RoundHalfEvenOfInteger(180);
    RoundHalfEvenOfInteger(270);
    assert Scale(2.0 / 3.0, 270.0) == 180 as real;
    var a := Allocate(s, 270.0);
    AllocateHeadShares(s, 270.0, 0);
    SumSmall(a);
    assert a == [180, 90];
  }

  /** Potatoes at 270 kg N/ha without a soil type: one dressing of 270. */
  lemma PotatoNoSoilExample(cat: Catalogue)
    requires Arable(PotatoesMaincrop) in cat
    ensures NitrogenTiming(cat, Arable(PotatoesMaincrop), 270.0, None).Ok?
    ensures Amounts(NitrogenTiming(cat, Arable(PotatoesMaincrop), 270.0, None).value.splits) == [270]
  {
    var rules := TimingRules(Arable(PotatoesMaincrop));
    assert !RuleMatches(rules[0], 270.0, None);
    assert FirstRule(rules, 270.0, None) == 1;
    RoundHalfEvenOfInteger(270);
    var b := Allocate(rules[1].splits, 270.0);
    SumSmall(b);
    assert b == [270];
  }

  /** A crop without rules, such as linseed, gets the whole rounded total as
      one dressing and the no-guidance note. */
  lemma NoRulesExample(cat: Catalogue)
    requires Arable(Linseed) in cat
    ensures NitrogenTiming(cat, Arable(Linseed), 70.0, None).Ok?
    ensures NitrogenTiming(cat, Arable(Linseed), 70.0, None).value.splits == [NitrogenSplit(70, SingleApplication)]
    ensures NitrogenTiming(cat, Arable(Linseed), 70.0, None).value.notes == [NoTimingGuidance]
  {
    RoundHalfEvenOfInteger(70);
  }
}
