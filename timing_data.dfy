/** Nitrogen application timing and split-dressing rules (RB209 9th edition:
    Section 3 for grassland, Section 4 for arable crops, Section 5 for
    potatoes). Each crop has an ordered list of rules; the first rule whose
    inclusive range holds the total N, and whose soil condition (if any)
    holds, gives the schedule. */
module TimingData {
  import opened Outcomes
  import opened Crops
  import opened Rows

  /** The fixed advisory notes a rule carries, plus the note emitted when no
      rule gives a schedule. */
  datatype TimingNote =
    | ProteinDressing      // milling wheat: late protein dressing at GS32-GS39
    | BarleyLodging        // winter barley at 200+: reduce by 25 if lodging risk is high
    | RyeLodging           // winter rye is susceptible to lodging
    | LightSoilLeaching    // potatoes on light soil: split to reduce leaching
    | FirstCutPotash       // silage at 281+: limit spring K2O for the first cut
    | GrazingRotation      // grazing at 201+: apply before each rotation
    | NoTimingGuidance     // no rule applies: a single full dressing

  /** The notes a rule can carry: never the no-guidance note. */
  type RuleNotes = s: seq<TimingNote> | NoTimingGuidance !in s

  /** One dressing: its share of the total N and when to apply it. */
  datatype Split = Split(fraction: real, timing: TimingLabel)

  /** The sum of the fractions of a list of dressings. */
  function SumFractions(s: seq<Split>): real {
    if |s| == 0 then 0.0 else SumFractions(s[..|s| - 1]) + s[|s| - 1].fraction
  }

  /** A schedule is well formed when it has at least one dressing, each
      fraction is in [0, 1], and they sum to 1. */
  predicate WellFormedSplits(s: seq<Split>) {
    && |s| > 0
    && (forall i | 0 <= i < |s| :: 0.0 <= s[i].fraction <= 1.0)
    && SumFractions(s) == 1.0
  }

  type Dressings = s: seq<Split> | WellFormedSplits(s) witness [Split(1.0, SingleApplication)]

  /** The sum of up to five fractions, written out. */
  lemma {:induction false} SumFractionsSmall(s: seq<Split>)
    requires 1 <= |s| <= 5
    ensures |s| == 1 ==> SumFractions(s) == s[0].fraction
    ensures |s| == 2 ==> SumFractions(s) == s[0].fraction + s[1].fraction
    ensures |s| == 3 ==> SumFractions(s) == s[0].fraction + s[1].fraction + s[2].fraction
    ensures |s| == 4 ==> SumFractions(s) == s[0].fraction + s[1].fraction + s[2].fraction + s[3].fraction
    ensures |s| == 5 ==>
      SumFractions(s) == s[0].fraction + s[1].fraction + s[2].fraction + s[3].fraction + s[4].fraction
  {
    if |s| == 1 {
      assert s[..0] == [];
    } else {
      SumFractionsSmall(s[..|s| - 1]);
    }
  }

  /** A single dressing of the whole amount. */
  function Single(t: TimingLabel): (s: Dressings)
    ensures s == [Split(1.0, t)]
  {
    SumFractionsSmall([Split(1.0, t)]);
    [Split(1.0, t)]
  }

  function Two(f0: real, t0: TimingLabel, f1: real, t1: TimingLabel): (s: Dressings)
    requires 0.0 <= f0 <= 1.0 && 0.0 <= f1 <= 1.0 && f0 + f1 == 1.0
    ensures s == [Split(f0, t0), Split(f1, t1)]
  {
    SumFractionsSmall([Split(f0, t0), Split(f1, t1)]);
    [Split(f0, t0), Split(f1, t1)]
  }

  function Three(f0: real, t0: TimingLabel, f1: real, t1: TimingLabel, f2: real, t2: TimingLabel): (s: Dressings)
    requires 0.0 <= f0 <= 1.0 && 0.0 <= f1 <= 1.0 && 0.0 <= f2 <= 1.0 && f0 + f1 + f2 == 1.0
    ensures s == [Split(f0, t0), Split(f1, t1), Split(f2, t2)]
  {
    SumFractionsSmall([Split(f0, t0), Split(f1, t1), Split(f2, t2)]);
    [Split(f0, t0), Split(f1, t1), Split(f2, t2)]
  }

  function Four(f0: real, t0: TimingLabel, f1: real, t1: TimingLabel, f2: real, t2: TimingLabel,
                f3: real, t3: TimingLabel): (s: Dressings)
    requires 0.0 <= f0 <= 1.0 && 0.0 <= f1 <= 1.0 && 0.0 <= f2 <= 1.0 && 0.0 <= f3 <= 1.0
    requires f0 + f1 + f2 + f3 == 1.0
    ensures s == [Split(f0, t0), Split(f1, t1), Split(f2, t2), Split(f3, t3)]
  {
    SumFractionsSmall([Split(f0, t0), Split(f1, t1), Split(f2, t2), Split(f3, t3)]);
    [Split(f0, t0), Split(f1, t1), Split(f2, t2), Split(f3, t3)]
  }

  /** Five equal dressings. */
  function FiveEqual(t0: TimingLabel, t1: TimingLabel, t2: TimingLabel, t3: TimingLabel, t4: TimingLabel): (s: Dressings)
    ensures s == [Split(0.2, t0), Split(0.2, t1), Split(0.2, t2), Split(0.2, t3), Split(0.2, t4)]
  {
    SumFractionsSmall([Split(0.2, t0), Split(0.2, t1), Split(0.2, t2), Split(0.2, t3), Split(0.2, t4)]);
    [Split(0.2, t0), Split(0.2, t1), Split(0.2, t2), Split(0.2, t3), Split(0.2, t4)]
  }

  /** A rule: the inclusive range [minN, maxN] of total N it covers, whether
      it applies only on light soil, its dressings and its notes. */
  datatype Rule = Rule(minN: real, maxN: UpperBound, lightSoilOnly: bool,
                       splits: Dressings, notes: RuleNotes)

  /** Total N `n` lies in the rule's range and the soil condition holds; the
      light-soil condition is the soil string being exactly "light". */
  predicate RuleMatches(r: Rule, n: real, soil: Option<string>) {
    r.minN <= n && Admits(r.maxN, n) && (!r.lightSoilOnly || soil == Some("light"))
  }

  /** When a dressing is applied. SingleApplication is the label of the
      single dressing given when no rule applies. */
  datatype TimingLabel =
    | EarlyWheat | LateWheat | SpringDrilling | SpringWheatGs30 | BarleyGs30Early | LateTillering
    | BarleyGs30 | BarleyGs32 | BarleyDrilling | SpringBarleyGs25 | Seedbed | PostEmergence
    | BeforeFirstCut | AfterFirstCut | AfterSecondCut | AfterThirdCut | GrazingSpring
    | GrazingMidSeason | GrazingFirstRotation | GrazingSecondRotation | RotationSpring
    | RotationFirst | RotationSecond | RotationThird | RotationFourth | OneCutSpring
    | AfterSilageCut | LateSummer | BeforeGrowth | SingleApplication

  /** The wording of each timing label. */
  function LabelText(l: TimingLabel): string {
    match l
    case EarlyWheat => "GS25-GS30 (February-March)"
    case LateWheat => "GS31-GS32 (late March-April)"
    case SpringDrilling => "At drilling or immediately after (March-April)"
    case SpringWheatGs30 => "GS30-GS31 (4-6 weeks after drilling)"
    case BarleyGs30Early => "GS30-31 (late February/early March)"
    case LateTillering => "Late tillering (mid-February/early March)"
    case BarleyGs30 => "GS30-31"
    case BarleyGs32 => "GS32"
    case BarleyDrilling => "At drilling or immediately after (February-April)"
    case SpringBarleyGs25 => "GS25-GS30 (4-6 weeks after drilling)"
    case Seedbed => "Seedbed (before planting)"
    case PostEmergence => "Post-emergence (when shoots emerge)"
    case BeforeFirstCut => "Before 1st cut (January-February)"
    case AfterFirstCut => "After 1st cut (May-June)"
    case AfterSecondCut => "After 2nd cut (July-August)"
    case AfterThirdCut => "After 3rd cut (September)"
    case GrazingSpring => "Early spring (March-April)"
    case GrazingMidSeason => "Mid-season (June)"
    case GrazingFirstRotation => "After 1st rotation (May-June)"
    case GrazingSecondRotation => "After 2nd rotation (July-August)"
    case RotationSpring => "Early spring (March)"
    case RotationFirst => "After 1st rotation (April-May)"
    case RotationSecond => "After 2nd rotation (June)"
    case RotationThird => "After 3rd rotation (July)"
    case RotationFourth => "After 4th rotation (August)"
    case OneCutSpring => "Early spring (February-March)"
    case AfterSilageCut => "After silage cut (May-June)"
    case LateSummer => "Late summer (August)"
    case BeforeGrowth => "Early February to mid-March (before growth starts)"
    case SingleApplication => "Single application"
  }

  /** The two-rule schedule of the winter cereals: one dressing up to
      120 kg N/ha, two equal dressings from 121. */
  function WinterCerealRules(notes: RuleNotes): seq<Rule> {
    [ Rule(0.0, AtMost(120.0), false, Single(EarlyWheat), notes),
      Rule(121.0, Unbounded, false, Two(0.5, EarlyWheat, 0.5, LateWheat), notes) ]
  }

  /** The potato schedule: two thirds in the seedbed and one third after
      emergence on light soil, everything in the seedbed otherwise. */
  function PotatoRules(): seq<Rule> {
    [ Rule(0.0, Unbounded, true, Two(2.0 / 3.0, Seedbed, 1.0 / 3.0, PostEmergence), [LightSoilLeaching]),
      Rule(0.0, Unbounded, false, Single(Seedbed), []) ]
  }

  /** NITROGEN_TIMING_RULES; a crop without an entry has no rules. */
  function TimingRules(c: Crop): seq<Rule> {
    match c
    case Arable(WinterWheatFeed) => WinterCerealRules([])
    case Arable(WinterWheatMilling) => WinterCerealRules([ProteinDressing])
    case Arable(SpringWheat) =>
      [ Rule(0.0, AtMost(100.0), false, Single(SpringDrilling), []),
        Rule(101.0, Unbounded, false,
             Two(0.5, SpringDrilling, 0.5, SpringWheatGs30), []) ]
    case Arable(WinterBarley) =>
      [ Rule(0.0, AtMost(99.0), false, Single(BarleyGs30Early), []),
        Rule(100.0, AtMost(199.0), false, Two(0.5, LateTillering, 0.5, BarleyGs30), []),
        Rule(200.0, Unbounded, false,
             Three(0.4, LateTillering, 0.4, BarleyGs30, 0.2, BarleyGs32), [BarleyLodging]) ]
    case Arable(SpringBarley) =>
      [ Rule(0.0, AtMost(99.0), false, Single(BarleyDrilling), []),
        Rule(100.0, Unbounded, false,
             Two(1.0 / 3.0, BarleyDrilling, 2.0 / 3.0, SpringBarleyGs25), []) ]
    case Arable(WinterRye) => WinterCerealRules([RyeLodging])
    case Arable(PotatoesMaincrop) => PotatoRules()
    case Arable(PotatoesEarly) => PotatoRules()
    case Arable(PotatoesSeed) => PotatoRules()
    case Arable(GrassSilage) =>
      [ Rule(0.0, AtMost(80.0), false, Single(BeforeFirstCut), []),
        Rule(81.0, AtMost(180.0), false, Two(0.5, BeforeFirstCut, 0.5, AfterFirstCut), []),
        Rule(181.0, AtMost(280.0), false,
             Three(0.40, BeforeFirstCut, 0.30, AfterFirstCut, 0.30, AfterSecondCut), []),
        Rule(281.0, Unbounded, false,
             Four(0.30, BeforeFirstCut, 0.25, AfterFirstCut, 0.25, AfterSecondCut,
                  0.20, AfterThirdCut), [FirstCutPotash]) ]
    case Arable(GrassGrazed) =>
      [ Rule(0.0, AtMost(100.0), false,
             Two(0.5, GrazingSpring, 0.5, GrazingMidSeason), []),
        Rule(101.0, AtMost(200.0), false,
             Three(0.4, GrazingSpring, 0.3, GrazingFirstRotation,
                   0.3, GrazingSecondRotation), []),
        Rule(201.0, Unbounded, false,
             FiveEqual(RotationSpring, RotationFirst, RotationSecond,
                       RotationThird, RotationFourth), [GrazingRotation]) ]
    case Arable(GrassGrazedOneCut) =>
      [ Rule(0.0, AtMost(120.0), false,
             Two(0.5, OneCutSpring, 0.5, AfterSilageCut), []),
        Rule(121.0, Unbounded, false,
             Three(0.4, OneCutSpring, 0.3, AfterSilageCut,
                   0.3, LateSummer), []) ]
    case Arable(GrassHay) =>
      [ Rule(0.0, Unbounded, false, Single(BeforeGrowth), []) ]
    case _ => []
  }

  /** Whether a crop has an entry in the timing table. */
  predicate HasTimingRules(c: Crop) {
    match c
    case Arable(a) =>
      || a == WinterWheatFeed || a == WinterWheatMilling || a == SpringWheat || a == WinterBarley
      || a == SpringBarley || a == WinterRye || a == PotatoesMaincrop || a == PotatoesEarly
      || a == PotatoesSeed || a == GrassSilage || a == GrassGrazed || a == GrassGrazedOneCut
      || a == GrassHay
    case _ => false
  }

  /** Exactly the thirteen crops with an entry have rules. */
  lemma TimingRulesCoverage(c: Crop)
    ensures |TimingRules(c)| > 0 <==> HasTimingRules(c)
  {
    match c
    case Arable(a) => {
      match a
      case WinterWheatFeed => case WinterWheatMilling => case SpringWheat => case WinterBarley =>
      case SpringBarley => case WinterOats => case SpringOats => case WinterRye =>
      case WinterOilseedRape => case SpringOilseedRape => case Linseed => case Peas =>
      case FieldBeans => case SugarBeet => case ForageMaize => case PotatoesMaincrop =>
      case PotatoesEarly => case PotatoesSeed => case GrassGrazed => case GrassSilage =>
      case GrassHay => case GrassGrazedOneCut =>
    }
    case Veg(_) =>
    case Fruit(_) =>
  }

  /** Every rule of the table is well formed: its fractions sum to 1. */
  lemma TimingRulesWellFormed(c: Crop, k: int)
    requires 0 <= k < |TimingRules(c)|
    ensures WellFormedSplits(TimingRules(c)[k].splits)
  {
  }

  /** For every crop with rules, every whole-number total N from 0 upwards
      matches some rule: the integer ranges leave no gap. */
  lemma IntegerTotalsAlwaysMatch(c: Crop, n: int, soil: Option<string>)
    requires HasTimingRules(c) && n >= 0
    ensures exists k | 0 <= k < |TimingRules(c)| :: RuleMatches(TimingRules(c)[k], n as real, soil)
  {
    var rules := TimingRules(c);
    var v := n as real;
    match c.arable {
      case WinterWheatFeed =>
        if n <= 120 { assert RuleMatches(rules[0], v, soil); } else { assert RuleMatches(rules[1], v, soil); }
      case WinterWheatMilling =>
        if n <= 120 { assert RuleMatches(rules[0], v, soil); } else { assert RuleMatches(rules[1], v, soil); }
      case WinterRye =>
        if n <= 120 { assert RuleMatches(rules[0], v, soil); } else { assert RuleMatches(rules[1], v, soil); }
      case SpringWheat =>
        if n <= 100 { assert RuleMatches(rules[0], v, soil); } else { assert RuleMatches(rules[1], v, soil); }
      case WinterBarley =>
        if n <= 99 { assert RuleMatches(rules[0], v, soil); }
        else if n <= 199 { assert RuleMatches(rules[1], v, soil); }
        else { assert RuleMatches(rules[2], v, soil); }
      case SpringBarley =>
        if n <= 99 { assert RuleMatches(rules[0], v, soil); } else { assert RuleMatches(rules[1], v, soil); }
      case PotatoesMaincrop => assert RuleMatches(rules[1], v, soil);
      case PotatoesEarly => assert RuleMatches(rules[1], v, soil);
      case PotatoesSeed => assert RuleMatches(rules[1], v, soil);
      case GrassSilage =>
        if n <= 80 { assert RuleMatches(rules[0], v, soil); }
        else if n <= 180 { assert RuleMatches(rules[1], v, soil); }
        else if n <= 280 { assert RuleMatches(rules[2], v, soil); }
        else { assert RuleMatches(rules[3], v, soil); }
      case GrassGrazed =>
        if n <= 100 { assert RuleMatches(rules[0], v, soil); }
        else if n <= 200 { assert RuleMatches(rules[1], v, soil); }
        else { assert RuleMatches(rules[2], v, soil); }
      case GrassGrazedOneCut =>
        if n <= 120 { assert RuleMatches(rules[0], v, soil); } else { assert RuleMatches(rules[1], v, soil); }
      case GrassHay => assert RuleMatches(rules[0], v, soil);
    }
  }
}
