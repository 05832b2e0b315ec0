# RB209 fertiliser recommendations in Dafny

This project models the recommendation engine of the RB209 calculator: AHDB's
Nutrient Management Guide, 9th edition. It covers the following, each with its
contracts and lemmas:

- working out the Soil Nitrogen Supply (SNS) index from a field assessment, an
  SMN measurement or a grass-ley history;
- looking up nitrogen, phosphate, potash, magnesium and sulphur by crop and
  soil index;
- `recommend_all`, which composes those lookups and their notes;
- the organic-manure and lime calculators;
- the rule tables that these build on, including fruit, sodium, nitrogen timing,
  yield and break-even-ratio (BER) adjustments, and the vegetable tables.

`rb209/engine.py` is modelled as written. Several operations are imported by
the tests and the command line but are not defined in it:

- `nitrogen_timing`;
- `calculate_veg_sns` and `smn_to_sns_index_veg`;
- `combine_sns`;
- `recommend_sodium` and the fruit recommendations;
- the yield and BER adjustments;
- the vegetable P/K/Mg lookups.

These are *reconstructions*. Each one is built over the shown data tables and
follows their doc comments and the tests. Each module that holds one says so.

All amounts are kg/ha, except that lime is in t/ha. Crops are an enumeration of
every slug the tables use. Three modules the engine imports are not part of
this model, so they become parameters:

- crops.py, whose `CROP_INFO` supplies the display name, the straw option and
  the crop note. It is the parameter `Catalogue`, and a crop is known exactly
  when it is in the catalogue.
- models.py, whose `PREVIOUS_CROP_N_CATEGORY` maps a previous crop to its
  N-residue category. It is the parameter `ResidueTable`. The model assumes
  its keys are exactly the `PreviousCrop` values: the engine first checks the
  name against that enum (rb209/engine.py:71-77) and then reads the table
  (rb209/engine.py:91), so a valid name missing from the table is not modelled.
- lime.py, with `LIME_FACTORS` and `MAX_SINGLE_APPLICATION`. It is the parameter
  `Lime.LimeConstants`, with the stated assumption that every factor is positive.

Errors are the `Failure` values of `Outcomes.Result`, one per `ValueError` the
source raises. Notes are tagged values that carry the numbers the source prints.

Modules, by source file:

| Module | Models |
|---|---|
| `Outcomes`, `Crops`, `Rows`, `Rounding` | shared vocabulary |
| `Engine` | index checks and the nutrient lookups |
| `Sns`, `SnsData` | the SNS methods and their tables |
| `Lime` | the lime calculator |
| `Organic`, `OrganicData` | the organic-manure calculator and its tables |
| `NitrogenData`, `PhosphorusData`, `PotassiumData`, `MagnesiumData`, `SulfurData` | the nutrient tables |
| `Timing`, `TimingData` | nitrogen timing |
| `Sodium`, `SodiumData` | sodium |
| `YieldData`, `BerData`, `Adjustments` | yield and BER adjustment |
| `Vegetables` | vegetable lookups |
| `Fruit`, `FruitData` | Section 7 fruit, vines and hops |

## Model

| member | source | states |
|---|---|---|
| Engine.CheckCrop | rb209/engine.py:35-38 | A crop is accepted exactly when the catalogue lists it, and the result is its catalogue entry; otherwise the result is the unknown-crop error. |
| Engine.CheckIndex | rb209/engine.py:41-45 | An index is accepted exactly when it is within the inclusive bounds, and it is returned unchanged; otherwise the result is an index error. |
| Engine.ClampIndex | rb209/engine.py:48-50 | The clamped key is at most the index and at most the largest key, and it equals one of the two. |
| Engine.RecommendNitrogen | rb209/engine.py:270-304 | Checks run in order: crop, then SNS index 0..6, which is rejected rather than clamped. With a soil type the result is only the soil-specific value, and a missing key fails. Without one it is the generic table value. The result is never negative. |
| Engine.RecommendPhosphorus | rb209/engine.py:309-323 | The crop, then the index 0..9, are checked. The result is the generic row at the index clamped to 4. A crop with no row fails. |
| Engine.RecommendPotassium | rb209/engine.py:328-354 | The crop, then the index 0..9, are checked. A crop with the straw option reads the straw-removed or straw-incorporated row, chosen by the flag. Other crops read the generic row, and a crop with no row fails. |
| Engine.RecommendMagnesium | rb209/engine.py:359-367 | Accepted exactly for indices 0..9. The value is the arable Mg row at the clamped index. |
| Engine.RecommendSulfur | rb209/engine.py:372-381 | The crop is checked. The value is the crop's sulphur rate, and a crop absent from the table fails. |
| Engine.RecommendAll | rb209/engine.py:386-435 | Succeeds exactly when all five single-nutrient calls succeed. The first failure in the order N, P, K, Mg, S is the one reported. Each field equals its single-nutrient call, and the notes are the composed note list. |
| Engine.AllNotesOrdered | rb209/engine.py:414-425 | The notes of `recommend_all` come in the source's order: the straw note, then the crop note, then the N-fixing note. |
| Engine.AllNotesCharacterised | rb209/engine.py:414-425 | The straw note, carrying the flag, is present iff the crop has the straw option. The crop note is present iff the crop has a note. The N-fixing note is present iff N is 0 and the crop is peas or field beans. |
| Engine.PulsesCarryNFixingNote | rb209/engine.py:424-425 | For peas and field beans without a soil type, N is 0 and the N-fixing note is always present. |
| Engine.NitrogenNonIncreasingInSns | rb209/data/nitrogen.py:9-207 | For a fixed crop and soil, a higher SNS index never gives more nitrogen. |
| Engine.IndicesAboveFourClamp | rb209/engine.py:317-367 | P, K and Mg at any index 4..9 equal the result at index 4. |
| Engine.IndicesOutsideRangeFail | rb209/engine.py:317-367 | For a known crop, P, K and Mg at an index outside 0..9 fail with the index error. |
| Engine.PhosphateZeroAtHighIndex | rb209/data/phosphorus.py:9-87 | Every arable crop gets 0 phosphate at any index 4..9. |
| Engine.MagnesiumValues | rb209/data/magnesium.py:8-14 | Arable Mg is 90 at index 0, 60 at index 1 and 0 from index 2 up to 9. |
| Engine.StrawRemovedNeedsMorePotash | rb209/data/potassium.py:11-30 | For a cereal with the straw option, potash with straw removed is never below potash with straw incorporated. |
| Engine.FruitHasNoSulfur | rb209/engine.py:379-380 | A fruit crop fails the sulphur lookup, as the shown engine is written. |
| Engine.VegetablesNotLookedUp | rb209/engine.py:17-32 | The shown engine never consults the vegetable tables: vegetable N without a soil type and vegetable P fail. |
| Engine.SoilSpecificOnlyForFeedWheat | rb209/data/nitrogen.py:485-518 | With a soil type, N succeeds iff the crop is feed winter wheat and the key is not an organic-soil SNS 0-2. |
| Crops.ParseSoilType | rb209/engine.py:78-82 | A parsed soil type's name is the input string. |
| Crops.ParseSoilTypeExact | rb209/engine.py:78-82 | A string parses to a soil type iff it is that soil type's name. |
| Crops.ParseRainfallExact | rb209/engine.py:83-89 | A string parses to a rainfall class iff it is that class's name. |
| Rows.StepsDownIsNonIncreasing | rb209/data/nitrogen.py:9-207 | A row whose neighbouring pairs step down is non-increasing at every pair of positions. |
| Rows.StepsDownNonNegative | rb209/data/nitrogen.py:9-207 | A non-increasing row whose last entry is non-negative has only non-negative entries. |
| Rows.Row5Descending | rb209/data/phosphorus.py:9-87 | Every five-entry table row (keys 0..4) is non-increasing and non-negative. |
| Rows.Row6Descending | rb209/data/fruit.py:12-56 | Every six-entry table row (keys 0..5) is non-increasing and non-negative. |
| Rows.Row7Descending | rb209/data/nitrogen.py:9-207 | Every seven-entry N row (SNS 0..6) is non-increasing and non-negative. |
| Rows.FirstAdmitting | rb209/engine.py:118-123 | The position found is the first whose bound admits the value: no earlier bound admits it, and a position inside the list does. |
| Sns.CalculateSns | rb209/engine.py:55-106 | The previous crop, then the soil, then the rainfall are checked, and the call succeeds exactly when all three are known. The index is the field table entry for the crop's residue category, the soil and the rainfall, in 0..6, as a field assessment with the residue note. |
| Sns.SnsValueToIndex | rb209/engine.py:109-123 | This first-match loop returns the same result as the recursive specification `SnsIndexOf`. |
| Sns.SnsIndexCharacterised | rb209/engine.py:118-123 | For a value of 0 or more the index is defined and in 0..6. Below 6 the value is at most that index's bound and above the previous bound. |
| Sns.SnsIndexMonotone | rb209/data/sns.py:113-121 | A larger SNS value never gives a lower index. |
| Sns.SnsIndexBoundaries | tests/test_sns.py:61-96 | 0 and 60 give index 0, 61 gives 1, 240 gives 5 and 241 gives 6, and a negative value fails. |
| Sns.CalculateSmnSns | rb209/engine.py:126-161 | A negative SMN or crop N fails. Otherwise the SNS value is their sum and the index converts that sum. The three notes carry the SMN, the crop N, and the total with its index. |
| Sns.SmnWorkedExample | tests/test_sns.py:106-122 | SMN 115 plus crop N 25 gives an SNS value of 140 and index 4. |
| Sns.LeyCategoryOf | rb209/engine.py:231-237 | Heavy soil maps to the heavy-low category iff rainfall is low. Only heavy soil maps to a heavy category, and only light soil to the light category. |
| Sns.LeyRowOf | rb209/engine.py:239-250 | The 3-5 year, high-N, grazed ley takes the 3-5 year row before the mixed test. The grazed-or-mixed row is taken exactly for the other grazed or mixed leys. Every other ley takes the low-N-or-cut row. |
| Sns.CalculateGrassLeySns | rb209/engine.py:164-265 | Inputs are checked in the order age, intensity, management, soil, organic soil, rainfall, year; the first one that fails gives its own error. The call succeeds iff every input is known, the soil is not organic and the year is 1..3. The index is the year's entry of the table row for the soil category and ley row. A success echoes the soil and rainfall, has no previous crop or measurements, and carries the one ley-history note. |
| Sns.GrassLeyWorkedExample | tests/test_examples.py:177-237 | A 3-5 year high-N ley, cut once then grazed, on medium soil with medium rainfall gives indices 2, 2 and 1 in years 1 to 3. |
| Sns.CombineSns | tests/test_examples.py:284-296 | Reconstruction. The combined index is the larger of the two, and on a tie the first assessment is kept. The result is labelled "combined" and carries both assessments' notes, in order. |
| Sns.CombineSnsIndexSymmetric | tests/test_examples.py:284-296 | The combined index does not depend on argument order. Combining with a lower or equal index keeps the first index. |
| Sns.CalculateSnsWithLey | tests/test_examples.py:298-318 | Reconstruction of `calculate_sns` with a grass history. It succeeds iff both the field assessment and the ley lookup succeed, and a field-assessment error comes first. The index is the higher of the two, labelled "combined". |
| Sns.CombinedWorkedExample | tests/test_examples.py:284-318 | After cereals (low residue) on heavy soil with high rainfall, the field index is 1. Year 2 of a 1-2 year high-N grazed ley gives 2, so the combined index is 2. |
| Sns.CalculateVegSns | rb209/data/sns.py:124-131 | Reconstruction. The previous crop, then the soil, then the rainfall are checked, each unknown one giving its own error. It succeeds iff all three are known. Mineral soils read the vegetable field table and carry the previous-crop index note. A success echoes the three inputs. Organic soil gives advisory index 4 and peat index 5, each with the FACTS note. |
| Sns.VegSnsRejectsArableClasses | tests/test_veg.py:60-80 | The arable soil "heavy", the rainfall "medium" and an arable previous crop are rejected by the vegetable method. |
| Sns.SmnToSnsIndexVeg | rb209/data/sns.py:271-278 | Reconstruction. It succeeds iff the SMN is 0 or more and the depth is 30, 60 or 90. The index is 6 iff the value exceeds the last bound. Otherwise the value is at most its index's bound and above the previous bound. |
| Sns.VegSmnBoundaries30 | tests/test_veg.py:95-148 | At 30 cm, 19.9 gives index 0, 20 gives 1 and 81 gives 6. |
| Sns.VegSmnBoundariesDeeper | tests/test_veg.py:95-148 | At 60 cm 161 gives index 6. At 90 cm 59.9 gives 0 and 60 gives 1. A depth of 45 fails. |
| SnsData.FieldSnsIndex | rb209/data/sns.py:13-69 | The field table is total over residue category, soil and rainfall, and every entry is in 0..6. |
| SnsData.FieldSnsMonotoneInResidue | rb209/data/sns.py:13-69 | For fixed soil and rainfall, the index never falls from low to medium to high to very-high residue. |
| SnsData.GrassLeyIndices | rb209/data/sns.py:88-108 | The ley table is total over the four soil categories and three rows, and every entry is in 0..6. |
| SnsData.GrassLeyRowsOrdered | rb209/data/sns.py:88-108 | For every category and year: low-N-or-cut ≤ high-N grazed-or-mixed ≤ high-N grazed 3-5 years. |
| SnsData.SnsValueTableShape | rb209/data/sns.py:113-121 | Seven bounds, strictly ascending, paired with indices 0..6. The last bound is unbounded, so the first-match search always finds an entry. |
| SnsData.VegFieldTableCoverage | rb209/data/sns.py:131-269 | The vegetable field table has an entry iff the soil is mineral, and every entry is in 0..6. |
| SnsData.VegSmnThresholdShape | rb209/data/sns.py:274-278 | Threshold lists exist iff the depth is 30, 60 or 90. Each has six finite, strictly ascending bounds paired with indices 0..5. |
| NitrogenData.SoilSpecificN | rb209/data/nitrogen.py:485-518 | A soil-specific value exists iff the crop is feed winter wheat, the SNS is 0..6 and the key is not organic soil at SNS 0-2. Every value is at least 20. |
| NitrogenData.SoilSpecificRow | rb209/data/nitrogen.py:485-518 | The organic-soil row has four entries (SNS 3..6) and the others have seven. Each is non-increasing and ends at 20. |
| NitrogenData.NvzLimit | rb209/data/nitrogen.py:217-282 | No fruit crop has an NVZ limit, and every limit is non-negative. |
| NitrogenData.NvzWarning | rb209/data/nitrogen.py:217-282 | Reconstruction of the NVZ note: present iff the crop has a limit and N is strictly above it. It carries N and the limit. |
| NitrogenData.SoilSpecificNonIncreasing | rb209/data/nitrogen.py:485-518 | For each soil, a higher SNS index never gives more soil-specific nitrogen. |
| NitrogenData.NFixingCropsNeedNoNitrogen | rb209/data/nitrogen.py:109-125 | Peas, field beans, market peas and broad beans get 0 N at every SNS index and have an NVZ limit of 0. |
| NitrogenData.MillingAtLeastFeed | rb209/data/nitrogen.py:10-26 | Milling wheat N is never below feed wheat N. It is exactly 40 more at every SNS index except 4. |
| NitrogenData.NvzLimitCoverage | rb209/data/nitrogen.py:217-282 | The NVZ limits cover every arable crop except linseed, and every vegetable except rocket, bulbs, coriander and mint. They cover no fruit. |
| NitrogenData.NvzWarningExamples | tests/test_engine.py:263-357 | Feed wheat at exactly its limit of 220 gets no note, and at 250 it does. Linseed never does. Spring barley at 160 exceeds its 150 limit. |
| PhosphorusData.VegPRow | rb209/data/phosphorus.py:91-160 | Every vegetable except courgettes (top dressing) has a phosphate row. |
| PhosphorusData.CerealsSharePhosphateRow | rb209/data/phosphorus.py:11-17 | All eight cereals share the phosphate row 110/85/60/30/0. |
| PhosphorusData.GenericPhosphateZeroAtFour | rb209/data/phosphorus.py:17-86 | Every arable crop's phosphate at index 4 is 0. |
| PotassiumData.StrawRemovedRow | rb209/data/potassium.py:11-19 | The straw-removed table has a row exactly for the cereals. |
| PotassiumData.StrawIncorporatedRow | rb209/data/potassium.py:22-30 | The straw-incorporated table has a row exactly for the cereals. |
| PotassiumData.GenericKRow | rb209/data/potassium.py:33-111 | The generic potash table has a row exactly for the arable crops that are not cereals. |
| PotassiumData.VegKRow | rb209/data/potassium.py:116-208 | Every vegetable except courgettes (top dressing) has a potash row. |
| PotassiumData.K2Upper | rb209/data/potassium.py:212-244 | Every vegetable except the two asparagus entries and courgettes (top dressing) has a 2+ value. |
| PotassiumData.StrawRemovedAtLeastIncorporated | rb209/data/potassium.py:11-30 | At every index, straw removed ≥ straw incorporated, strictly at indices 0-2. |
| PotassiumData.K2UpperBelowK2Lower | rb209/data/potassium.py:210-244 | Wherever a 2+ value exists, the crop's index-2 (2-) value exists and is strictly larger. |
| MagnesiumData.ArableMgRow | rb209/data/magnesium.py:8-14 | Arable Mg is 90 at index 0 and 60 at index 1. |
| MagnesiumData.VegMgRow | rb209/data/magnesium.py:17-23 | Vegetable Mg is 150 at index 0 and 100 at index 1. |
| MagnesiumData.VegMgAtLeastArable | rb209/data/magnesium.py:8-23 | At every index 0..4, vegetable Mg ≥ arable Mg, and both are 0 from index 2. |
| SulfurData.SulfurRate | rb209/data/sulfur.py:9-83 | Every arable and vegetable crop has a sulphur rate and no fruit crop does. Every rate is in 0..75. |
| SulfurData.OilseedRapeHasTheMaximum | rb209/data/sulfur.py:9-83 | The rate 75 belongs to winter oilseed rape and to no other crop. |
| SulfurData.VegetableSulfurGroups | rb209/data/sulfur.py:44-82 | Brassicas, including swedes and turnips, get 50. Market peas, broad and dwarf beans and courgettes (top dressing) get 0. Every other vegetable gets 25. |
| SulfurData.PulsesGetNoSulfur | rb209/data/sulfur.py:26-27 | Peas and field beans get 0 sulphur. |
| Lime.CalculateLime | rb209/engine.py:513-565 | The soil, then the current pH (3..9), then the target pH (4..8.5) are checked. At or above target, lime is 0 with only the no-lime note. Otherwise lime is the rounded deficit times the soil factor, with the split note iff it exceeds the single-application ceiling. |
| Lime.LimeNonNegativeAndClose | rb209/engine.py:548-550 | With positive factors, lime is never negative and is within 0.05 t/ha of the exact deficit times factor. |
| Lime.LimeMonotoneInTarget | rb209/engine.py:548-550 | Raising the target pH never lowers the lime required. |
| Lime.HeavySoilExample | tests/test_engine.py:188-201 | With a heavy-soil factor of 7.5, raising pH 4.5 to 7.5 needs 22.5 t/ha, and the split note is added against a 7.5 t/ha ceiling. |
| Organic.TimingFactor | rb209/engine.py:479-494 | A material without a factor table fails, as do an unknown timing and a missing key. Otherwise the factor is the table entry for the timing, the soil category and the incorporation flag. |
| Organic.AvailableN | rb209/engine.py:479-497 | Without a timing, available N is the rounded coefficient times the rate. With one, it is the rounded factor times total N per unit times the rate, and it fails exactly when the factor does. |
| Organic.Supply | rb209/engine.py:465-507 | A negative rate fails. Every output is round1(coefficient × rate), and available N follows the timing rule. |
| Organic.CalculateOrganic | rb209/engine.py:440-508 | An unknown material fails. Otherwise the result is the material's supply. |
| Organic.AvailableNeverAboveTotal | rb209/data/organic.py:172-293 | Every successful calculation has 0 ≤ available N ≤ total N, and all its other outputs are non-negative. |
| Organic.SummerIncorporationFails | rb209/engine.py:488-493 | With a factor table, summer plus incorporation fails, because the key is absent. |
| Organic.NoFactorTableFailsWithTiming | rb209/data/organic.py:147-162 | Composts and paper crumble fail whenever a timing is given. |
| Organic.ZeroRateSuppliesNothing | rb209/engine.py:465-507 | A rate of 0 gives 0 for every nutrient. |
| Organic.PigSlurrySpringExample | rb209/data/organic.py:108-124 | 40 m³ of pig slurry, spring-applied to light soil, gives 144 total N and 72 available N. |
| OrganicData.ParseMaterial | rb209/data/organic.py:172-293 | A parsed material's slug is the input string. |
| OrganicData.ParseMaterialExact | rb209/data/organic.py:172-293 | Every material's slug parses back to that material. |
| OrganicData.InfoContentsSensible | rb209/data/organic.py:172-293 | For every material, 0 ≤ available N ≤ total N, and every other coefficient is non-negative. |
| OrganicData.ParseSeason | rb209/data/organic.py:10-25 | Each of the four timing names parses to its season, and only that name does. |
| OrganicData.TimingSoilCategory | rb209/data/organic.py:165-170 | The category is sandy iff the soil is "light". Medium, heavy, organic or no soil give medium-heavy. |
| OrganicData.FactorTableOf | rb209/data/organic.py:152-162 | Every material except the two composts and paper crumble has a factor table. |
| OrganicData.IncorporatedFactors | rb209/data/organic.py:31-145 | Incorporated factors exist for every season except summer. |
| OrganicData.Factor | rb209/data/organic.py:31-145 | Each table has a factor for every key except summer with incorporation: 14 keys. |
| OrganicData.FactorsAreFractions | rb209/data/organic.py:31-145 | Every factor is a fraction in (0, 0.6]. |
| OrganicData.SandyNeverAboveMediumHeavy | rb209/data/organic.py:31-145 | For every table and key, the sandy factor is never above the medium-heavy one. |
| OrganicData.IncorporationLowersOnlyWinterSandySlurry | rb209/data/organic.py:88-124 | Incorporation lowers the factor exactly for winter slurry on sandy soil. |
| Timing.FirstRule | rb209/data/timing.py:1-18 | The rule found is the first that matches: no earlier rule matches the total and soil, and a position inside the list does. |
| Timing.Remainder | rb209/data/timing.py:12-13 | The last split takes the remainder, so the amounts sum to the rounded total. |
| Timing.AllocateSumsToTotal | rb209/data/timing.py:12-13 | Reconstruction. The split amounts always sum to round(total). |
| Timing.AllocateHeadShares | rb209/data/timing.py:12-13 | Every split but the last gets round(fraction × total). |
| Timing.AllocateSplits | rb209/data/timing.py:12-13 | This loop, which keeps a running allocated sum, computes the specified allocation. |
| Timing.Dressings | rb209/data/timing.py:12-13 | Each dressing pairs its allocated amount with its split's timing label. |
| Timing.AmountsOfDressings | rb209/data/timing.py:12-13 | The amounts of the dressings are the allocation. |
| Timing.NitrogenTiming | rb209/data/timing.py:1-18 | Reconstruction. The crop, then a negative total, then the soil are checked. The first matching rule's splits and notes are used. With no matching rule there is one split of the full rounded total and the no-guidance note. |
| Timing.AmountsSumToRoundedTotal | tests/test_timing.py:243-254 | Every plan's amounts sum to round(total N). |
| Timing.FirstMatchingRuleWins | rb209/data/timing.py:1-14 | If rule k is the first match, the plan is exactly that rule's dressings and notes. |
| Timing.IntegerTotalsGetGuidance | rb209/data/timing.py:26-349 | For a crop with rules, no whole-number total falls back to the no-guidance note. |
| Timing.FractionalTotalInGapFallsBack | rb209/data/timing.py:28-35 | 120.5 for feed wheat falls between ranges, so it gets a single split of 120 with the no-guidance note. |
| Timing.WinterBarleyExample | rb209/data/timing.py:98-123 | Winter barley at 200 is split 80/80/40 and carries the lodging note. |
| Timing.PotatoLightSoilExample | rb209/data/timing.py:178-199 | Maincrop potatoes at 270 on light soil are split 180/90. |
| Timing.PotatoNoSoilExample | tests/test_timing.py:111-142 | Maincrop potatoes at 270 with no soil get one full split. |
| Timing.NoRulesExample | tests/test_timing.py:191-204 | A crop with no rules gets one split of the full amount and the no-guidance note. |
| TimingData.TimingRulesCoverage | rb209/data/timing.py:20-349 | A crop has a non-empty rule list exactly when the timing table lists it. |
| TimingData.TimingRulesWellFormed | rb209/data/timing.py:12-13 | Within every rule, each fraction is in [0, 1] and the fractions sum to exactly 1. |
| TimingData.IntegerTotalsAlwaysMatch | rb209/data/timing.py:26-349 | For every crop with rules, every whole-number total ≥ 0 and every soil, some rule matches. |
| Sodium.RecommendSodium | rb209/data/sodium.py:1-45 | Reconstruction. The crop is checked, then a K index outside 0..9 is rejected. Sugar beet without a K index fails. Sugar beet reads its row at the index clamped to 4. Asparagus gets 500 and grassland 140. Every other crop gets 0, not an error. |
| Sodium.SodiumNotes | rb209/data/sodium.py:49-80 | A crop has sodium notes iff it has a note key. |
| Sodium.SugarBeetSodiumNonIncreasing | rb209/data/sodium.py:16-22 | Sugar-beet sodium never rises with the K index and is 0 from index 4. |
| Sodium.RateComesWithNotes | rb209/data/sodium.py:49-80 | Every positive rate comes with notes. Only celery, asparagus in its establishment year and sugar beet have notes at a zero rate. |
| Sodium.SodiumExamples | tests/test_sodium.py:13-86 | Sugar beet gives 100 at K index 2, 0 at 6, and fails at 10. Asparagus gives 500, its establishment year 0, and grass hay 140. Celery gives 0 with its responsiveness note. |
| SodiumData.SugarBeetNaRow | rb209/data/sodium.py:16-22 | Sugar beet gets 200 sodium at K index 0 and 0 at index 4. |
| SodiumData.FlatNaRate | rb209/data/sodium.py:28-30 | Only asparagus has a flat rate. |
| SodiumData.NoteKeyOf | rb209/data/sodium.py:40-45 | A crop uses the grassland note key iff it is one of the four grassland crops. |
| SodiumData.NotesOfKey | rb209/data/sodium.py:49-80 | Every note key has at least one note. |
| Adjustments.CappedYield | rb209/data/yield_adjustments.py:1-25 | The yield used is never above the expected yield, nor above the cap when there is one. |
| Adjustments.YieldAdjusted | rb209/data/yield_adjustments.py:1-25 | The adjusted amount is clamped at 0. |
| Adjustments.AdjustForYield | tests/test_yield.py:24-104 | Reconstruction. No yield leaves the amount alone. A yield for a crop without a record fails. Otherwise the result is the adjusted amount. |
| Adjustments.YieldAtBaselineUnchanged | tests/test_yield.py:24-104 | A yield equal to the baseline, or a zero per-tonne coefficient, leaves a non-negative amount unchanged. |
| Adjustments.YieldAboveCap | rb209/data/yield_adjustments.py:29-35 | Any yield at or above the cap gives the same result as the cap. |
| Adjustments.YieldMonotone | rb209/data/yield_adjustments.py:27-201 | With well-formed records, a higher expected yield never gives less. |
| Adjustments.YieldShiftMonotone | rb209/data/yield_adjustments.py:27-201 | The shift from the baseline never falls as the yield rises. |
| Adjustments.BlendFalls | rb209/data/ber.py:11-30 | A linear blend between two points with falling deltas stays between them and falls as the ratio rises. |
| Adjustments.ClampRatio | tests/test_ber.py:115-129 | The ratio used is in [2, 10] and equals the input inside that range. |
| Adjustments.ApplyBer | tests/test_ber.py:24-56 | Without a ratio, or for a crop outside the BER groups, N is unchanged. Otherwise the result is never negative. |
| Adjustments.BerChangeFalls | rb209/data/ber.py:11-30 | A higher ratio never gives a larger change, and the change stays between the deltas at ratios 10 and 2. |
| Adjustments.BerChangeAtPoints | rb209/data/ber.py:11-30 | At a tabulated ratio, the change is exactly that point's delta. |
| Adjustments.BerChangeClamps | tests/test_ber.py:115-129 | A ratio at or below 2 takes the delta at 2, and one at or above 10 takes the delta at 10. |
| Adjustments.BerBlendExamples | tests/test_ber.py:79-112 | Wheat at 4.5 gives +5, barley at 5.5 gives −5, and barley at 9 gives −22.5. |
| Adjustments.RecommendNitrogenAdjusted | tests/test_ber.py:115-129 | Reconstruction. Engine errors pass through. Otherwise the yield adjustment applies first, then BER, and the result is never negative. |
| Adjustments.RecommendPhosphorusAdjusted | tests/test_yield.py:66-104 | Engine errors pass through. Otherwise phosphate is adjusted for yield with the P coefficient. |
| Adjustments.RecommendPotassiumAdjusted | tests/test_yield.py:66-104 | Engine errors pass through. Otherwise potash is adjusted for yield with the K coefficient. |
| Adjustments.NoAdjustmentIsEngine | tests/test_ber.py:44-47 | With neither yield nor ratio, the adjusted N is the engine's N. A crop outside the BER groups ignores the ratio. |
| Adjustments.AdjustedNitrogenFallsWithBer | rb209/data/ber.py:11-30 | A higher break-even ratio never gives more adjusted N. |
| Adjustments.YieldExamples | tests/test_yield.py:24-56 | Feed wheat at SNS 2 (150) gives 190 at 10 t/ha, 110 at 6 and 250 at 15 through the cap. SNS 5 at 4 t/ha is clamped to 0. |
| Adjustments.YieldRecordExamples | tests/test_yield.py:66-104 | Linseed with a yield fails for lack of a record. Maincrop potato potash at SNS 2 and 60 t/ha is 238. |
| Adjustments.YieldThenBerExamples | tests/test_ber.py:115-129 | Feed wheat at 10 t/ha gives 220 at BER 2 and 160 at BER 10, because BER applies after yield. |
| YieldData.YieldTableShape | rb209/data/yield_adjustments.py:27-201 | Every record has a positive baseline and non-negative coefficients. Only the two winter wheats carry a cap, and potato N coefficients are 0. |
| YieldData.CropsWithoutYieldData | tests/test_yield.py:47-51 | Linseed, spring barley, asparagus, celery, market peas, broad beans, sweetcorn, courgettes and bulbs have no yield record. |
| BerData.BerGroupOf | rb209/data/ber.py:33-39 | The three wheats map to the wheat group and the two barleys to the barley group. No other crop maps to a group. |
| BerData.BerTableShape | rb209/data/ber.py:11-30 | Each group has points at ratios 2, 3, 4, 5, 6, 7, 8 and 10, with delta 0 at 5. The ratios rise and the deltas strictly fall. |
| Vegetables.RecommendNitrogenVeg | rb209/data/nitrogen.py:284-483 | Reconstruction. A non-vegetable crop behaves as the engine does. A vegetable succeeds iff it is known and the SNS index is in 0..6, and the result is never negative. |
| Vegetables.RecommendPhosphorusVeg | rb209/data/phosphorus.py:91-160 | A non-vegetable crop behaves as the engine does. A vegetable is checked for crop and index 0..9, then reads its row at the clamped index or fails. |
| Vegetables.VegPotash | rb209/data/potassium.py:210-244 | A vegetable's potash exists iff it has a potash row. |
| Vegetables.RecommendPotassiumVeg | rb209/data/potassium.py:116-244 | A non-vegetable crop behaves as the engine does. A vegetable reads its row at the clamped index, with the 2+ override when the upper-half flag is set. |
| Vegetables.RecommendMagnesiumFor | tests/test_veg.py:386-403 | With no crop, or a non-vegetable, the arable rates apply. A vegetable reads the vegetable row at the clamped index. An unknown crop fails. |
| Vegetables.VegNitrogenNonIncreasing | rb209/data/nitrogen.py:284-483 | Vegetable N never rises with the SNS index, and the N-fixing vegetables get 0. |
| Vegetables.UpperHalfOnlyLowersIndexTwo | tests/test_veg.py:335-371 | The upper-half flag never raises potash. It lowers it exactly at K index 2, for crops with a 2+ value. |
| Vegetables.VegIndicesAboveFourClamp | tests/test_veg.py:324-329 | Vegetable P, K and Mg at any index 4..9 equal the result at index 4. |
| Vegetables.VegMagnesiumAtLeastArable | rb209/data/magnesium.py:8-23 | A vegetable never gets less Mg than the arable rate at the same index. |
| Vegetables.VegPotashExamples | tests/test_veg.py:335-371 | At K index 2, Brussels sprouts get 200 as 2- and 150 as 2+, celery gets 300 as 2+, and asparagus in its establishment year keeps 200. |
| Vegetables.VegMagnesiumExamples | tests/test_veg.py:386-403 | Brussels sprouts get 150 at Mg index 0, feed wheat 90, and no crop 60 at index 1. |
| FruitData.ParseFruitSoilExact | rb209/data/fruit.py:64-114 | A string parses to a fruit soil iff it is that soil's name. |
| FruitData.ParseOrchardManagementExact | rb209/data/fruit.py:64-114 | A string parses to an orchard management iff it is that management's name. |
| FruitData.HopsNitrogen | rb209/data/fruit.py:308-316 | Hops N exists for every soil except light sand. |
| FruitData.OverallGrassIsStripPlus40 | rb209/data/fruit.py:64-114 | For every top fruit and soil, overall-grass N is grass-strip N plus 40. |
| FruitData.SoftFruitGroups | rb209/data/fruit.py:196-229 | All soft fruit share the phosphate and Mg rows. Potash differs at an index iff the index is below 4 and the crops are in different groups. |
| Fruit.FruitPkmRow | rb209/data/fruit.py:6-56 | Pre-plant and hops rows have six keys (0..5) and the others five (0..4). |
| Fruit.FruitPkmRowDescending | rb209/data/fruit.py:6-343 | Every fruit P, K and Mg row is non-increasing and non-negative. |
| Fruit.FruitPkmRate | rb209/data/fruit.py:6-56 | Up to the last key the rate is the row entry. From the last key ("N and over") on, it is the last entry. |
| Fruit.RecommendFruitPkm | rb209/data/fruit.py:117-139 | Reconstruction. The crop is checked, then that it is fruit, then the three indices 0..9. The result is the three clamped rates. |
| Fruit.FruitPkmNonIncreasing | rb209/data/fruit.py:6-343 | Higher indices never give more phosphate, potash or Mg. |
| Fruit.FruitIndicesAboveLastKeyClamp | tests/test_fruit.py:346-352 | Any indices from the last key to 9 equal the result at the last key, which is (0, 0, 0). |
| Fruit.FruitIndicesOutsideRangeFail | tests/test_fruit.py:482-525 | Any index outside 0..9 fails. |
| Fruit.TopFruitShareOneTable | tests/test_fruit.py:154-163 | All top fruit get the same P, K and Mg for the same indices. |
| Fruit.SoftFruitPkmGroups | tests/test_fruit.py:203-227 | Soft fruit share phosphate and Mg. Potash differs iff K is below 4 and the crops are in different groups. |
| Fruit.RecommendFruitNitrogen | rb209/data/fruit.py:59-316 | Reconstruction. The crop, then that it is fruit, then the soil are checked. Every success is non-negative. |
| Fruit.PreplantNeedsNoNitrogen | rb209/data/fruit.py:6-56 | Pre-plant fruit, vines and hops need 0 N. |
| Fruit.TopFruitNitrogenByManagement | tests/test_fruit.py:122-124 | Top fruit without an orchard management fails, as does an unknown one. Otherwise the result is the table value for crop, soil and management. |
| Fruit.OverallGrassAddsForty | rb209/data/fruit.py:64-114 | Top fruit N under overall grass is N under a grass strip plus 40. |
| Fruit.SoftFruitNitrogenBySoil | rb209/data/fruit.py:142-193 | Soft fruit N is the table entry for crop and soil. |
| Fruit.StrawberryNitrogenInputs | tests/test_fruit.py:263-281 | Strawberries without an SNS index fail, and an index outside 0..6 fails. Clay reads the other-mineral row. |
| Fruit.StrawberryNitrogenBySns | rb209/data/fruit.py:232-281 | For every strawberry crop, soil and SNS 0..6 the result is the Table 7.8 row for that crop and soil at the SNS index clamped to 5. |
| Fruit.StrawberryNitrogenNonIncreasing | rb209/data/fruit.py:232-281 | Strawberry N never rises with SNS, and SNS 6 gives the same as 5. |
| Fruit.HopsNitrogenBySoil | tests/test_fruit.py:314-316 | Hops on light sand fail. On any other soil the result is the table value. |
| Fruit.RecommendFruitAll | tests/test_fruit.py:404-421 | Succeeds iff both the N and the P/K/Mg recommendations succeed. An N error comes first; when N succeeds, a P/K/Mg error is the one reported. Each field is its single recommendation. |
| Fruit.TopFruitExample | tests/test_fruit.py:47-81 | Dessert apples on light sand with a grass strip get 80 N, and 20/80/50 at indices 2. |
| Fruit.SoftFruitExample | tests/test_fruit.py:154-227 | Raspberries on other mineral soil get 100 N, and 70/180/65 at indices 1. |
| Fruit.StrawberryExample | tests/test_fruit.py:263-281 | Main-season strawberries on light sand at SNS 1 get 50 N, and 40/80/50 at indices 2. |
| Fruit.HopsExample | tests/test_fruit.py:314-316 | Hops on clay get 200 N, and 150/275/50 at indices 2. |
| Fruit.FruitAllExamples | tests/test_fruit.py:404-421 | The four examples combine into complete fruit recommendations. |
| Fruit.FruitErrorExamples | tests/test_fruit.py:482-525 | The source's error cases: an arable crop, an unknown soil, an unknown orchard management and a negative index all fail. |
| Rounding.RoundHalfEvenNearest | rb209/engine.py:477-507 | `round` gives an integer within one half of its argument, and an even one when exactly halfway. |
| Rounding.RoundHalfEvenUnique | rb209/engine.py:477-507 | Any integer with those two properties is the result. |
| Rounding.RoundHalfEvenMonotone | rb209/engine.py:477-507 | A larger argument never rounds lower. |
| Rounding.Round1 | rb209/engine.py:477-507 | `round(x, 1)` is within 0.05 of `x`. |
| Rounding.Round1Monotone | rb209/engine.py:477-507 | A larger argument never gives a smaller tenth. |
| Rounding.Round1OfTenths | rb209/engine.py:550 | A value already in tenths is unchanged. |

## Left out

- The command-line interface: argument parsing, output formatting, exit codes and the flag-presence checks (rb209/cli.py). The formatters module is not part of this model.
- Binary floating point. Amounts, pH values and rates are exact reals. `round` and `round(x, 1)` are modelled as round-half-even on the exact value, so results that depend on the binary representation of a decimal input are not captured, for example tests/test_engine.py:213.
- Note wording. Every note is a tagged value carrying the numbers its sentence prints, not the sentence.
- crops.py, models.py and lime.py are not part of this model. `CROP_INFO`, `PREVIOUS_CROP_N_CATEGORY` and the lime constants are parameters, so the model proves nothing about their contents.
- Python's bool-is-int quirk, whereby `_validate_index` accepts `True` as 1 (rb209/engine.py:42). Dafny's `int` has no such value.
- Lime's `land_use` and `crop` arguments. Only the tests mention them, and the modelled lime function follows rb209/engine.py:513-565.
- The vegetable fixed-amount seedbed timing rules and the advisory notes about clover, hypomagnesaemia, combine drilling and potash splits. They are described only by the tests, not by any modelled file.
- Engine.RecommendNitrogen: with a soil type, a missing soil-specific key fails (rb209/engine.py:293-299). The tests expect a fallback to the generic table (tests/test_engine.py:73-79). The model follows the engine.
- Engine.RecommendSulfur: a crop absent from the sulphur map fails, so every fruit crop fails (`Engine.FruitHasNoSulfur`). The tests expect 0 (tests/test_fruit.py:418-421). The model follows the engine.
- Engine.RecommendAll: a soil-specific miss fails the whole recommendation, as in the engine.
- Engine.RecommendAll: follows rb209/engine.py:386-435, which has no sodium field or sodium notes (tests/test_sodium.py:89-181), no `expected_yield`/`ber` arguments or their notes (tests/test_yield.py:107-149, tests/test_ber.py:58-75) and no `k_upper_half` argument or its 2+/2- note (tests/test_veg.py:483-490). Those arguments, fields and notes are described only by the tests and are not modelled in the combined recommendation; sodium, yield, BER and the 2+ potash rate are modelled as separate operations.
- Sodium.RecommendSodium: a K index given for a crop other than sugar beet is still checked against 0..9. This is a choice about an unspecified case.
- Fruit.RecommendFruitPkm: indices outside 0..9 are rejected, the same range as the engine's P/K indices. The tests pin only −1 as an error.
- Fruit.RecommendFruitNitrogen: the soil is checked before the crop group. Strawberry SNS is checked against 0..6 and clamped to 5. These orders and ranges are reconstructions.
- Fruit.RecommendFruitAll: nitrogen is computed, and its error reported, before P, K and Mg. The result has no notes: the six advisory notes the tests expect (cider, Ben-series, Verticillium, split N, SNS Index and K:Mg ratio; tests/test_fruit.py:424-482) are described only by the tests and are not modelled.
- Timing.NitrogenTiming: a crop with no rules and a total that matches no rule both get the single "Single application" dressing with the no-guidance note.
- Adjustments.RecommendNitrogenAdjusted: adjusted amounts are exact reals and are not rounded back to whole kilograms.
- Expected values in tests/test_examples.py that contradict the data tables follow the tables. Examples are the biosolids total N and the pig FYM potash.
