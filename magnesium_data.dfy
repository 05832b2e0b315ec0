/** Magnesium tables (kg MgO/ha), keyed by Mg index 0..4 where 4 stands for
    "4 and over": one row for arable crops and one for vegetables. */
module MagnesiumData {
  import opened Rows

  /** MAGNESIUM_RECOMMENDATIONS. */
  function ArableMgRow(): (r: Row5)
    ensures r[0] == 90 && r[1] == 60
  {
    [90, 60, 0, 0, 0]
  }

  /** VEG_MAGNESIUM_RECOMMENDATIONS. */
  function VegMgRow(): (r: Row5)
    ensures r[0] == 150 && r[1] == 100
  {
    [150, 100, 0, 0, 0]
  }

  /** At every index a vegetable needs at least as much magnesium as an arable
      crop, and both need none from index 2 on. */
  lemma VegMgAtLeastArable(i: int)
    requires 0 <= i <= 4
    ensures VegMgRow()[i] >= ArableMgRow()[i]
    ensures i >= 2 ==> VegMgRow()[i] == 0 && ArableMgRow()[i] == 0
  {
  }
}
