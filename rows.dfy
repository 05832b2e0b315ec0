/** Table rows and the ordered threshold lists the data files use.

    A Python table keyed by (crop, index) is written here as one row per
    crop: key (crop, i) is present exactly when the crop has a row and
    0 <= i < |row|. */
module Rows {
  import opened Outcomes

  /** The entry at key `i` of an optional row. */
  function At(row: Option<seq<int>>, i: int): (r: Option<int>)
    ensures r.Some? <==> row.Some? && 0 <= i < |row.value|
    ensures r.Some? ==> r.value == row.value[i]
  {
    if row.Some? && 0 <= i < |row.value| then Some(row.value[i]) else None
  }

  predicate NonIncreasing(s: seq<int>) {
    forall i, j | 0 <= i <= j < |s| :: s[i] >= s[j]
  }

  /** Adjacent entries from position `k` on never rise; on a literal row this
      unfolds entry by entry. */
  predicate StepsDownFrom(s: seq<int>, k: nat)
    decreases |s| - k
  {
    k + 1 >= |s| || (s[k] >= s[k + 1] && StepsDownFrom(s, k + 1))
  }

  /** One more step down in front of a run that steps down. */
  lemma StepDown(s: seq<int>, k: nat)
    requires k + 1 < |s| && s[k] >= s[k + 1] && StepsDownFrom(s, k + 1)
    ensures StepsDownFrom(s, k)
  {
  }

  lemma {:induction false} StepsDownFromSuffix(s: seq<int>, k: nat)
    requires StepsDownFrom(s, k)
    ensures forall i, j | k <= i <= j < |s| :: s[i] >= s[j]
    decreases |s| - k
  {
    if k + 1 < |s| {
      StepsDownFromSuffix(s, k + 1);
    }
  }

  lemma StepsDownIsNonIncreasing(s: seq<int>)
    requires StepsDownFrom(s, 0)
    ensures NonIncreasing(s)
  {
    StepsDownFromSuffix(s, 0);
  }

  predicate AllNonNegative(s: seq<int>) {
    forall i | 0 <= i < |s| :: s[i] >= 0
  }

  /** A recommendation row as RB209 tabulates it: never negative, and never
      rising as the soil index rises. */
  predicate Descending(s: seq<int>) {
    NonIncreasing(s) && AllNonNegative(s)
  }

  /** Rows keyed by index 0..4, 0..5 and 0..6 respectively: each entry is
      at least the next and the last is not negative. A table whose rows
      have one of these types holds exactly those keys for every crop it
      lists, and the type checker checks every literal row of such a table
      against the chain of comparisons; RowNDescending turn the chain into
      `Descending`. */
  type Row5 = r: seq<int> | |r| == 5 && r[0] >= r[1] >= r[2] >= r[3] >= r[4] >= 0
    witness [0, 0, 0, 0, 0]
  type Row6 = r: seq<int> | |r| == 6 && r[0] >= r[1] >= r[2] >= r[3] >= r[4] >= r[5] >= 0
    witness [0, 0, 0, 0, 0, 0]
  type Row7 = r: seq<int> | |r| == 7 && r[0] >= r[1] >= r[2] >= r[3] >= r[4] >= r[5] >= r[6] >= 0
    witness [0, 0, 0, 0, 0, 0, 0]

  /** A run that steps down and ends non-negative is never negative. */
  lemma StepsDownNonNegative(s: seq<int>)
    requires |s| > 0 && s[|s| - 1] >= 0 && NonIncreasing(s)
    ensures AllNonNegative(s)
  {
  }

  lemma Row5Descending(r: Row5)
    ensures Descending(r)
  {
    assert StepsDownFrom(r, 4);
    StepDown(r, 3); StepDown(r, 2); StepDown(r, 1); StepDown(r, 0);
    StepsDownIsNonIncreasing(r);
    StepsDownNonNegative(r);
  }

  lemma Row6Descending(r: Row6)
    ensures Descending(r)
  {
    assert StepsDownFrom(r, 5);
    StepDown(r, 4); StepDown(r, 3); StepDown(r, 2); StepDown(r, 1); StepDown(r, 0);
    StepsDownIsNonIncreasing(r);
    StepsDownNonNegative(r);
  }

  lemma Row7Descending(r: Row7)
    ensures Descending(r)
  {
    assert StepsDownFrom(r, 6);
    StepDown(r, 5); StepDown(r, 4); StepDown(r, 3); StepDown(r, 2); StepDown(r, 1); StepDown(r, 0);
    StepsDownIsNonIncreasing(r);
    StepsDownNonNegative(r);
  }

  // ── Ordered upper-bound lists, evaluated first match wins ─────────────

  /** An inclusive upper bound; `Unbounded` is Python's float("inf"). */
  datatype UpperBound = AtMost(limit: real) | Unbounded

  predicate Admits(b: UpperBound, v: real) {
    b.Unbounded? || v <= b.limit
  }

  /** Position of the first entry whose bound admits `v`, or |t| if none does. */
  function FirstAdmitting(t: seq<(UpperBound, int)>, v: real): (p: nat)
    ensures p <= |t|
    ensures forall j | 0 <= j < p :: !Admits(t[j].0, v)
    ensures p < |t| ==> Admits(t[p].0, v)
    decreases |t|
  {
    if |t| == 0 then 0
    else if Admits(t[0].0, v) then 0
    else
      var q := FirstAdmitting(t[1..], v);
      assert forall j | 1 <= j < q + 1 :: t[j] == t[1..][j - 1];
      q + 1
  }

  /** The index paired with the first admitting bound, or `fallback`. */
  function FirstMatch(t: seq<(UpperBound, int)>, v: real, fallback: int): int {
    var p := FirstAdmitting(t, v);
    if p < |t| then t[p].1 else fallback
  }

  /** A larger value is admitted no earlier than a smaller one. */
  lemma {:induction false} FirstAdmittingMonotone(t: seq<(UpperBound, int)>, v: real, w: real)
    requires v <= w
    ensures FirstAdmitting(t, v) <= FirstAdmitting(t, w)
    decreases |t|
  {
    if |t| > 0 && !Admits(t[0].0, v) {
      FirstAdmittingMonotone(t[1..], v, w);
    }
  }

  /** The entries pair positions 0, 1, 2, ... with indices 0, 1, 2, ...,
      and the finite bounds strictly ascend. */
  predicate Consecutive(t: seq<(UpperBound, int)>) {
    forall i | 0 <= i < |t| :: t[i].1 == i
  }

  predicate StrictlyAscending(t: seq<(UpperBound, int)>) {
    forall i | 0 <= i < |t| - 1 :: t[i].0.AtMost? && (t[i + 1].0.Unbounded? || t[i].0.limit < t[i + 1].0.limit)
  }
}
