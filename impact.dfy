/**
 * How many cells a histogram's cutoff range would remove from the column it
 * plots, as a count, a rounded percentage and a high-impact flag.
 */
module Impact {
  import opened Optional
  import opened Settings
  import opened Catalog
  import opened Visibility

  /** The only data category for which the impact is computed. */
  const CellStatsCategory: string := "cell_rna_stats"

  /** Percentages strictly above this are flagged as high impact. */
  const HighImpactPercent: int := 30

  /**
   * A JavaScript number produced by `Math.round(affected / total * 100)`:
   * a whole number, or NaN when the column is empty (0 / 0).
   */
  datatype Percent = NaN | Whole(n: int)

  datatype ImpactResult = ImpactResult(
    affectedCount: nat,
    totalCells: nat,
    percent: Percent,
    isHighImpact: bool)

  /** The impact is computed only for histograms of the cell statistics with some cutoff set. */
  predicate ImpactApplies(category: Option<string>, s: FilterSettings)
    ensures ImpactApplies(category, s) ==> CutoffThresholds in VisibleControls(s.plotType)
    ensures ImpactApplies(category, s) ==> category == Some(CellStatsCategory) && (s.cutoffMin.Some? || s.cutoffMax.Some?)
  {
    && category == Some(CellStatsCategory)
    && s.plotType == Histogram
    && (s.cutoffMin.Some? || s.cutoffMax.Some?)
  }

  /** A value is removed when it is below a set minimum or above a set maximum; each bound is checked on its own. */
  predicate Affected(v: real, lo: Option<real>, hi: Option<real>)
  {
    (lo.Some? && v < lo.value) || (hi.Some? && v > hi.value)
  }

  /** Number of affected values, counted over the prefixes the scan visits. */
  function CountAffected(vals: seq<real>, lo: Option<real>, hi: Option<real>): (n: nat)
    ensures n <= |vals|
  {
    if vals == [] then 0
    else CountAffected(vals[..|vals| - 1], lo, hi) + (if Affected(vals[|vals| - 1], lo, hi) then 1 else 0)
  }

  /** Reference definition: the positions of the affected values. */
  function AffectedIndices(vals: seq<real>, lo: Option<real>, hi: Option<real>): set<nat>
  {
    set i: nat | i < |vals| && Affected(vals[i], lo, hi)
  }

  /** Extending the column by one value adds that value's position exactly when it is affected. */
  lemma AffectedIndicesSnoc(vals: seq<real>, lo: Option<real>, hi: Option<real>)
    requires vals != []
    ensures var n := |vals| - 1;
      AffectedIndices(vals, lo, hi)
        == AffectedIndices(vals[..n], lo, hi) + (if Affected(vals[n], lo, hi) then {n} else {})
  {
    var n := |vals| - 1;
    forall j: nat | j < n
      ensures vals[..n][j] == vals[j]
    {
    }
  }

  /** The count is the number of affected positions: every value is counted once, whichever bound it fails. */
  lemma {:induction false} CountIsCardinality(vals: seq<real>, lo: Option<real>, hi: Option<real>)
    ensures CountAffected(vals, lo, hi) == |AffectedIndices(vals, lo, hi)|
  {
    if vals == [] {
      assert AffectedIndices(vals, lo, hi) == {};
    } else {
      var n := |vals| - 1;
      CountIsCardinality(vals[..n], lo, hi);
      AffectedIndicesSnoc(vals, lo, hi);
      assert n !in AffectedIndices(vals[..n], lo, hi);
    }
  }

  /** `Math.round(affected / total * 100)` with ties rounded up, computed exactly. */
  function RoundedPercent(affected: nat, total: nat): (p: Percent)
    ensures p.NaN? <==> total == 0
    ensures p.Whole? ==> 2 * total * p.n - total <= 200 * affected < 2 * total * p.n + total
  {
    if total == 0 then NaN
    else
      DivBounds(200 * affected + total, 2 * total);
      Whole((200 * affected + total) / (2 * total))
  }

  /** A share of at most the whole column rounds to a percentage between 0 and 100. */
  lemma PercentInRange(affected: nat, total: nat)
    requires affected <= total
    ensures RoundedPercent(affected, total).Whole? ==> 0 <= RoundedPercent(affected, total).n <= 100
  {
    var p := RoundedPercent(affected, total);
    if p.Whole? {
      if p.n > 100 {
        MulMonotone(2 * total, 101, p.n);
        assert false;
      }
      if p.n < 0 {
        MulMonotone(2 * total, p.n, -1);
        assert false;
      }
    }
  }

  /** Floor division bounds the numerator between consecutive multiples of the divisor. */
  lemma DivBounds(x: nat, d: nat)
    requires d > 0
    ensures d * (x / d) <= x < d * (x / d) + d
  {
  }

  lemma MulMonotone(d: nat, a: int, b: int)
    requires a <= b
    ensures d * a <= d * b
  {
  }

  /** `percent > 30`; a NaN percentage is never high impact. */
  predicate IsHigh(p: Percent)
    ensures p.NaN? ==> !IsHigh(p)
    ensures p.Whole? ==> (IsHigh(p) <==> p.n >= 31)
  {
    p.Whole? && p.n > HighImpactPercent
  }

  /** The impact of cutoffs `lo`/`hi` on the values of one column. */
  function ImpactOn(vals: seq<real>, lo: Option<real>, hi: Option<real>): (r: ImpactResult)
    ensures r.totalCells == |vals|
    ensures r.affectedCount == |AffectedIndices(vals, lo, hi)| <= r.totalCells
    ensures r.percent == RoundedPercent(r.affectedCount, r.totalCells)
    ensures r.isHighImpact <==> |vals| > 0 && 200 * r.affectedCount >= 61 * |vals|
  {
    var affected := CountAffected(vals, lo, hi);
    var percent := RoundedPercent(affected, |vals|);
    CountIsCardinality(vals, lo, hi);
    if |vals| > 0 then
      HighImpactThreshold(affected, |vals|);
      ImpactResult(affected, |vals|, percent, IsHigh(percent))
    else
      ImpactResult(affected, |vals|, percent, IsHigh(percent))
  }

  /**
   * `getFilterImpact`: `None` when the impact does not apply or no column is
   * named by the plotted field; otherwise the impact on the first such column.
   */
  function FilterImpact(category: Option<string>, s: FilterSettings, cols: seq<Column>): (r: Option<ImpactResult>)
    ensures r.None? <==> !ImpactApplies(category, s) || forall j :: 0 <= j < |cols| ==> cols[j].name != s.field
    ensures r.Some? ==> r.value.affectedCount <= r.value.totalCells
  {
    if !ImpactApplies(category, s) then None
    else
      match FindColumn(cols, s.field)
      case None => None
      case Some(i) => Some(ImpactOn(cols[i].data, s.cutoffMin, s.cutoffMax))
  }

  /** The single scan over the column that `getFilterImpact` performs. */
  method GetFilterImpact(category: Option<string>, s: FilterSettings, cols: seq<Column>)
    returns (r: Option<ImpactResult>)
    ensures r == FilterImpact(category, s, cols)
  {
    if !ImpactApplies(category, s) {
      return None;
    }
    var colIndex := FindColumn(cols, s.field);
    if colIndex.None? {
      return None;
    }
    var colData := cols[colIndex.value].data;
    var totalCells := |colData|;
    var affectedCount := 0;
    for i := 0 to totalCells
      invariant affectedCount == CountAffected(colData[..i], s.cutoffMin, s.cutoffMax)
    {
      assert colData[..i + 1][..i] == colData[..i];
      if Affected(colData[i], s.cutoffMin, s.cutoffMax) {
        affectedCount := affectedCount + 1;
      }
    }
    assert colData[..totalCells] == colData;
    var percent := RoundedPercent(affectedCount, totalCells);
    return Some(ImpactResult(affectedCount, totalCells, percent, IsHigh(percent)));
  }

  /** High impact is exactly a removed share of at least 30.5%; a share of exactly 30% is not high impact. */
  lemma HighImpactThreshold(affected: nat, total: nat)
    requires total > 0
    ensures IsHigh(RoundedPercent(affected, total)) <==> 200 * affected >= 61 * total
  {
    var p := RoundedPercent(affected, total);
    if p.n >= HighImpactPercent + 1 {
      MulMonotone(2 * total, 31, p.n);
    } else {
      MulMonotone(2 * total, p.n, 30);
    }
  }

  /** With both bounds set and the minimum above the maximum, every value is removed. */
  lemma {:induction false} InvertedRangeRemovesAll(vals: seq<real>, lo: real, hi: real)
    requires lo > hi
    ensures CountAffected(vals, Some(lo), Some(hi)) == |vals|
  {
    if vals != [] {
      InvertedRangeRemovesAll(vals[..|vals| - 1], lo, hi);
    }
  }

  /** A bound `b` is at least as permissive as `a` on the low side. */
  predicate LooserMin(b: Option<real>, a: Option<real>)
  {
    b.None? || (a.Some? && b.value <= a.value)
  }

  /** A bound `b` is at least as permissive as `a` on the high side. */
  predicate LooserMax(b: Option<real>, a: Option<real>)
  {
    b.None? || (a.Some? && b.value >= a.value)
  }

  /** Loosening either cutoff (or clearing it) never removes more values. */
  lemma {:induction false} LooserCutoffsRemoveFewer(vals: seq<real>, lo: Option<real>, hi: Option<real>,
                                                    lo2: Option<real>, hi2: Option<real>)
    requires LooserMin(lo2, lo) && LooserMax(hi2, hi)
    ensures CountAffected(vals, lo2, hi2) <= CountAffected(vals, lo, hi)
  {
    if vals != [] {
      LooserCutoffsRemoveFewer(vals[..|vals| - 1], lo, hi, lo2, hi2);
    }
  }

  /**
   * What `getFilterImpact` reports: nothing unless the impact applies and a
   * column carries the plotted field's name; then, for the first such column,
   * the number of its affected values (each once), its length, the rounded
   * percentage (NaN only for an empty column, otherwise within 0..100) and
   * the high-impact flag.
   */
  lemma FilterImpactSpec(category: Option<string>, s: FilterSettings, cols: seq<Column>)
    ensures var r := FilterImpact(category, s, cols);
      && (r.None? <==> !ImpactApplies(category, s) || forall j :: 0 <= j < |cols| ==> cols[j].name != s.field)
      && (r.Some? ==> (exists i :: 0 <= i < |cols| && cols[i].name == s.field
                         && (forall j :: 0 <= j < i ==> cols[j].name != s.field)
                         && r.value.totalCells == |cols[i].data|
                         && r.value.affectedCount == |AffectedIndices(cols[i].data, s.cutoffMin, s.cutoffMax)|))
      && (r.Some? ==> r.value.affectedCount <= r.value.totalCells)
      && (r.Some? ==> r.value.percent == RoundedPercent(r.value.affectedCount, r.value.totalCells))
      && (r.Some? ==> (r.value.percent.NaN? <==> r.value.totalCells == 0))
      && (r.Some? && r.value.percent.Whole? ==> 0 <= r.value.percent.n <= 100)
      && (r.Some? ==> (r.value.isHighImpact <==>
            r.value.totalCells > 0 && 200 * r.value.affectedCount >= 61 * r.value.totalCells))
  {
    var r := FilterImpact(category, s, cols);
    if r.Some? {
      var i := FindColumn(cols, s.field).value;
      var vals := cols[i].data;
      CountIsCardinality(vals, s.cutoffMin, s.cutoffMax);
      PercentInRange(r.value.affectedCount, r.value.totalCells);
      if r.value.totalCells > 0 {
        HighImpactThreshold(r.value.affectedCount, r.value.totalCells);
      }
    }
  }

  /** An inverted range on a non-empty column removes every cell: 100%, high impact. */
  lemma InvertedRangeImpact(vals: seq<real>, lo: real, hi: real)
    requires lo > hi && |vals| > 0
    ensures ImpactOn(vals, Some(lo), Some(hi)) == ImpactResult(|vals|, |vals|, Whole(100), true)
  {
    InvertedRangeRemovesAll(vals, lo, hi);
    var t := |vals|;
    assert (200 * t + t) / (2 * t) == 100 by {
      DivBounds(200 * t + t, 2 * t);
      var q := (200 * t + t) / (2 * t);
      if q >= 101 {
        MulMonotone(2 * t, 101, q);
      } else if q <= 99 {
        MulMonotone(2 * t, q, 99);
      }
    }
  }

  /** The impact is only ever reported for a plot that shows the cutoff controls; never for a bar plot. */
  lemma ImpactNeedsThresholdControls(category: Option<string>, s: FilterSettings, cols: seq<Column>)
    ensures FilterImpact(category, s, cols).Some? ==> CutoffThresholds in VisibleControls(s.plotType)
    ensures s.plotType == Bar ==> FilterImpact(category, s, cols).None?
  {
  }

  /** Only the cutoff controls change the impact; every other control's update leaves it as it was. */
  lemma OtherUpdatesKeepImpact(category: Option<string>, u: Update, s: FilterSettings, cols: seq<Column>)
    requires Target(u) != CutoffMinField && Target(u) != CutoffMaxField
    ensures FilterImpact(category, Apply(u, s), cols) == FilterImpact(category, s, cols)
  {
  }

  /** Clearing the only cutoff that was set makes the impact not applicable. */
  lemma ClearingCutoffsDisablesImpact(category: Option<string>, s: FilterSettings, cols: seq<Column>)
    requires s.cutoffMax.None?
    ensures FilterImpact(category, Apply(SetCutoffMin(None), s), cols).None?
  {
  }

  /** The boundary cases: 1 of 6 is 17%; 3 of 10 is 30%, not high; 4 of 10 is 40%, high. */
  lemma PercentExamples()
    ensures RoundedPercent(1, 6) == Whole(17) && !IsHigh(RoundedPercent(1, 6))
    ensures RoundedPercent(3, 10) == Whole(30) && !IsHigh(RoundedPercent(3, 10))
    ensures RoundedPercent(4, 10) == Whole(40) && IsHigh(RoundedPercent(4, 10))
    ensures RoundedPercent(0, 0) == NaN && !IsHigh(RoundedPercent(0, 0))
  {
  }

  /** A column none of whose values fails a bound loses nothing. */
  lemma {:induction false} InRangeNotCounted(vals: seq<real>, lo: Option<real>, hi: Option<real>)
    requires forall i :: 0 <= i < |vals| ==> !Affected(vals[i], lo, hi)
    ensures CountAffected(vals, lo, hi) == 0
  {
    if vals != [] {
      InRangeNotCounted(vals[..|vals| - 1], lo, hi);
    }
  }

  /** A column of six values with only a maximum of 10: one cell of six, 17%, not high impact. */
  lemma MaxCutoffExample()
    ensures ImpactOn([1.0, 2.0, 3.0, 4.0, 5.0, 100.0], None, Some(10.0)) == ImpactResult(1, 6, Whole(17), false)
  {
    var lo, hi := None, Some(10.0);
    var vals := [1.0, 2.0, 3.0, 4.0, 5.0, 100.0];
    assert vals[..5] == [1.0, 2.0, 3.0, 4.0, 5.0];
    assert CountAffected([1.0, 2.0, 3.0, 4.0, 5.0], lo, hi) == 0 by {
      InRangeNotCounted([1.0, 2.0, 3.0, 4.0, 5.0], lo, hi);
    }
    assert CountAffected(vals, lo, hi) == 1;
    assert RoundedPercent(1, 6) == Whole(17);
  }
}
