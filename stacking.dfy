/**
 * The stacked bar chart of analyst recommendations: each category's bars are drawn
 * on a `bottom` vector that is then raised, in place, by that category's values.
 */
module Stacking {
  import Recommendations

  /** Every category has one value per month. */
  predicate Aligned(values: seq<seq<int>>, width: nat) {
    forall c :: 0 <= c < |values| ==> |values[c]| == width
  }

  /** The sum, for month `j`, of the first `k` categories. */
  function ColumnSum(values: seq<seq<int>>, k: nat, j: nat): int
    requires k <= |values|
    requires forall c :: 0 <= c < k ==> j < |values[c]|
  {
    if k == 0 then 0 else ColumnSum(values, k - 1, j) + values[k - 1][j]
  }

  /** Where the bars of category `k` start: the element-wise sum of categories `0..k-1`. */
  function Base(values: seq<seq<int>>, k: nat, width: nat): seq<int>
    requires Aligned(values, width) && k <= |values|
  {
    seq(width, j requires 0 <= j < width => ColumnSum(values, k, j))
  }

  /** The bottoms of every category, in drawing order. */
  function Bases(values: seq<seq<int>>, width: nat): seq<seq<int>>
    requires Aligned(values, width)
  {
    seq(|values|, k requires 0 <= k < |values| => Base(values, k, width))
  }

  /**
   * Draws the categories in order, starting from a zero `bottom` and adding each
   * category into it after its bars are placed. Returns the bottom each category was
   * drawn on and the final height of every stack: the first category sits on zero,
   * each later one starts exactly where the previous one ends, and the top is where
   * the last one ends.
   */
  method StackBars(values: seq<seq<int>>, width: nat) returns (bases: seq<seq<int>>, top: seq<int>)
    requires Aligned(values, width)
    ensures bases == Bases(values, width)
    ensures top == Base(values, |values|, width)
    ensures |bases| == |values| && |top| == width
    ensures forall k :: 0 <= k < |bases| ==> |bases[k]| == width
    ensures |values| > 0 ==> forall j :: 0 <= j < width ==> bases[0][j] == 0
    ensures forall k, j :: 0 <= k < |values| - 1 && 0 <= j < width ==>
      bases[k + 1][j] == bases[k][j] + values[k][j]
    ensures |values| > 0 ==> forall j :: 0 <= j < width ==>
      top[j] == bases[|values| - 1][j] + values[|values| - 1][j]
    ensures |values| == 0 ==> forall j :: 0 <= j < width ==> top[j] == 0
  {
    var bottom := new int[width](_ => 0);
    bases := [];
    var k := 0;
    while k < |values|
      invariant 0 <= k <= |values|
      invariant bases == Bases(values, width)[..k]
      invariant bottom[..] == Base(values, k, width)
    {
      bases := bases + [bottom[..]];
      var j := 0;
      while j < width
        invariant 0 <= j <= width
        invariant forall i :: 0 <= i < j ==> bottom[i] == ColumnSum(values, k + 1, i)
        invariant forall i :: j <= i < width ==> bottom[i] == ColumnSum(values, k, i)
      {
        bottom[j] := bottom[j] + values[k][j];
        j := j + 1;
      }
      k := k + 1;
    }
    top := bottom[..];
  }

  // ---------------------------------------------------------------------------
  // What the stacking achieves.

  /** With non-negative counts the stack only grows: a later bottom is never below an earlier one. */
  lemma {:induction false} BasesGrow(values: seq<seq<int>>, width: nat, k: nat, m: nat, j: nat)
    requires Aligned(values, width) && k <= m <= |values| && j < width
    requires forall c, i :: 0 <= c < |values| && 0 <= i < width ==> values[c][i] >= 0
    ensures Base(values, k, width)[j] <= Base(values, m, width)[j]
  {
    if k < m {
      BasesGrow(values, width, k, m - 1, j);
      assert values[m - 1][j] >= 0;
    }
  }

  /** The height of a month's stack is the total number of analysts that month, over all five categories. */
  lemma StackHeight(chart: Recommendations.Chart, j: nat)
    requires Recommendations.WellShaped(chart) && j < 3
    ensures Aligned(chart.series, 3)
    ensures Base(chart.series, |chart.series|, 3)[j] ==
      chart.series[0][j] + chart.series[1][j] + chart.series[2][j] + chart.series[3][j] + chart.series[4][j]
  {
    var v := chart.series;
    assert |v| == 5;
    assert ColumnSum(v, 1, j) == v[0][j];
    assert ColumnSum(v, 2, j) == v[0][j] + v[1][j];
    assert ColumnSum(v, 3, j) == v[0][j] + v[1][j] + v[2][j];
    assert ColumnSum(v, 4, j) == v[0][j] + v[1][j] + v[2][j] + v[3][j];
  }

  /** The placeholder's stacks start at 0, 7, 11, 14 and 15 and reach 15 analysts every month. */
  lemma PlaceholderStacks()
    ensures Aligned(Recommendations.Placeholder.series, 3)
    ensures Bases(Recommendations.Placeholder.series, 3) ==
      [[0, 0, 0], [7, 7, 7], [11, 11, 11], [14, 14, 14], [15, 15, 15]]
    ensures Base(Recommendations.Placeholder.series, 5, 3) == [15, 15, 15]
  {
    var v := Recommendations.Placeholder.series;
    forall j | 0 <= j < 3
      ensures ColumnSum(v, 1, j) == 7 && ColumnSum(v, 2, j) == 11 && ColumnSum(v, 3, j) == 14
      ensures ColumnSum(v, 4, j) == 15 && ColumnSum(v, 5, j) == 15
    {
      assert ColumnSum(v, 1, j) == 7;
      assert ColumnSum(v, 2, j) == 11;
      assert ColumnSum(v, 3, j) == 14;
      assert ColumnSum(v, 4, j) == 15;
    }
    assert Base(v, 0, 3) == [0, 0, 0];
    assert Base(v, 1, 3) == [7, 7, 7];
    assert Base(v, 2, 3) == [11, 11, 11];
    assert Base(v, 3, 3) == [14, 14, 14];
    assert Base(v, 4, 3) == [15, 15, 15];
    assert Base(v, 5, 3) == [15, 15, 15];
  }
}
