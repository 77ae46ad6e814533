/**
 * The revenue/earnings series extractor: two labelled rows of a financial statement,
 * cut to the most recent periods and scaled to billions, and the positional quarter
 * labels the dashboards put under them.
 */
module Financials {
  import opened Common

  /** The report date of one statement column. */
  datatype Date = Date(year: int, month: int, day: int)

  /**
   * A financial statement as the provider returns it: report dates, most recent first,
   * and one value per date for every statement line, keyed by the line's label.
   */
  datatype RawStatement = RawStatement(dates: seq<Date>, lines: map<string, seq<real>>)

  /** A table is rectangular: every line has exactly one value per date column. */
  type Statement = t: RawStatement | forall l :: l in t.lines ==> |t.lines[l]| == |t.dates|
    witness RawStatement([], map[])

  const TotalRevenue: string := "Total Revenue"
  const NetIncome: string := "Net Income"

  /** The scale of the chart axis: values are shown in billions. */
  const Billion: real := 1000000000.0

  /** A table is empty when it has no columns or no rows. */
  predicate IsEmpty(t: Statement) {
    |t.dates| == 0 || |t.lines| == 0
  }

  /** How many elements `head(n)` keeps of a sequence of length `len`; a negative `n` drops the last `-n`. */
  function HeadLength(len: nat, n: int): (k: nat)
    ensures k <= len
    ensures n >= 0 ==> k == if n < len then n else len
    ensures n < 0 ==> k == if len + n > 0 then len + n else 0
  {
    if n >= 0 then (if n < len then n else len)
    else if len + n > 0 then len + n else 0
  }

  /**
   * `head(n)`: a prefix of `s`, namely its first `n` elements (all of them when there
   * are fewer), or for a negative `n` all but its last `-n` (none when there are fewer).
   */
  function Head<T>(s: seq<T>, n: int): (r: seq<T>)
    ensures |r| <= |s| && r == s[..|r|]
    ensures 0 <= n ==> |r| <= n && (|r| == n || r == s)
    ensures n < 0 ==> |r| - n >= |s| && (|r| - n == |s| || r == [])
  {
    s[..HeadLength(|s|, n)]
  }

  function Scaled(s: seq<real>): seq<real> {
    seq(|s|, i requires 0 <= i < |s| => s[i] / Billion)
  }

  /** Why a statement yields no series. */
  datatype FinError = EmptyData | MissingField(line: string)

  /** The extracted series: the kept report dates and both lines in billions, index-aligned. */
  datatype Series = Series(dates: seq<Date>, revenue: seq<real>, netIncome: seq<real>)

  /**
   * Empty table, then a missing "Total Revenue" row, then a missing "Net Income" row
   * are reported in that order; otherwise the first `periods` columns of both rows, in
   * billions.
   */
  function Extract(t: Statement, periods: int): (r: Result<Series, FinError>)
    ensures r == Err(EmptyData) <==> IsEmpty(t)
    ensures r.Err? <==> IsEmpty(t) || TotalRevenue !in t.lines || NetIncome !in t.lines
    ensures r.Err? && !IsEmpty(t) ==>
      r.error == MissingField(if TotalRevenue !in t.lines then TotalRevenue else NetIncome)
    ensures r.Ok? ==>
      var n := HeadLength(|t.dates|, periods);
      |r.value.dates| == n && |r.value.revenue| == n && |r.value.netIncome| == n &&
      forall i :: 0 <= i < n ==>
        r.value.dates[i] == t.dates[i] &&
        r.value.revenue[i] * Billion == t.lines[TotalRevenue][i] &&
        r.value.netIncome[i] * Billion == t.lines[NetIncome][i]
  {
    if IsEmpty(t) then Err(EmptyData)
    else if TotalRevenue !in t.lines then Err(MissingField(TotalRevenue))
    else if NetIncome !in t.lines then Err(MissingField(NetIncome))
    else Ok(Series(Head(t.dates, periods),
                   Scaled(Head(t.lines[TotalRevenue], periods)),
                   Scaled(Head(t.lines[NetIncome], periods))))
  }

  // ---------------------------------------------------------------------------
  // Labels.

  /** The chart of the single-symbol revenue view: one year label per kept column. */
  datatype YearChart = YearChart(years: seq<int>, revenue: seq<real>, netIncome: seq<real>)

  function RevenueEarningsChart(t: Statement, periods: int): (r: Result<YearChart, FinError>)
    ensures r.Err? <==> Extract(t, periods).Err?
    ensures r.Err? ==> r.error == Extract(t, periods).error
    ensures r.Ok? ==>
      var n := HeadLength(|t.dates|, periods);
      |r.value.years| == n && |r.value.revenue| == n && |r.value.netIncome| == n &&
      forall i :: 0 <= i < n ==>
        r.value.years[i] == t.dates[i].year &&
        r.value.revenue[i] * Billion == t.lines[TotalRevenue][i] &&
        r.value.netIncome[i] * Billion == t.lines[NetIncome][i]
  {
    match Extract(t, periods)
    case Err(e) => Err(e)
    case Ok(s) =>
      Ok(YearChart(seq(|s.dates|, i requires 0 <= i < |s.dates| => s.dates[i].year),
                   s.revenue, s.netIncome))
  }

  /** A label `Q{quarter}'{year}`. */
  datatype QuarterLabel = QuarterLabel(quarter: nat, year: nat)

  /**
   * The label of the `i`-th most recent column: the two newest are quarters 1 and 2
   * of '24, the older ones quarters 1, 2, ... of '23, whatever the column's date.
   */
  function PositionalLabel(i: nat): QuarterLabel {
    if i < 2 then QuarterLabel(i + 1, 24) else QuarterLabel(i - 1, 23)
  }

  /**
   * The labels of `n` columns, listed oldest column first: the two rightmost columns
   * are the '24 ones, every other column is a '23 one, and no label repeats.
   */
  function QuarterLabels(n: nat): (r: seq<QuarterLabel>)
    ensures |r| == n
    ensures forall j :: 0 <= j < n ==> r[j] == PositionalLabel(n - 1 - j)
    ensures forall j :: 0 <= j < n ==> (r[j].year == 24 <==> n - 2 <= j)
    ensures forall j :: 0 <= j < n ==> r[j].year == 24 || r[j].year == 23
    ensures forall i, j :: 0 <= i < j < n ==> r[i] != r[j]
  {
    Reverse(seq(n, i requires 0 <= i < n => PositionalLabel(i)))
  }

  function DigitText(d: nat): string
    requires d < 10
  {
    ["0123456789"[d]]
  }

  /** Decimal text of a natural number. */
  function NatText(n: nat): string {
    if n < 10 then DigitText(n) else NatText(n / 10) + DigitText(n % 10)
  }

  function LabelText(l: QuarterLabel): string {
    "Q" + NatText(l.quarter) + "'" + NatText(l.year)
  }

  // ---------------------------------------------------------------------------
  // The dashboard panel.

  /** The number of columns the dashboards show. */
  const DashboardPeriods: nat := 4

  /**
   * What a dashboard revenue panel draws: labels and both series oldest first, and the
   * legend values, which are the most recent revenue and earnings.
   */
  datatype Display = Display(labels: seq<QuarterLabel>, revenue: seq<real>, netIncome: seq<real>,
                             legendRevenue: real, legendEarnings: real)

  function DashboardSeries(t: Statement): (r: Result<Display, FinError>)
    ensures r.Err? <==> Extract(t, DashboardPeriods).Err?
    ensures r.Err? ==> r.error == Extract(t, DashboardPeriods).error
    ensures r.Ok? ==>
      var n := |r.value.revenue|;
      var d := r.value;
      n == (if |t.dates| < DashboardPeriods then |t.dates| else DashboardPeriods) && n > 0 &&
      |d.netIncome| == n && |d.labels| == n &&
      (forall j :: 0 <= j < n ==>
        d.labels[j] == PositionalLabel(n - 1 - j) &&
        d.revenue[j] * Billion == t.lines[TotalRevenue][n - 1 - j] &&
        d.netIncome[j] * Billion == t.lines[NetIncome][n - 1 - j]) &&
      d.legendRevenue == d.revenue[n - 1] && d.legendEarnings == d.netIncome[n - 1] &&
      d.legendRevenue * Billion == t.lines[TotalRevenue][0] &&
      d.legendEarnings * Billion == t.lines[NetIncome][0]
  {
    match Extract(t, DashboardPeriods)
    case Err(e) => Err(e)
    case Ok(s) =>
      assert |t.dates| > 0 && |s.revenue| > 0;
      Ok(Display(QuarterLabels(|s.revenue|), Reverse(s.revenue), Reverse(s.netIncome),
                 s.revenue[0], s.netIncome[0]))
  }

  // ---------------------------------------------------------------------------
  // The positional quirk, stated exactly.

  /** Chronological order of quarter labels. */
  predicate Earlier(a: QuarterLabel, b: QuarterLabel) {
    a.year < b.year || (a.year == b.year && a.quarter < b.quarter)
  }

  /** With four columns the dashboards show Q2'23, Q1'23, Q2'24, Q1'24, left to right. */
  lemma FourQuarterLabels()
    ensures QuarterLabels(4) ==
      [QuarterLabel(2, 23), QuarterLabel(1, 23), QuarterLabel(2, 24), QuarterLabel(1, 24)]
    ensures seq(4, j requires 0 <= j < 4 => LabelText(QuarterLabels(4)[j])) ==
      ["Q2'23", "Q1'23", "Q2'24", "Q1'24"]
  {
    var ls := QuarterLabels(4);
    assert ls[0] == PositionalLabel(3) && ls[1] == PositionalLabel(2);
    assert ls[2] == PositionalLabel(1) && ls[3] == PositionalLabel(0);
    assert NatText(23) == "23" by { assert NatText(23) == NatText(2) + DigitText(3); }
    assert NatText(24) == "24" by { assert NatText(24) == NatText(2) + DigitText(4); }
    assert NatText(1) == "1" && NatText(2) == "2";
    var texts := seq(4, j requires 0 <= j < 4 => LabelText(ls[j]));
    assert texts[0] == "Q2'23" && texts[1] == "Q1'23" && texts[2] == "Q2'24" && texts[3] == "Q1'24";
  }

  /**
   * Left to right the labels are not in calendar order: the newest column is labelled
   * a quarter before the one to its left, whatever the dates.
   */
  lemma QuarterLabelsOutOfOrder(n: nat)
    requires 2 <= n
    ensures QuarterLabels(n)[n - 1] == QuarterLabel(1, 24)
    ensures Earlier(QuarterLabels(n)[n - 1], QuarterLabels(n)[n - 2])
  {
  }
}
