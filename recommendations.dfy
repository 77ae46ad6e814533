/**
 * The analyst-recommendation aggregator: from a dated table of rating counts to the
 * three-month series the stacked bar chart draws, with the fixed placeholder whenever
 * there is too little data.
 */
module Recommendations {
  import opened Common

  /** A calendar month number, January = 1. */
  type Month = m: int | 1 <= m <= 12 witness 1

  /** A monthly period, the key `to_period('M')` gives a timestamp. */
  datatype MonthKey = MonthKey(year: int, month: Month)

  /** Chronological order of monthly periods. */
  predicate Before(a: MonthKey, b: MonthKey) {
    a.year < b.year || (a.year == b.year && a.month < b.month)
  }

  /** One row of the provider's table: the five rating-count columns. */
  datatype Counts = Counts(strongBuy: int, buy: int, hold: int, underperform: int, sell: int)

  const NoCounts := Counts(0, 0, 0, 0, 0)

  /** Column-wise sum of two rows, as `groupby(...).sum()` adds them. */
  function Add(a: Counts, b: Counts): Counts {
    Counts(a.strongBuy + b.strongBuy, a.buy + b.buy, a.hold + b.hold,
           a.underperform + b.underperform, a.sell + b.sell)
  }

  /**
   * A dated row. `stamp` is the month of the row's timestamp, or `None` when the
   * timestamp does not parse (pandas' `NaT`).
   */
  datatype RecRow = RecRow(stamp: Option<MonthKey>, counts: Counts)

  /** The rating categories, in the order the chart stacks them. */
  datatype Category = StrongBuy | Buy | Hold | Underperform | Sell

  const Categories: seq<Category> := [StrongBuy, Buy, Hold, Underperform, Sell]

  function Pick(c: Counts, cat: Category): int {
    match cat
    case StrongBuy => c.strongBuy
    case Buy => c.buy
    case Hold => c.hold
    case Underperform => c.underperform
    case Sell => c.sell
  }

  /** Month labels, `strftime('%b')` in the C locale. */
  const MonthAbbrev: seq<string> :=
    ["Jan", "Feb", "Mar", "Apr", "May", "Jun", "Jul", "Aug", "Sep", "Oct", "Nov", "Dec"]

  function MonthName(m: Month): string {
    MonthAbbrev[m - 1]
  }

  /**
   * What the chart draws: the month labels, and one series per category in the
   * order of `Categories`, each aligned with the labels.
   */
  datatype Chart = Chart(months: seq<string>, series: seq<seq<int>>)

  ghost predicate WellShaped(c: Chart) {
    |c.months| == 3 && |c.series| == |Categories| &&
    forall k :: 0 <= k < |c.series| ==> |c.series[k]| == 3
  }

  /** The fixed substitute data, used whenever real data is missing or too short. */
  const Placeholder: Chart :=
    Chart(["Apr", "May", "Jun"], [[7, 7, 7], [4, 4, 4], [3, 3, 3], [1, 1, 1], [0, 0, 0]])

  /** How many of the most recent rows are considered (`tail(90)`). */
  const Lookback: nat := 90

  /** The last `n` elements of `s`, or all of `s` when it is shorter. */
  function Tail<T>(s: seq<T>, n: nat): (r: seq<T>)
    ensures |r| == if |s| <= n then |s| else n
    ensures forall i :: 0 <= i < |r| ==> r[i] == s[|s| - |r| + i]
  {
    if |s| <= n then s else s[|s| - n..]
  }

  /**
   * The rows whose timestamp parsed (`index.notnull()`), in their order: exactly the
   * parseable rows are kept, so the months present and every month's totals are those
   * of the input.
   */
  function Parsed(rows: seq<RecRow>): (r: seq<RecRow>)
    ensures |r| <= |rows|
    ensures forall i :: 0 <= i < |r| ==> r[i].stamp.Some?
    ensures (forall i :: 0 <= i < |rows| ==> rows[i].stamp.Some?) ==> r == rows
    ensures Keys(r) == Keys(rows)
    ensures forall k :: MonthTotal(r, k) == MonthTotal(rows, k)
  {
    if rows == [] then []
    else
      var rest := Parsed(rows[1..]);
      if rows[0].stamp.Some? then
        assert ([rows[0]] + rest)[1..] == rest;
        assert rows == [rows[0]] + rows[1..];
        [rows[0]] + rest
      else rest
  }

  /**
   * The rows that are aggregated: first the last 90 rows, then the parseable ones among
   * them. The window has the months and monthly totals of the last 90 input rows.
   */
  function Window(rows: seq<RecRow>): (w: seq<RecRow>)
    ensures |w| <= Lookback
    ensures forall i :: 0 <= i < |w| ==> w[i].stamp.Some?
    ensures Keys(w) == Keys(Tail(rows, Lookback))
    ensures forall k :: MonthTotal(w, k) == MonthTotal(Tail(rows, Lookback), k)
  {
    Parsed(Tail(rows, Lookback))
  }

  // ---------------------------------------------------------------------------
  // Reference definitions: the months present and each month's totals.

  /** The distinct months among the rows that have one. */
  ghost function Keys(rows: seq<RecRow>): set<MonthKey> {
    if rows == [] then {}
    else (if rows[0].stamp.Some? then {rows[0].stamp.value} else {}) + Keys(rows[1..])
  }

  /** The sum of the counts of every row that falls in month `k`. */
  function MonthTotal(rows: seq<RecRow>, k: MonthKey): Counts {
    if rows == [] then NoCounts
    else if rows[0].stamp == Some(k) then Add(rows[0].counts, MonthTotal(rows[1..], k))
    else MonthTotal(rows[1..], k)
  }

  // ---------------------------------------------------------------------------
  // The grouped table, as `groupby('Month').sum()` builds it: one row per month,
  // sorted by month.

  datatype MonthRow = MonthRow(key: MonthKey, totals: Counts)

  type Table = seq<MonthRow>

  ghost predicate Sorted(t: Table) {
    forall i, j :: 0 <= i < j < |t| ==> Before(t[i].key, t[j].key)
  }

  ghost function KeysOf(t: Table): set<MonthKey> {
    set i | 0 <= i < |t| :: t[i].key
  }

  /** The totals recorded for month `k`, or zero counts when the month has no row. */
  function Find(t: Table, k: MonthKey): Counts {
    if t == [] then NoCounts
    else if t[0].key == k then t[0].totals
    else Find(t[1..], k)
  }

  /** Adds one row's counts into month `k`, creating the month's row in its place if needed. */
  function Insert(t: Table, k: MonthKey, c: Counts): Table {
    if t == [] then [MonthRow(k, c)]
    else if t[0].key == k then [MonthRow(k, Add(c, t[0].totals))] + t[1..]
    else if Before(k, t[0].key) then [MonthRow(k, c)] + t
    else [t[0]] + Insert(t[1..], k, c)
  }

  /**
   * Groups the rows by month and sums each category; rows without a month are skipped.
   * The table is sorted by month, lists exactly the rows' months, and holds each
   * month's total.
   */
  function Group(rows: seq<RecRow>): (t: Table)
    ensures Sorted(t)
    ensures KeysOf(t) == Keys(rows)
    ensures forall k :: Find(t, k) == MonthTotal(rows, k)
  {
    if rows == [] then []
    else if rows[0].stamp.None? then Group(rows[1..])
    else
      var t, k, c := Group(rows[1..]), rows[0].stamp.value, rows[0].counts;
      InsertSorted(t, k, c);
      InsertKeys(t, k, c);
      InsertFind(t, k, c);
      Insert(t, k, c)
  }

  /** The chart of a run of grouped months, one column per month. */
  function ChartOf(t: Table): Chart {
    Chart(seq(|t|, i requires 0 <= i < |t| => MonthName(t[i].key.month)),
          seq(|Categories|, c requires 0 <= c < |Categories| =>
            seq(|t|, i requires 0 <= i < |t| => Pick(t[i].totals, Categories[c]))))
  }

  /** Everything after the missing-data test: window, group, and the last three months. */
  function MonthlyChart(rows: seq<RecRow>): (r: Chart)
    ensures WellShaped(r)
  {
    var t := Group(Window(rows));
    if |t| < 3 then Placeholder else ChartOf(t[|t| - 3..])
  }

  /**
   * The copy inside the multi-symbol dashboard: missing or empty input, or fewer than
   * three months, gives the placeholder.
   */
  function DashboardRecommendations(recs: Option<seq<RecRow>>): (r: Chart)
    ensures WellShaped(r)
    ensures recs.None? || recs.value == [] ==> r == Placeholder
  {
    if recs.None? || recs.value == [] then Placeholder else MonthlyChart(recs.value)
  }

  /**
   * The standalone copy: missing or empty input (or a failing fetch) gives no chart
   * at all; otherwise the same chart as the dashboard copy.
   */
  function StandaloneRecommendations(recs: Option<seq<RecRow>>): (r: Option<Chart>)
    ensures r.None? <==> recs.None? || recs.value == []
    ensures r.Some? ==> r.value == DashboardRecommendations(recs) && WellShaped(r.value)
  {
    if recs.None? || recs.value == [] then None else Some(MonthlyChart(recs.value))
  }

  // ---------------------------------------------------------------------------
  // Specification of the result.

  /** `ks` are the three latest months of `keys`, oldest first. */
  ghost predicate LatestThree(keys: set<MonthKey>, ks: seq<MonthKey>) {
    |ks| == 3 && ks[0] in keys && ks[1] in keys && ks[2] in keys &&
    Before(ks[0], ks[1]) && Before(ks[1], ks[2]) &&
    forall k :: k in keys ==> k == ks[0] || k == ks[1] || k == ks[2] || Before(k, ks[0])
  }

  /** The chart of the months `ks`, each column the sum of the rows in that month. */
  function ChartFor(rows: seq<RecRow>, ks: seq<MonthKey>): Chart {
    Chart(seq(|ks|, i requires 0 <= i < |ks| => MonthName(ks[i].month)),
          seq(|Categories|, c requires 0 <= c < |Categories| =>
            seq(|ks|, i requires 0 <= i < |ks| => Pick(MonthTotal(rows, ks[i]), Categories[c]))))
  }

  // ---------------------------------------------------------------------------
  // Lemmas about the grouped table.

  lemma {:induction false} FindAbsent(t: Table, k: MonthKey)
    requires k !in KeysOf(t)
    ensures Find(t, k) == NoCounts
  {
    if t != [] {
      assert t[0].key in KeysOf(t);
      assert KeysOf(t[1..]) <= KeysOf(t) by {
        forall x | x in KeysOf(t[1..]) ensures x in KeysOf(t) {
          var i :| 0 <= i < |t[1..]| && t[1..][i].key == x;
          assert t[i + 1].key == x;
        }
      }
      FindAbsent(t[1..], k);
    }
  }

  lemma KeysOfCons(t: Table)
    requires t != []
    ensures KeysOf(t) == {t[0].key} + KeysOf(t[1..])
  {
    forall x | x in KeysOf(t) ensures x in {t[0].key} + KeysOf(t[1..]) {
      var i :| 0 <= i < |t| && t[i].key == x;
      if i > 0 { assert t[1..][i - 1].key == x; }
    }
    forall x | x in KeysOf(t[1..]) ensures x in KeysOf(t) {
      var i :| 0 <= i < |t[1..]| && t[1..][i].key == x;
      assert t[i + 1].key == x;
    }
  }

  /** Inserting a row adds its month to the table's months. */
  lemma {:induction false} InsertKeys(t: Table, k: MonthKey, c: Counts)
    ensures KeysOf(Insert(t, k, c)) == KeysOf(t) + {k}
  {
    var r := Insert(t, k, c);
    KeysOfCons(r);
    if t != [] {
      KeysOfCons(t);
      if t[0].key == k {
        assert r[1..] == t[1..];
      } else if Before(k, t[0].key) {
        assert r[1..] == t;
      } else {
        assert r[1..] == Insert(t[1..], k, c);
        InsertKeys(t[1..], k, c);
      }
    }
  }

  /** Inserting a row adds its counts to its own month and to no other. */
  lemma {:induction false} InsertFind(t: Table, k: MonthKey, c: Counts)
    requires Sorted(t)
    ensures forall k' :: Find(Insert(t, k, c), k') == if k' == k then Add(c, Find(t, k)) else Find(t, k')
  {
    if t != [] && t[0].key != k {
      if Before(k, t[0].key) {
        forall i | 0 <= i < |t| ensures t[i].key != k {
          if i > 0 { assert Before(t[0].key, t[i].key); }
        }
        FindAbsent(t, k);
      } else {
        assert Sorted(t[1..]);
        InsertFind(t[1..], k, c);
      }
    }
  }

  /** Inserting a row keeps the table sorted. */
  lemma {:induction false} InsertSorted(t: Table, k: MonthKey, c: Counts)
    requires Sorted(t)
    ensures Sorted(Insert(t, k, c))
  {
    if t != [] && t[0].key != k && !Before(k, t[0].key) {
      var r := Insert(t, k, c);
      var rest := Insert(t[1..], k, c);
      assert Sorted(t[1..]);
      InsertSorted(t[1..], k, c);
      InsertKeys(t[1..], k, c);
      assert r[1..] == rest;
      forall j | 0 < j < |r| ensures Before(r[0].key, r[j].key) {
        assert r[j].key in KeysOf(rest) by { assert r[j] == rest[j - 1]; }
        if r[j].key != k {
          var m :| 0 <= m < |t[1..]| && t[1..][m].key == r[j].key;
          assert t[m + 1].key == r[j].key;
        }
      }
      forall i, j | 0 < i < j < |r| ensures Before(r[i].key, r[j].key) {
        assert r[i] == rest[i - 1] && r[j] == rest[j - 1];
      }
    }
  }

  /** A sorted table has one row per distinct month. */
  lemma {:induction false} SortedDistinct(t: Table)
    requires Sorted(t)
    ensures |KeysOf(t)| == |t|
  {
    if t != [] {
      KeysOfCons(t);
      SortedDistinct(t[1..]);
      forall i | 0 <= i < |t[1..]| ensures t[1..][i].key != t[0].key {
        assert t[1..][i] == t[i + 1];
      }
    }
  }

  /** In a sorted table, looking up a row's month finds that row. */
  lemma {:induction false} FindAt(t: Table, i: nat)
    requires Sorted(t) && i < |t|
    ensures Find(t, t[i].key) == t[i].totals
  {
    if i > 0 {
      assert Before(t[0].key, t[i].key);
      assert t[1..][i - 1] == t[i];
      FindAt(t[1..], i - 1);
    }
  }

  // ---------------------------------------------------------------------------
  // What the aggregator returns.

  /** The last three rows of a sorted table are its three latest months. */
  lemma LastThreeLatest(t: Table)
    requires Sorted(t) && |t| >= 3
    ensures LatestThree(KeysOf(t), [t[|t| - 3].key, t[|t| - 2].key, t[|t| - 1].key])
  {
    var n := |t|;
    var ks := [t[n - 3].key, t[n - 2].key, t[n - 1].key];
    assert t[n - 3].key in KeysOf(t) && t[n - 2].key in KeysOf(t) && t[n - 1].key in KeysOf(t);
    forall k | k in KeysOf(t) ensures k == ks[0] || k == ks[1] || k == ks[2] || Before(k, ks[0]) {
      var i :| 0 <= i < n && t[i].key == k;
      if i < n - 3 {
        assert Before(t[i].key, t[n - 3].key);
      }
    }
  }

  /** When the table holds each month's total, its chart is the reference chart of its months. */
  lemma ChartOfTotals(w: seq<RecRow>, t: Table, ks: seq<MonthKey>)
    requires |ks| == |t|
    requires forall i :: 0 <= i < |t| ==> ks[i] == t[i].key && t[i].totals == MonthTotal(w, t[i].key)
    ensures ChartOf(t) == ChartFor(w, ks)
  {
    var a, b := ChartOf(t), ChartFor(w, ks);
    assert a.months == b.months;
    forall c | 0 <= c < |Categories| ensures a.series[c] == b.series[c] {
      assert |a.series[c]| == |b.series[c]|;
    }
    assert a.series == b.series;
  }

  /** The last three months of the grouped table, oldest first. */
  function LastKeys(t: Table): seq<MonthKey>
    requires |t| >= 3
  {
    [t[|t| - 3].key, t[|t| - 2].key, t[|t| - 1].key]
  }

  /** A sorted table holding each month's total charts, in its last three rows, the three latest months. */
  lemma TotalsChartSpec(w: seq<RecRow>, t: Table)
    requires Sorted(t) && KeysOf(t) == Keys(w)
    requires forall k :: Find(t, k) == MonthTotal(w, k)
    ensures |t| == |Keys(w)|
    ensures |t| >= 3 ==>
      LatestThree(Keys(w), LastKeys(t)) && ChartOf(t[|t| - 3..]) == ChartFor(w, LastKeys(t))
  {
    SortedDistinct(t);
    if |t| >= 3 {
      LastThreeLatest(t);
      var last := t[|t| - 3..];
      forall i | 0 <= i < 3 ensures last[i].totals == MonthTotal(w, last[i].key) {
        FindAt(t, |t| - 3 + i);
      }
      ChartOfTotals(w, last, LastKeys(t));
    }
  }

  /** Grouping then keeping the last three rows gives the chart of the three latest months. */
  lemma GroupChartSpec(w: seq<RecRow>)
    ensures |Group(w)| == |Keys(w)|
    ensures |Group(w)| >= 3 ==>
      LatestThree(Keys(w), LastKeys(Group(w))) &&
      ChartOf(Group(w)[|Group(w)| - 3..]) == ChartFor(w, LastKeys(Group(w)))
  {
    TotalsChartSpec(w, Group(w));
  }

  /** A chart of months depends only on the totals of those months. */
  lemma ChartForTotals(a: seq<RecRow>, b: seq<RecRow>, ks: seq<MonthKey>)
    requires forall k :: MonthTotal(a, k) == MonthTotal(b, k)
    ensures ChartFor(a, ks) == ChartFor(b, ks)
  {
    var x, y := ChartFor(a, ks), ChartFor(b, ks);
    forall c | 0 <= c < |Categories| ensures x.series[c] == y.series[c] {
      assert |x.series[c]| == |y.series[c]|;
    }
    assert x.series == y.series;
  }

  /**
   * Fewer than three months among the last 90 rows gives exactly the placeholder;
   * otherwise the chart is the three latest of those months in ascending order, each
   * category summed over the last 90 rows in that month. Unparseable rows count for
   * nothing.
   */
  lemma MonthlyChartSpec(rows: seq<RecRow>)
    ensures |Keys(Tail(rows, Lookback))| < 3 ==> MonthlyChart(rows) == Placeholder
    ensures |Keys(Tail(rows, Lookback))| >= 3 ==>
      exists ks :: LatestThree(Keys(Tail(rows, Lookback)), ks) &&
                   MonthlyChart(rows) == ChartFor(Tail(rows, Lookback), ks)
  {
    var w, last := Window(rows), Tail(rows, Lookback);
    GroupChartSpec(w);
    if |Group(w)| >= 3 {
      var ks := LastKeys(Group(w));
      ChartForTotals(w, last, ks);
      assert LatestThree(Keys(last), ks) && MonthlyChart(rows) == ChartFor(last, ks);
    }
  }

  /**
   * The dashboard copy: missing or empty input, or fewer than three months among the
   * last 90 rows, gives exactly the placeholder; otherwise the three latest months.
   */
  lemma DashboardRecommendationsSpec(recs: Option<seq<RecRow>>)
    ensures recs.None? || recs.value == [] || |Keys(Tail(recs.value, Lookback))| < 3 ==>
      DashboardRecommendations(recs) == Placeholder
    ensures recs.Some? && |Keys(Tail(recs.value, Lookback))| >= 3 ==>
      exists ks :: LatestThree(Keys(Tail(recs.value, Lookback)), ks) &&
                   DashboardRecommendations(recs) == ChartFor(Tail(recs.value, Lookback), ks)
  {
    if recs.Some? {
      MonthlyChartSpec(recs.value);
      if recs.value == [] {
        assert Keys(Tail(recs.value, Lookback)) == {};
      }
    }
  }

  /** Every month of the set is one of the three latest or comes before each of them it is not. */
  lemma LatestRank(keys: set<MonthKey>, ks: seq<MonthKey>, k: MonthKey)
    requires LatestThree(keys, ks) && k in keys
    ensures k == ks[2] || Before(k, ks[2])
    ensures k != ks[2] ==> k == ks[1] || Before(k, ks[1])
    ensures k != ks[2] && k != ks[1] ==> k == ks[0] || Before(k, ks[0])
  {
  }

  /** The three latest months of a set are determined by the set. */
  lemma LatestThreeUnique(keys: set<MonthKey>, ks: seq<MonthKey>, ls: seq<MonthKey>)
    requires LatestThree(keys, ks) && LatestThree(keys, ls)
    ensures ks == ls
  {
    LatestRank(keys, ks, ls[0]);
    LatestRank(keys, ks, ls[1]);
    LatestRank(keys, ks, ls[2]);
    LatestRank(keys, ls, ks[0]);
    LatestRank(keys, ls, ks[1]);
    LatestRank(keys, ls, ks[2]);
  }

  lemma {:induction false} ParsedAppend(a: seq<RecRow>, b: seq<RecRow>)
    ensures Parsed(a + b) == Parsed(a) + Parsed(b)
  {
    if a != [] {
      assert (a + b)[1..] == a[1..] + b;
      ParsedAppend(a[1..], b);
    } else {
      assert a + b == b;
    }
  }

  /** An unparseable row is dropped, so the parseable rows are fewer than the rows. */
  lemma {:induction false} ParsedShorter(s: seq<RecRow>, j: nat)
    requires j < |s| && s[j].stamp.None?
    ensures |Parsed(s)| < |s|
  {
    if j > 0 {
      ParsedShorter(s[1..], j - 1);
    }
  }

  /** Dropping an unparseable row among the last 90 shrinks the window: no older row takes its place. */
  lemma UnparseableShrinksWindow(rows: seq<RecRow>, i: nat)
    requires |rows| >= Lookback && |rows| - Lookback <= i < |rows|
    requires rows[i].stamp.None?
    ensures |Window(rows)| < Lookback
  {
    var tail := Tail(rows, Lookback);
    ParsedShorter(tail, i - (|rows| - Lookback));
  }

  /** A row is kept exactly when it is among the input and its timestamp parsed. */
  lemma {:induction false} ParsedMembers(rows: seq<RecRow>)
    ensures forall x :: x in Parsed(rows) <==> x in rows && x.stamp.Some?
  {
    if rows != [] {
      ParsedMembers(rows[1..]);
      assert rows == [rows[0]] + rows[1..];
    }
  }

  /** Rows older than the last 90 never affect the chart. */
  lemma OlderRowsIgnored(older: seq<RecRow>, rows: seq<RecRow>)
    requires |rows| >= Lookback
    ensures MonthlyChart(older + rows) == MonthlyChart(rows)
  {
    var all := older + rows;
    assert Tail(all, Lookback) == Tail(rows, Lookback) by {
      assert all[|all| - Lookback..] == rows[|rows| - Lookback..];
    }
    assert Window(all) == Window(rows);
  }
}
