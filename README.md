# YDash data shaping, modelled in Dafny

YDash is a command-line dashboard for one to five stock symbols. It fetches each
symbol's quarterly financial statement and its analyst-recommendation counts from a
market-data provider, reshapes them into small numeric series, and draws grouped bar
charts (revenue against earnings) and stacked bar charts (analyst sentiment). This
project models the reshaping logic and the dashboard layout, and proves what they
deliver:

- **Recommendations** (`recommendations.dfy`): the analyst-recommendation aggregator.
  It keeps the last 90 rows, drops rows whose timestamp does not parse, groups by
  calendar month and sums the five rating columns (strong buy, buy, hold,
  underperform, sell). It returns the last three months in ascending order, or the
  fixed April-to-June placeholder when data is missing or covers fewer than three
  months. Both copies of this logic in the source are modelled: the standalone
  function and the inline copy in the multi-symbol dashboard. A timestamp is an
  optional `(year, month)` key, where `None` stands for a timestamp that does not
  parse. Grouping is an insertion into a month-sorted table. The reference
  definitions it is proved against are the set of months present (`Keys`) and the
  per-month sum (`MonthTotal`).
- **Financials** (`financials.dfy`): the revenue/earnings extractor. It has three
  outcomes: an empty statement, a missing "Total Revenue" or "Net Income" line, or
  the first N columns of both lines scaled to billions. It also models the
  positional quarter labels and the reversed order the dashboards draw.
- **Stacking** (`stacking.dfy`): the loop that raises the `bottom` vector in place
  as each recommendation category is stacked. It is a method over a local array,
  proved against the column sums of the categories already drawn.
- **Dashboard** (`dashboard.dfy`): the command-line guard (1 to 5 symbols) and the
  grid shape of the revenue view. A `Figure` class holds the grid cells in an array
  that the per-symbol loops update in place. The module also covers the removal of
  trailing unused cells, and the single-symbol view, whose recommendation panel is
  always the placeholder.

`common.dfy` holds the `Option` and `Result` types and sequence reversal.

Values from the financial statement are `real`s, and dividing by 10^9 is exact in
the model. Recommendation counts are unbounded integers.

Note the order at `venv/Src/YDash.py:254-257`: the last 90 rows are kept first,
then the unparseable ones among them are dropped. The model keeps that order. `UnparseableShrinksWindow` and `OlderRowsIgnored` state the
consequence: a dropped row shrinks the window, and no older row takes its place.

## Model

| member | source | states |
|---|---|---|
| `Recommendations.Tail` | venv/Src/YDash.py:254 | the last `n` rows, or all of them when there are fewer: the length is min(n, rows) and row i is input row rows-len+i |
| `Recommendations.Parsed` | venv/Src/YDash.py:255-257 | every kept row parsed; the kept rows have exactly the input's months and each month's totals; input with no unparseable row is kept whole |
| `Recommendations.ParsedMembers` | venv/Src/YDash.py:257 | a row is kept exactly when it is an input row whose timestamp parsed |
| `Recommendations.ParsedAppend` | venv/Src/YDash.py:257 | the filter keeps the rows' order: filtering a concatenation concatenates the filtered parts |
| `Recommendations.Window` | venv/Src/YDash.py:254-257 | at most 90 rows, all parsed, with exactly the months and monthly totals of the last 90 input rows |
| `Recommendations.MonthlyChart` | venv/Src/YDash.py:254-277 | the result always has exactly three month labels and five category series of three values each |
| `Recommendations.DashboardRecommendations` | venv/Src/YDash.py:243-277 | missing or empty recommendations give exactly the placeholder; the result is always three months by five categories |
| `Recommendations.StandaloneRecommendations` | venv/Src/YDash.py:55-82 | no chart exactly when the input is missing or empty; otherwise the same chart as the dashboard copy |
| `Recommendations.InsertKeys` | venv/Src/YDash.py:67 | adding a row to the grouped table adds its month and no other |
| `Recommendations.InsertFind` | venv/Src/YDash.py:67 | in a sorted table, adding a row adds its counts to its own month's totals and leaves every other month's totals unchanged |
| `Recommendations.InsertSorted` | venv/Src/YDash.py:67 | the grouped table stays in ascending month order |
| `Recommendations.Group` | venv/Src/YDash.py:258-259 | grouping gives a month-sorted table whose months are exactly the rows' months and whose totals are each month's column sums |
| `Recommendations.SortedDistinct` | venv/Src/YDash.py:260 | the grouped table has one row per distinct month, so its length counts the months |
| `Recommendations.LastThreeLatest` | venv/Src/YDash.py:270-277 | the last three rows of the grouped table are the three latest months, oldest first |
| `Recommendations.ChartOfTotals` | venv/Src/YDash.py:270-277 | a table holding each month's totals charts to the month-abbreviation labels and per-category sums of those months |
| `Recommendations.TotalsChartSpec` | venv/Src/YDash.py:260-277 | a sorted table of month totals has one row per month, and its last three rows chart the three latest months with their sums |
| `Recommendations.ChartForTotals` | venv/Src/YDash.py:270-277 | the chart of given months depends only on those months' totals |
| `Recommendations.GroupChartSpec` | venv/Src/YDash.py:259-277 | grouping and keeping the last three rows charts the three latest months with their sums |
| `Recommendations.MonthlyChartSpec` | venv/Src/YDash.py:65-81 | fewer than three months among the last 90 input rows gives exactly the placeholder; otherwise the three latest of those months ascending, each category the sum of the last 90 rows in that month, never a mix |
| `Recommendations.DashboardRecommendationsSpec` | venv/Src/YDash.py:244-277 | missing or empty input, or fewer than three months among the last 90 rows, gives exactly the placeholder; otherwise the three latest months of the last 90 rows with their sums |
| `Recommendations.LatestThreeUnique` | venv/Src/YDash.py:270 | the three latest months of a set of months are uniquely determined |
| `Recommendations.UnparseableShrinksWindow` | venv/Src/YDash.py:254-257 | an unparseable row among the last 90 leaves fewer than 90 rows to aggregate |
| `Recommendations.OlderRowsIgnored` | venv/Src/YDash.py:254 | rows older than the last 90 never change the chart |
| `Financials.Head` | venv/Src/YDash.py:20-21 | `head(n)` is a prefix of the column: the first n elements, or all of them when there are fewer; for negative n all but the last -n, or none when there are fewer |
| `Financials.Extract` | venv/Src/YDash.py:16-24 | empty table is the empty-data error; otherwise a missing revenue line, then a missing net-income line, is reported; on success both series and the dates have the same length, the first N columns, and each value times 10^9 is the table's value |
| `Financials.RevenueEarningsChart` | venv/Src/YDash.py:13-32 | same errors as the extractor; otherwise one year label per kept column, newest first, aligned with both series |
| `Financials.DashboardSeries` | venv/Src/YDash.py:94-112 | same errors as the extractor; otherwise min(4, columns) values, labels and both series reversed identically, label j is the positional label of column n-1-j, the legend shows the most recent revenue and earnings |
| `Financials.QuarterLabels` | venv/Src/YDash.py:98 | one label per column, label j is the positional label of column n-1-j, exactly the two rightmost are '24 and the rest '23, no label repeats |
| `Financials.FourQuarterLabels` | venv/Src/YDash.py:98 | with four columns the labels read Q2'23, Q1'23, Q2'24, Q1'24 left to right |
| `Financials.QuarterLabelsOutOfOrder` | venv/Src/YDash.py:173 | with two or more columns the newest column is labelled Q1'24, earlier than its left neighbour |
| `Stacking.StackBars` | venv/Src/YDash.py:279-282 | each category is drawn on the element-wise sum of the categories before it, and the final bottom is the sum of all of them; the first category sits on zero, each later one starts exactly where the previous one ends, and the top is where the last one ends |
| `Stacking.BasesGrow` | venv/Src/YDash.py:279-282 | with non-negative counts a later category's bottom is never below an earlier one |
| `Stacking.StackHeight` | venv/Src/YDash.py:279-282 | a month's stack reaches the total of its five category counts |
| `Stacking.PlaceholderStacks` | venv/Src/YDash.py:121-133 | the placeholder stacks on bottoms 0, 7, 11, 14, 15 and reaches 15 every month |
| `Dashboard.Dispatch` | venv/Src/YDash.py:296-316 | fewer than one or more than five symbols is refused; one symbol opens the single view; two to five the multi-symbol view |
| `Dashboard.GridShape` | venv/Src/YDash.py:155-157 | one symbol gets a 1x1 grid; otherwise two columns; the grid has at least n cells and at most one spare |
| `Dashboard.Figure.constructor` | venv/Src/YDash.py:158-162 | a fresh flattened grid of rows times columns blank cells |
| `Dashboard.Figure.Draw` | venv/Src/YDash.py:164 | drawing changes exactly one cell |
| `Dashboard.Figure.DelAxes` | venv/Src/YDash.py:195 | deleting marks exactly one cell removed |
| `Dashboard.LiveCount` | venv/Src/YDash.py:194-195 | n drawn cells followed only by removed cells leave n cells in the figure |
| `Dashboard.PlotRevenueDashboards` | venv/Src/YDash.py:154-197 | cell i shows symbol i's revenue panel, every later cell is removed, exactly n cells survive |
| `Dashboard.DrawRow` | venv/Src/YDash.py:205-288 | one symbol's row gets its revenue panel and stacked recommendation chart, or a not-found note and a blank axis |
| `Dashboard.DrawRows` | venv/Src/YDash.py:205-288 | after the loop every symbol's row is drawn and no cell is removed |
| `Dashboard.PlotFullDashboards` | venv/Src/YDash.py:199-290 | an n-by-2 grid where row i holds symbol i's two cells and every cell survives |
| `Dashboard.PlotCompleteDashboard` | venv/Src/YDash.py:84-152 | an empty statement leaves the revenue panel blank, otherwise it shows the extractor's outcome; the recommendation panel is the placeholder stacked on 0, 7, 11, 14, 15 |

## Left out

- Calls to the market-data provider (`yf.Ticker`, `yf.Tickers`, `.info`, `.financials`, `.recommendations`, `.history`, `get_real_time_data`): network I/O. Their results are inputs: a `Statement`, an optional list of recommendation rows, and `Option<Quote>` for a symbol the provider does not know.
- All drawing: figure creation, colours, titles, legends, tick labels, bar-value annotations (`height*0.01`, `abs(height)*0.1`, `:.1f`), `tight_layout` and `show`. A grid cell records what it shows, not how it is drawn. Company names from `.info` appear only in titles and are left out.
- Floating point: statement values are exact reals, so `/ 1e9` is exact and multiplying by 10^9 gives the value back. IEEE rounding is not modelled.
- Timestamp parsing (`to_datetime`, `to_period('M')`) and `strftime('%b')`: a timestamp is an optional `(year, month)` key, and month names come from a fixed English table. In the standalone copy, an index that is not a date index at all makes `to_period` raise. The model treats such rows like unparseable rows.
- Exceptions raised inside the recommendation panel's `try` (lines 287-288) and in `.info` lookups: the modelled operations have no such failure. Duplicate statement labels, for which `.loc` returns a table instead of a row, cannot arise with the map-based `Statement`.
- `PlotRevenueDashboards`, `PlotFullDashboards`: require at least one symbol. With none, the source fails: the revenue view gets a single 1x1 subplot, which has no `flatten` (line 162), and the full view asks for a grid with zero rows (line 201). The command line never calls them that way.
- Printing, argument parsing, the Spanish console messages, the exit status and the module-level `symbols` list.
