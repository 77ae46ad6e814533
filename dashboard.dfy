/**
 * The dashboards: the grid of panels for one to five symbols, what each panel shows,
 * the removal of unused grid cells, and the command-line guard on the symbol count.
 */
module Dashboard {
  import opened Common
  import Financials
  import Recommendations
  import Stacking

  // ---------------------------------------------------------------------------
  // Command line.

  const MaxSymbols: nat := 5

  /** Which view the command line opens. */
  datatype Mode = Usage | Single(symbol: string) | Multi(symbols: seq<string>)

  /** Outside 1..5 symbols only the usage message; one symbol the full single view; else the multi-symbol view. */
  function Dispatch(symbols: seq<string>): (m: Mode)
    ensures m.Usage? <==> |symbols| < 1 || |symbols| > MaxSymbols
    ensures m.Single? <==> |symbols| == 1
    ensures m.Single? ==> m.symbol == symbols[0]
    ensures m.Multi? ==> m.symbols == symbols && 2 <= |m.symbols| <= MaxSymbols
  {
    if !(1 <= |symbols| <= MaxSymbols) then Usage
    else if |symbols| == 1 then Single(symbols[0])
    else Multi(symbols)
  }

  // ---------------------------------------------------------------------------
  // Grid shape of the revenue-only view.

  /** Rows and columns for `n` panels: one cell for one symbol, otherwise two columns. */
  function GridShape(n: nat): (shape: (nat, nat))
    ensures n <= 1 ==> shape == (1, 1)
    ensures n > 1 ==> shape.1 == 2
    ensures n >= 1 ==> n <= shape.0 * shape.1 <= n + 1
  {
    var cols := if n > 1 then 2 else 1;
    var rows := if n > 1 then (n + 1) / 2 else 1;
    (rows, cols)
  }

  // ---------------------------------------------------------------------------
  // The figure and its cells.

  /** What one grid cell shows. */
  datatype Cell =
    | Blank                                          // created, nothing drawn yet
    | RevenuePanel(symbol: string, display: Result<Financials.Display, Financials.FinError>)
    | RecommendationPanel(chart: Recommendations.Chart, bases: seq<seq<int>>)
    | NotFound(symbol: string)                       // "symbol not found" note
    | Off                                            // axis turned off
    | Removed                                        // deleted from the figure

  /** A figure whose grid cells, flattened row by row, are updated in place. */
  class Figure {
    const axes: array<Cell>

    constructor (rows: nat, cols: nat)
      ensures fresh(axes) && axes.Length == rows * cols
      ensures forall i :: 0 <= i < axes.Length ==> axes[i] == Blank
    {
      axes := new Cell[rows * cols](_ => Blank);
    }

    /** Draws `c` in cell `i`. */
    method Draw(i: nat, c: Cell)
      requires i < axes.Length
      modifies axes
      ensures axes[..] == old(axes[..])[i := c]
    {
      axes[i] := c;
    }

    /** Removes cell `i` from the figure (`fig.delaxes`). */
    method DelAxes(i: nat)
      requires i < axes.Length
      modifies axes
      ensures axes[..] == old(axes[..])[i := Removed]
    {
      axes[i] := Removed;
    }
  }

  /** The number of cells still in the figure. */
  function Live(cells: seq<Cell>): nat {
    if cells == [] then 0 else (if cells[0] == Removed then 0 else 1) + Live(cells[1..])
  }

  lemma {:induction false} LiveCount(cells: seq<Cell>, n: nat)
    requires n <= |cells|
    requires forall i :: 0 <= i < n ==> cells[i] != Removed
    requires forall i :: n <= i < |cells| ==> cells[i] == Removed
    ensures Live(cells) == n
  {
    if cells != [] {
      LiveCount(cells[1..], if n == 0 then 0 else n - 1);
    }
  }

  // ---------------------------------------------------------------------------
  // Revenue-only view: one revenue panel per symbol, unused cells removed.

  /**
   * Draws symbol `i`'s revenue panel in cell `i` of the flattened grid, then removes
   * every cell after the last symbol's. Returns the figure's cells.
   */
  method PlotRevenueDashboards(symbols: seq<string>, statements: seq<Financials.Statement>)
    returns (cells: seq<Cell>)
    requires 1 <= |symbols| && |statements| == |symbols|
    ensures |cells| == GridShape(|symbols|).0 * GridShape(|symbols|).1
    ensures forall i :: 0 <= i < |symbols| ==>
      cells[i] == RevenuePanel(symbols[i], Financials.DashboardSeries(statements[i]))
    ensures forall j :: |symbols| <= j < |cells| ==> cells[j] == Removed
    ensures Live(cells) == |symbols|
  {
    var n := |symbols|;
    var (rows, cols) := GridShape(n);
    var fig := new Figure(rows, cols);
    var idx := 0;
    while idx < n
      invariant 0 <= idx <= n
      invariant forall i :: 0 <= i < idx ==>
        fig.axes[i] == RevenuePanel(symbols[i], Financials.DashboardSeries(statements[i]))
      invariant forall i :: idx <= i < fig.axes.Length ==> fig.axes[i] == Blank
    {
      fig.Draw(idx, RevenuePanel(symbols[idx], Financials.DashboardSeries(statements[idx])));
      idx := idx + 1;
    }
    var last := idx - 1;
    var j := last + 1;
    while j < fig.axes.Length
      invariant n <= j <= fig.axes.Length
      invariant forall i :: 0 <= i < n ==>
        fig.axes[i] == RevenuePanel(symbols[i], Financials.DashboardSeries(statements[i]))
      invariant forall i :: n <= i < j ==> fig.axes[i] == Removed
    {
      fig.DelAxes(j);
      j := j + 1;
    }
    cells := fig.axes[..];
    LiveCount(cells, n);
  }

  // ---------------------------------------------------------------------------
  // Multi-symbol view: one row per symbol, revenue on the left, recommendations on the right.

  /** What the provider returns for a symbol it knows. */
  datatype Quote = Quote(financials: Financials.Statement,
                         recommendations: Option<seq<Recommendations.RecRow>>)

  function LeftCell(symbol: string, q: Option<Quote>): Cell {
    match q
    case None => NotFound(symbol)
    case Some(quote) => RevenuePanel(symbol, Financials.DashboardSeries(quote.financials))
  }

  function RightCell(q: Option<Quote>): Cell {
    match q
    case None => Off
    case Some(quote) =>
      var chart := Recommendations.DashboardRecommendations(quote.recommendations);
      RecommendationPanel(chart, Stacking.Bases(chart.series, |chart.months|))
  }

  /** Draws one symbol's row: cells `2 * idx` and `2 * idx + 1`. */
  method DrawRow(fig: Figure, idx: nat, symbol: string, q: Option<Quote>)
    requires 2 * idx + 1 < fig.axes.Length
    modifies fig.axes
    ensures fig.axes[..] == old(fig.axes[..])[2 * idx := LeftCell(symbol, q)][2 * idx + 1 := RightCell(q)]
  {
    match q {
      case None =>
        fig.Draw(2 * idx, NotFound(symbol));
        fig.Draw(2 * idx + 1, Off);
      case Some(quote) =>
        fig.Draw(2 * idx, RevenuePanel(symbol, Financials.DashboardSeries(quote.financials)));
        var chart := Recommendations.DashboardRecommendations(quote.recommendations);
        var bases, _ := Stacking.StackBars(chart.series, |chart.months|);
        fig.Draw(2 * idx + 1, RecommendationPanel(chart, bases));
    }
  }

  /** Every row below `k` holds its symbol's two cells. */
  ghost predicate RowsDrawn(cells: seq<Cell>, symbols: seq<string>, quotes: seq<Option<Quote>>, k: nat)
    requires k <= |symbols| == |quotes| && 2 * k <= |cells|
  {
    forall i :: 0 <= i < k ==>
      cells[2 * i] == LeftCell(symbols[i], quotes[i]) && cells[2 * i + 1] == RightCell(quotes[i])
  }

  /** Drawing row `idx` extends the drawn rows by one. */
  lemma RowsDrawnStep(before: seq<Cell>, after: seq<Cell>, symbols: seq<string>,
                      quotes: seq<Option<Quote>>, idx: nat)
    requires idx < |symbols| == |quotes| && 2 * idx + 1 < |before|
    requires RowsDrawn(before, symbols, quotes, idx)
    requires after == before[2 * idx := LeftCell(symbols[idx], quotes[idx])][2 * idx + 1 := RightCell(quotes[idx])]
    ensures RowsDrawn(after, symbols, quotes, idx + 1)
  {
  }

  /** The per-symbol loop: row `i` of the grid gets symbol `i`'s two cells. */
  method DrawRows(fig: Figure, symbols: seq<string>, quotes: seq<Option<Quote>>)
    requires |quotes| == |symbols| && fig.axes.Length == 2 * |symbols|
    requires forall p :: 0 <= p < fig.axes.Length ==> fig.axes[p] == Blank
    modifies fig.axes
    ensures RowsDrawn(fig.axes[..], symbols, quotes, |symbols|)
    ensures forall p :: 0 <= p < fig.axes.Length ==> fig.axes[p] != Removed
  {
    var n := |symbols|;
    var idx := 0;
    while idx < n
      invariant 0 <= idx <= n
      invariant RowsDrawn(fig.axes[..], symbols, quotes, idx)
      invariant forall p :: 0 <= p < 2 * idx ==> fig.axes[p] != Removed
      invariant forall p :: 2 * idx <= p < fig.axes.Length ==> fig.axes[p] == Blank
    {
      ghost var before := fig.axes[..];
      DrawRow(fig, idx, symbols[idx], quotes[idx]);
      RowsDrawnStep(before, fig.axes[..], symbols, quotes, idx);
      idx := idx + 1;
    }
  }

  /**
   * Row `i` of the `n`-by-2 grid gets symbol `i`: a "not found" note and a blank
   * right cell for an unknown symbol, else its revenue panel and its stacked
   * recommendation chart. Returns the figure's cells, row by row; none is removed.
   */
  method PlotFullDashboards(symbols: seq<string>, quotes: seq<Option<Quote>>)
    returns (cells: seq<Cell>)
    requires 1 <= |symbols| && |quotes| == |symbols|
    ensures |cells| == 2 * |symbols|
    ensures forall i :: 0 <= i < |symbols| ==>
      cells[2 * i] == LeftCell(symbols[i], quotes[i]) && cells[2 * i + 1] == RightCell(quotes[i])
    ensures Live(cells) == |cells|
  {
    var fig := new Figure(|symbols|, 2);
    DrawRows(fig, symbols, quotes);
    cells := fig.axes[..];
    LiveCount(cells, |cells|);
  }

  // ---------------------------------------------------------------------------
  // Single-symbol view.

  /**
   * The revenue panel (left blank for an empty statement, an error note for a
   * missing line) and the recommendation panel, which always shows the placeholder.
   */
  method PlotCompleteDashboard(symbol: string, statement: Financials.Statement)
    returns (revenue: Cell, recommendations: Cell)
    ensures Financials.IsEmpty(statement) ==> revenue == Blank
    ensures !Financials.IsEmpty(statement) ==>
      revenue == RevenuePanel(symbol, Financials.DashboardSeries(statement))
    ensures recommendations == RecommendationPanel(Recommendations.Placeholder,
      [[0, 0, 0], [7, 7, 7], [11, 11, 11], [14, 14, 14], [15, 15, 15]])
  {
    revenue := if Financials.IsEmpty(statement) then Blank
               else RevenuePanel(symbol, Financials.DashboardSeries(statement));
    var chart := Recommendations.Placeholder;
    var bases, _ := Stacking.StackBars(chart.series, |chart.months|);
    Stacking.PlaceholderStacks();
    recommendations := RecommendationPanel(chart, bases);
  }
}
