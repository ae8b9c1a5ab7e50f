/*
 * The earlier column-layout engine of listare/src/tabulate.rs. It is the same
 * search as the one in module Tabulate, restricted to column-major order: the
 * model proves that it selects the very configuration Tabulate.Search selects
 * for the `Columns` orientation, and that its listing differs from
 * Tabulate.Layout only by a newline after the last row.
 *
 * The line length, which the source reads from the COLUMNS environment
 * variable, is a parameter; item widths are the byte lengths of the formatted
 * names.
 */
module ListareTabulate {
  import T = Tabulate

  /** Builds one fresh candidate per column count 1..=maxCols. */
  method InitColumnConfigs(maxCols: nat, minColWidth: nat) returns (configs: seq<T.ColumnConfiguration>)
    ensures |configs| == maxCols
    ensures forall k :: 0 <= k < |configs| ==> configs[k] == T.InitialConfig(k + 1, minColWidth)
    ensures forall k :: 0 <= k < |configs| ==>
              configs[k].numColumns == k + 1 && configs[k].valid &&
              configs[k].lineLen == (k + 1) * minColWidth &&
              T.WellFormed(configs[k], minColWidth)
  {
    configs := [];
    var numColumns := 1;
    while numColumns <= maxCols
      invariant 1 <= numColumns <= maxCols + 1
      invariant |configs| == numColumns - 1
      invariant forall k :: 0 <= k < |configs| ==> configs[k] == T.InitialConfig(k + 1, minColWidth)
      invariant forall k :: 0 <= k < |configs| ==> T.WellFormed(configs[k], minColWidth)
    {
      var config := T.ColumnConfiguration(
        numColumns, seq(numColumns, _ => minColWidth), numColumns * minColWidth, true);
      T.SumConstant(numColumns, minColWidth);
      configs := configs + [config];
      numColumns := numColumns + 1;
    }
  }

  /** The search of `get_column_config`. With no items there is no candidate
      and taking candidate 0 panics, so callers must pass at least one item. */
  method GetColumnConfig(lens: seq<nat>, lineLength: nat) returns (config: T.ColumnConfiguration)
    requires lens != []
    ensures config == T.Search(lens, lineLength, T.Columns).value
  {
    var maxColumns := T.Max(1, lineLength / T.MIN_COLUMN_WIDTH);
    maxColumns := T.Min(maxColumns, |lens|);
    var configs := InitColumnConfigs(maxColumns, T.MIN_COLUMN_WIDTH);
    ghost var m := |configs|;
    assert m == T.MaxColumns(lineLength, |lens|, T.MIN_COLUMN_WIDTH);
    var fileIdx := 0;
    while fileIdx < |lens|
      invariant fileIdx <= |lens| && |configs| == m
      invariant forall j :: 0 <= j < m ==>
                  configs[j] == T.ScanItems(T.InitialConfig(j + 1, T.MIN_COLUMN_WIDTH), fileIdx, lens, T.Columns, lineLength)
    {
      configs := VisitItem(configs, fileIdx, lens, lineLength);
      fileIdx := fileIdx + 1;
    }
    T.CandidatesAre(configs, lens, lineLength, T.Columns);
    var position := match T.LastValid(configs) case Some(p) => p case None => 0;
    config := configs[position];
  }

  /** One turn of the outer loop of `get_column_config`: item `fileIdx` visits
      every candidate in place. */
  method VisitItem(configs: seq<T.ColumnConfiguration>, fileIdx: nat, lens: seq<nat>, lineLength: nat)
    returns (next: seq<T.ColumnConfiguration>)
    requires fileIdx < |lens|
    requires forall j :: 0 <= j < |configs| ==>
               configs[j] == T.ScanItems(T.InitialConfig(j + 1, T.MIN_COLUMN_WIDTH), fileIdx, lens, T.Columns, lineLength)
    ensures |next| == |configs|
    ensures forall j :: 0 <= j < |next| ==>
              next[j] == T.ScanItems(T.InitialConfig(j + 1, T.MIN_COLUMN_WIDTH), fileIdx + 1, lens, T.Columns, lineLength)
  {
    next := configs;
    var k := 0;
    while k < |next|
      invariant 0 <= k <= |next| == |configs|
      invariant forall j :: 0 <= j < k ==>
                  next[j] == T.ScanItems(T.InitialConfig(j + 1, T.MIN_COLUMN_WIDTH), fileIdx + 1, lens, T.Columns, lineLength)
      invariant forall j :: k <= j < |next| ==> next[j] == configs[j]
    {
      var config := VisitCandidate(next[k], fileIdx, lens, lineLength);
      next := next[k := config];
      T.ScanStep(T.InitialConfig(k + 1, T.MIN_COLUMN_WIDTH), fileIdx, lens, T.Columns, lineLength);
      k := k + 1;
    }
  }

  /** The body of the inner loop: the column-major column of the item, its
      length with the separator, and the widening of a valid candidate whose
      column is too narrow. */
  method VisitCandidate(config: T.ColumnConfiguration, fileIdx: nat, lens: seq<nat>, lineLength: nat)
    returns (r: T.ColumnConfiguration)
    requires T.Shaped(config) && fileIdx < |lens|
    ensures r == T.FitItem(config, fileIdx, lens, T.Columns, lineLength)
  {
    r := config;
    if r.valid {
      var colIdx := fileIdx / ((|lens| + r.numColumns - 1) / r.numColumns);
      assert colIdx == T.ColumnIndex(T.Columns, fileIdx, |lens|, r.numColumns);
      var realLen := lens[fileIdx] + if colIdx == r.numColumns - 1 then 0 else 2;
      if r.colWidths[colIdx] < realLen {
        r := r.(lineLen := r.lineLen + (realLen - r.colWidths[colIdx]));
        r := r.(colWidths := r.colWidths[colIdx := realLen]);
        r := r.(valid := r.lineLen < lineLength);
      }
    }
  }

  /** What `tabulate` prints: the column-major grid of the selected
      configuration, every row ended by a newline. */
  function Listing(lens: seq<nat>, lineLength: nat): seq<T.Token>
    requires lens != []
  {
    var cfg := T.Search(lens, lineLength, T.Columns).value;
    T.Join(T.Grid(T.Columns, |lens|, cfg), true)
  }

  /** `tabulate`: search, then print the grid row by row. */
  method Tabulate(lens: seq<nat>, lineLength: nat) returns (out: seq<T.Token>)
    requires lens != []
    ensures out == Listing(lens, lineLength)
  {
    var config := GetColumnConfig(lens, lineLength);
    out := PrintRows(|lens|, config);
  }

  /** The loops of `tabulate`: for every row, the populated cells of the
      column-major grid left to right, then a newline. */
  method PrintRows(n: nat, config: T.ColumnConfiguration) returns (out: seq<T.Token>)
    requires T.Shaped(config)
    ensures out == T.Join(T.Grid(T.Columns, n, config), true)
  {
    var rows := (n / config.numColumns) + if n % config.numColumns != 0 then 1 else 0;
    ghost var grid := T.Grid(T.Columns, n, config);
    out := [];
    var row := 0;
    while row < rows
      invariant row <= rows == |grid|
      invariant out == T.Lines(grid, row, true)
    {
      var cells := PrintRow(row, rows, n, config);
      out := out + cells + [T.Newline];
      row := row + 1;
    }
  }

  /** The inner loop of `tabulate`: the cells of one row at `row + col * rows`,
      skipping indices past the last item. */
  method PrintRow(row: nat, rows: nat, n: nat, config: T.ColumnConfiguration) returns (cells: seq<T.Token>)
    requires T.Shaped(config)
    ensures cells == T.RowCells(T.Columns, row, 0, rows, n, config)
  {
    ghost var whole := T.RowCells(T.Columns, row, 0, rows, n, config);
    cells := [];
    var col := 0;
    while col < config.numColumns
      invariant col <= config.numColumns
      invariant cells + T.RowCells(T.Columns, row, col, rows, n, config) == whole
    {
      var idx := row + col * rows;
      assert idx == T.CellIndex(T.Columns, row, col, rows, config.numColumns);
      ghost var rest := T.RowCells(T.Columns, row, col + 1, rows, n, config);
      if idx < n {
        assert T.RowCells(T.Columns, row, col, rows, n, config) == [T.Cell(idx, config.colWidths[col])] + rest;
        assert cells + ([T.Cell(idx, config.colWidths[col])] + rest) == (cells + [T.Cell(idx, config.colWidths[col])]) + rest;
        cells := cells + [T.Cell(idx, config.colWidths[col])];
      } else {
        assert T.RowCells(T.Columns, row, col, rows, n, config) == rest;
      }
      col := col + 1;
    }
  }

  // ---------------------------------------------------------------------------
  // Properties

  /** The earlier engine lists exactly what the later one displays in column
      order, plus a newline after the last row. */
  lemma ListingIsLayoutWithTrailingNewline(lens: seq<nat>, lineLength: nat)
    requires lens != []
    ensures Listing(lens, lineLength) == T.Layout(lens, lineLength, T.Columns) + [T.Newline]
  {
    var cfg := T.Search(lens, lineLength, T.Columns).value;
    var g := T.Grid(T.Columns, |lens|, cfg);
    assert |g| == T.RowCount(|lens|, cfg.numColumns) >= 1;
    T.LinesTrailing(g, |g|);
  }

  /** Every row of the listing, the last one included, ends with a newline:
      there are as many newlines as rows, and the listing ends with one. */
  lemma ListingEndsEveryRow(lens: seq<nat>, lineLength: nat)
    requires lens != []
    ensures var cfg := T.Search(lens, lineLength, T.Columns).value;
            var out := Listing(lens, lineLength);
            && T.CountNewlines(out) == T.RowCount(|lens|, cfg.numColumns)
            && out != [] && out[|out| - 1] == T.Newline
  {
    var cfg := T.Search(lens, lineLength, T.Columns).value;
    var g := T.Grid(T.Columns, |lens|, cfg);
    assert |g| == T.RowCount(|lens|, cfg.numColumns) >= 1;
    T.GridHoldsOnlyCells(T.Columns, |lens|, cfg);
    T.LinesNewlines(g, |g|, true);
  }
}
