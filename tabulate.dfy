/*
 * The column-layout engine of src/tabulate.rs: a search over candidate column
 * counts that widens every candidate's columns item by item, and a renderer that
 * lays the items out in the chosen grid.
 *
 * Items are given by their display widths (the number of characters of their
 * names); the renderer's output is a stream of tokens, each cell naming the item
 * it prints and the width it is padded to.
 */
module Tabulate {
  import Arith
  import opened Wrappers

  /** One character of content plus two characters of separating white space. */
  const MIN_COLUMN_WIDTH: nat := 3

  /** Width of the white space that separates a column from the next one. */
  const SEPARATOR: nat := 2

  /** Fill order of the grid: `Columns` fills each column top to bottom,
      `Rows` fills each row left to right. */
  datatype Orientation = Columns | Rows

  /** A candidate layout: its column count, the width of each column, the total
      length of a line and whether it still fits the line. */
  datatype ColumnConfiguration = ColumnConfiguration(
    numColumns: nat,
    colWidths: seq<nat>,
    lineLen: nat,
    valid: bool)

  datatype ConfigError = EmptyData

  datatype Result<T> = Ok(value: T) | Err(error: ConfigError)

  /** What the renderer writes: an item padded with spaces on the right to at
      least `padTo` characters, or the end of a row. */
  datatype Token = Cell(index: nat, padTo: nat) | Newline

  function Max(a: nat, b: nat): nat { if a < b then b else a }

  function Min(a: nat, b: nat): nat { if a < b then a else b }

  function Sum(s: seq<nat>): nat
  {
    if s == [] then 0 else s[0] + Sum(s[1..])
  }

  lemma {:induction false} SumConstant(k: nat, w: nat)
    ensures Sum(seq(k, _ => w)) == k * w
  {
    if k > 0 {
      assert seq(k, _ => w)[1..] == seq(k - 1, _ => w);
      SumConstant(k - 1, w);
    }
  }

  /** Replacing one element changes the sum by the difference. */
  lemma {:induction false} SumUpdate(s: seq<nat>, j: nat, v: nat)
    requires j < |s|
    ensures Sum(s[j := v]) + s[j] == Sum(s) + v
  {
    if j == 0 {
      assert s[j := v][1..] == s[1..];
    } else {
      assert s[j := v][1..] == s[1..][j - 1 := v];
      SumUpdate(s[1..], j - 1, v);
    }
  }

  // ---------------------------------------------------------------------------
  // Candidate configurations

  /** The number of candidates: as many columns as minimum-width columns fit in
      the line, at least one, and never more than there are items. */
  function MaxColumns(maxLineLength: nat, numItems: nat, minColWidth: nat): (m: nat)
    requires minColWidth > 0
    ensures m <= numItems
    ensures numItems > 0 ==> 1 <= m
    ensures m > 1 ==> m * minColWidth <= maxLineLength
    ensures m < numItems ==> (m + 1) * minColWidth > maxLineLength
  {
    Min(Max(1, maxLineLength / minColWidth), numItems)
  }

  /** A fresh candidate: every column at the minimum width. */
  function InitialConfig(numColumns: nat, minColWidth: nat): ColumnConfiguration
  {
    ColumnConfiguration(numColumns, seq(numColumns, _ => minColWidth), numColumns * minColWidth, true)
  }

  /** The column widths agree with the column count. */
  predicate Shaped(cfg: ColumnConfiguration)
  {
    cfg.numColumns >= 1 && |cfg.colWidths| == cfg.numColumns
  }

  /** The configuration invariant: the line length is the sum of the column
      widths and no column is narrower than the minimum. */
  predicate WellFormed(cfg: ColumnConfiguration, minColWidth: nat)
  {
    && Shaped(cfg)
    && cfg.lineLen == Sum(cfg.colWidths)
    && forall j :: 0 <= j < |cfg.colWidths| ==> cfg.colWidths[j] >= minColWidth
  }

  /** Builds one fresh candidate per column count 1..=MaxColumns. */
  method InitColumnConfigs(maxLineLength: nat, numItems: nat, minColWidth: nat)
    returns (configs: seq<ColumnConfiguration>)
    requires minColWidth > 0
    ensures |configs| == MaxColumns(maxLineLength, numItems, minColWidth)
    ensures forall k :: 0 <= k < |configs| ==> configs[k] == InitialConfig(k + 1, minColWidth)
    ensures forall k :: 0 <= k < |configs| ==>
              configs[k].numColumns == k + 1 && configs[k].valid &&
              configs[k].lineLen == (k + 1) * minColWidth &&
              WellFormed(configs[k], minColWidth)
  {
    configs := [];
    var maxColumns := Max(1, maxLineLength / minColWidth);
    maxColumns := Min(maxColumns, numItems);
    var numColumns := 1;
    while numColumns <= maxColumns
      invariant 1 <= numColumns <= maxColumns + 1
      invariant |configs| == numColumns - 1
      invariant forall k :: 0 <= k < |configs| ==> configs[k] == InitialConfig(k + 1, minColWidth)
      invariant forall k :: 0 <= k < |configs| ==> WellFormed(configs[k], minColWidth)
    {
      var config := ColumnConfiguration(
        numColumns, seq(numColumns, _ => minColWidth), numColumns * minColWidth, true);
      SumConstant(numColumns, minColWidth);
      configs := configs + [config];
      numColumns := numColumns + 1;
    }
  }

  // ---------------------------------------------------------------------------
  // Index mapping shared by search and render

  /** Number of rows of a grid of `n` items in `c` columns, as the renderer computes it. */
  function RowCount(n: nat, c: nat): (rows: nat)
    requires c > 0
    ensures rows * c >= n
    ensures rows > 0 ==> (rows - 1) * c < n
    ensures rows == (n + c - 1) / c
  {
    DivMod(n, c);
    n / c + if n % c != 0 then 1 else 0
  }

  lemma DivMod(n: nat, c: nat)
    requires c > 0
    ensures n == (n / c) * c + n % c && 0 <= n % c < c
    ensures (n + c - 1) / c == n / c + if n % c != 0 then 1 else 0
  {
    var q, r := n / c, n % c;
    if r == 0 {
      Arith.DivUnique(n + c - 1, c, q, c - 1);
    } else {
      Arith.DivUnique(n + c - 1, c, q + 1, r - 1);
    }
  }

  /** An index below `rows * c` falls in one of the `c` columns of height `rows`. */
  lemma DivBelow(i: nat, rows: nat, c: nat)
    requires rows > 0 && i < rows * c
    ensures i / rows < c
  {
    var q := i / rows;
    assert i == q * rows + i % rows;
  }

  /** The column that item `i` of `n` occupies in a grid of `c` columns. */
  function ColumnIndex(o: Orientation, i: nat, n: nat, c: nat): (col: nat)
    requires 0 < c && i < n
    ensures col < c
  {
    match o
    case Rows => i % c
    case Columns =>
      var rows := RowCount(n, c);
      DivBelow(i, rows, c);
      i / ((n + c - 1) / c)
  }

  /** The length an item needs in its column: its width plus the separator,
      except in the last column. */
  function RealLen(width: nat, col: nat, c: nat): nat
  {
    width + if col == c - 1 then 0 else SEPARATOR
  }

  // ---------------------------------------------------------------------------
  // Layout search

  /** One item's visit to one candidate: a valid candidate whose column is too
      narrow for the item grows that column, adds the growth to the line length
      and stays valid only while the line is shorter than the maximum. */
  function FitItem(cfg: ColumnConfiguration, i: nat, widths: seq<nat>, o: Orientation, maxLineLength: nat)
    : (r: ColumnConfiguration)
    requires Shaped(cfg) && i < |widths|
    ensures r.numColumns == cfg.numColumns && |r.colWidths| == |cfg.colWidths|
  {
    if !cfg.valid then cfg
    else
      var col := ColumnIndex(o, i, |widths|, cfg.numColumns);
      var realLen := RealLen(widths[i], col, cfg.numColumns);
      if cfg.colWidths[col] < realLen then
        var lineLen := cfg.lineLen + (realLen - cfg.colWidths[col]);
        ColumnConfiguration(cfg.numColumns, cfg.colWidths[col := realLen], lineLen, lineLen < maxLineLength)
      else
        cfg
  }

  /** What one visit does: an invalid candidate is left alone, and so is one
      whose column already holds the item; otherwise the item's column becomes
      exactly the item's length and no other column changes, the line length
      grows by exactly the column's growth, and a candidate that changed is
      valid exactly when its line is shorter than the maximum. */
  lemma FitItemEffect(cfg: ColumnConfiguration, i: nat, widths: seq<nat>, o: Orientation, maxLineLength: nat)
    requires Shaped(cfg) && i < |widths|
    ensures var r := FitItem(cfg, i, widths, o, maxLineLength);
            var col := ColumnIndex(o, i, |widths|, cfg.numColumns);
            && (!cfg.valid ==> r == cfg)
            && (forall j :: 0 <= j < |cfg.colWidths| && j != col ==> r.colWidths[j] == cfg.colWidths[j])
            && cfg.colWidths[col] <= r.colWidths[col]
            && r.lineLen + Sum(cfg.colWidths) == cfg.lineLen + Sum(r.colWidths)
            && (cfg.valid ==> r.colWidths[col] >= RealLen(widths[i], col, cfg.numColumns))
            && (cfg.valid ==>
                  r.colWidths == cfg.colWidths[col := Max(cfg.colWidths[col], RealLen(widths[i], col, cfg.numColumns))])
            && (cfg.valid && cfg.colWidths[col] >= RealLen(widths[i], col, cfg.numColumns) ==> r == cfg)
            && (r != cfg ==> cfg.valid && r.lineLen > cfg.lineLen && r.valid == (r.lineLen < maxLineLength))
  {
    if cfg.valid {
      var col := ColumnIndex(o, i, |widths|, cfg.numColumns);
      SumUpdate(cfg.colWidths, col, RealLen(widths[i], col, cfg.numColumns));
    }
  }

  /** A candidate after the first `count` items have visited it. */
  function ScanItems(cfg: ColumnConfiguration, count: nat, widths: seq<nat>, o: Orientation, maxLineLength: nat)
    : (r: ColumnConfiguration)
    requires Shaped(cfg) && count <= |widths|
    ensures Shaped(r) && r.numColumns == cfg.numColumns
    decreases count
  {
    if count == 0 then cfg
    else FitItem(ScanItems(cfg, count - 1, widths, o, maxLineLength), count - 1, widths, o, maxLineLength)
  }

  lemma ScanStep(cfg: ColumnConfiguration, count: nat, widths: seq<nat>, o: Orientation, maxLineLength: nat)
    requires Shaped(cfg) && count < |widths|
    ensures ScanItems(cfg, count + 1, widths, o, maxLineLength)
            == FitItem(ScanItems(cfg, count, widths, o, maxLineLength), count, widths, o, maxLineLength)
  {
  }

  /** Every candidate after the first `count` items. */
  function Candidates(widths: seq<nat>, maxLineLength: nat, o: Orientation, count: nat)
    : (cs: seq<ColumnConfiguration>)
    requires count <= |widths|
  {
    var m := MaxColumns(maxLineLength, |widths|, MIN_COLUMN_WIDTH);
    seq(m, k requires 0 <= k < m =>
      ScanItems(InitialConfig(k + 1, MIN_COLUMN_WIDTH), count, widths, o, maxLineLength))
  }

  /** A sequence holding, for every column count, the scan of every item is
      the candidate sequence. */
  lemma CandidatesAre(cs: seq<ColumnConfiguration>, widths: seq<nat>, maxLineLength: nat, o: Orientation)
    requires |cs| == MaxColumns(maxLineLength, |widths|, MIN_COLUMN_WIDTH)
    requires forall j :: 0 <= j < |cs| ==>
               cs[j] == ScanItems(InitialConfig(j + 1, MIN_COLUMN_WIDTH), |widths|, widths, o, maxLineLength)
    ensures cs == Candidates(widths, maxLineLength, o, |widths|)
  {
    var ds := Candidates(widths, maxLineLength, o, |widths|);
    forall j | 0 <= j < |cs| ensures cs[j] == ds[j] {
    }
  }

  /** The position of the last valid candidate, if any. */
  function LastValid(cs: seq<ColumnConfiguration>): (p: Option<nat>)
    ensures p.Some? ==> p.value < |cs| && cs[p.value].valid
    ensures p.Some? ==> forall j :: p.value < j < |cs| ==> !cs[j].valid
    ensures p.None? ==> forall j :: 0 <= j < |cs| ==> !cs[j].valid
  {
    if cs == [] then None
    else if cs[|cs| - 1].valid then Some(|cs| - 1)
    else LastValid(cs[..|cs| - 1])
  }

  /** The configuration the search settles on: the last candidate still valid
      after every item, or the first (one-column) candidate when none is. */
  function Search(widths: seq<nat>, maxLineLength: nat, o: Orientation): (r: Result<ColumnConfiguration>)
    ensures r.Err? <==> widths == []
    ensures r.Ok? ==> (Shaped(r.value) &&
              1 <= r.value.numColumns <= MaxColumns(maxLineLength, |widths|, MIN_COLUMN_WIDTH))
  {
    if widths == [] then Err(EmptyData)
    else
      var cs := Candidates(widths, maxLineLength, o, |widths|);
      var position := match LastValid(cs) case Some(p) => p case None => 0;
      Ok(cs[position])
  }

  /** The search of `Tabulator::get_column_config`: the candidates live in a
      local sequence whose elements are updated in place, item by item. */
  method GetColumnConfig(widths: seq<nat>, maxLineLength: nat, o: Orientation)
    returns (r: Result<ColumnConfiguration>)
    ensures r == Search(widths, maxLineLength, o)
    ensures r.Err? <==> widths == []
  {
    if widths == [] {
      return Err(EmptyData);
    }
    var configs := InitColumnConfigs(maxLineLength, |widths|, MIN_COLUMN_WIDTH);
    ghost var m := |configs|;
    var fileIdx := 0;
    while fileIdx < |widths|
      invariant fileIdx <= |widths| && |configs| == m
      invariant forall j :: 0 <= j < m ==>
                  configs[j] == ScanItems(InitialConfig(j + 1, MIN_COLUMN_WIDTH), fileIdx, widths, o, maxLineLength)
    {
      configs := WidenAll(configs, fileIdx, widths, o, maxLineLength);
      fileIdx := fileIdx + 1;
    }
    CandidatesAre(configs, widths, maxLineLength, o);
    var position := match LastValid(configs) case Some(p) => p case None => 0;
    r := Ok(configs[position]);
  }

  /** One turn of the outer loop of `get_column_config`: item `fileIdx`
      visits every candidate in place. */
  method WidenAll(configs: seq<ColumnConfiguration>, fileIdx: nat, widths: seq<nat>, o: Orientation, maxLineLength: nat)
    returns (next: seq<ColumnConfiguration>)
    requires fileIdx < |widths|
    requires forall j :: 0 <= j < |configs| ==>
               configs[j] == ScanItems(InitialConfig(j + 1, MIN_COLUMN_WIDTH), fileIdx, widths, o, maxLineLength)
    ensures |next| == |configs|
    ensures forall j :: 0 <= j < |next| ==>
              next[j] == ScanItems(InitialConfig(j + 1, MIN_COLUMN_WIDTH), fileIdx + 1, widths, o, maxLineLength)
  {
    next := configs;
    var k := 0;
    while k < |next|
      invariant 0 <= k <= |next| == |configs|
      invariant forall j :: 0 <= j < k ==>
                  next[j] == ScanItems(InitialConfig(j + 1, MIN_COLUMN_WIDTH), fileIdx + 1, widths, o, maxLineLength)
      invariant forall j :: k <= j < |next| ==> next[j] == configs[j]
    {
      var config := WidenCandidate(next[k], fileIdx, widths, o, maxLineLength);
      next := next[k := config];
      ScanStep(InitialConfig(k + 1, MIN_COLUMN_WIDTH), fileIdx, widths, o, maxLineLength);
      k := k + 1;
    }
  }

  /** The body of the inner loop: a valid candidate whose column is too narrow
      for the item grows the column, adds the growth to its line length and
      recomputes its validity. */
  method WidenCandidate(config: ColumnConfiguration, fileIdx: nat, widths: seq<nat>, o: Orientation, maxLineLength: nat)
    returns (r: ColumnConfiguration)
    requires Shaped(config) && fileIdx < |widths|
    ensures r == FitItem(config, fileIdx, widths, o, maxLineLength)
  {
    r := config;
    if r.valid {
      var colIdx := ColumnIndex(o, fileIdx, |widths|, r.numColumns);
      var realLen := RealLen(widths[fileIdx], colIdx, r.numColumns);
      if r.colWidths[colIdx] < realLen {
        r := r.(lineLen := r.lineLen + (realLen - r.colWidths[colIdx]));
        r := r.(colWidths := r.colWidths[colIdx := realLen]);
        r := r.(valid := r.lineLen < maxLineLength);
      }
    }
  }

  // ---------------------------------------------------------------------------
  // Properties of the search

  /** Widening keeps the line length equal to the sum of the column widths and
      every column at least the minimum width. */
  lemma {:induction false} ScanKeepsWellFormed(cfg: ColumnConfiguration, count: nat, widths: seq<nat>, o: Orientation, maxLineLength: nat, minColWidth: nat)
    requires WellFormed(cfg, minColWidth) && count <= |widths|
    ensures WellFormed(ScanItems(cfg, count, widths, o, maxLineLength), minColWidth)
  {
    if count > 0 {
      ScanKeepsWellFormed(cfg, count - 1, widths, o, maxLineLength, minColWidth);
      FitItemEffect(ScanItems(cfg, count - 1, widths, o, maxLineLength), count - 1, widths, o, maxLineLength);
    }
  }

  /** Column widths never decrease during the scan. */
  lemma {:induction false} ScanWidthsGrow(cfg: ColumnConfiguration, a: nat, b: nat, widths: seq<nat>, o: Orientation, maxLineLength: nat)
    requires Shaped(cfg) && a <= b <= |widths|
    ensures forall j :: 0 <= j < cfg.numColumns ==>
              ScanItems(cfg, a, widths, o, maxLineLength).colWidths[j] <=
              ScanItems(cfg, b, widths, o, maxLineLength).colWidths[j]
  {
    if a < b {
      ScanWidthsGrow(cfg, a, b - 1, widths, o, maxLineLength);
      FitItemEffect(ScanItems(cfg, b - 1, widths, o, maxLineLength), b - 1, widths, o, maxLineLength);
    }
  }

  /** Once a candidate is invalid it is never updated again. */
  lemma {:induction false} InvalidIsFrozen(cfg: ColumnConfiguration, a: nat, b: nat, widths: seq<nat>, o: Orientation, maxLineLength: nat)
    requires Shaped(cfg) && a <= b <= |widths|
    requires !ScanItems(cfg, a, widths, o, maxLineLength).valid
    ensures ScanItems(cfg, b, widths, o, maxLineLength) == ScanItems(cfg, a, widths, o, maxLineLength)
  {
    if a < b {
      InvalidIsFrozen(cfg, a, b - 1, widths, o, maxLineLength);
      FitItemEffect(ScanItems(cfg, b - 1, widths, o, maxLineLength), b - 1, widths, o, maxLineLength);
    }
  }

  /** A candidate still valid after the scan has every column wide enough for
      each of its items, separator included except in the last column. */
  lemma {:induction false} ValidFitsItems(cfg: ColumnConfiguration, count: nat, widths: seq<nat>, o: Orientation, maxLineLength: nat)
    requires Shaped(cfg) && count <= |widths|
    requires ScanItems(cfg, count, widths, o, maxLineLength).valid
    ensures forall i :: 0 <= i < count ==>
              var r := ScanItems(cfg, count, widths, o, maxLineLength);
              var col := ColumnIndex(o, i, |widths|, cfg.numColumns);
              r.colWidths[col] >= RealLen(widths[i], col, cfg.numColumns)
  {
    if count > 0 {
      var prev := ScanItems(cfg, count - 1, widths, o, maxLineLength);
      FitItemEffect(prev, count - 1, widths, o, maxLineLength);
      ValidFitsItems(cfg, count - 1, widths, o, maxLineLength);
    }
  }

  /** A candidate still valid after the scan is shorter than the line, unless no
      item ever widened it (it then keeps its initial line length). */
  lemma {:induction false} ValidIsShort(cfg: ColumnConfiguration, count: nat, widths: seq<nat>, o: Orientation, maxLineLength: nat)
    requires Shaped(cfg) && count <= |widths|
    requires ScanItems(cfg, count, widths, o, maxLineLength).valid
    ensures var r := ScanItems(cfg, count, widths, o, maxLineLength);
            r.lineLen < maxLineLength || r == cfg
  {
    if count > 0 {
      var prev := ScanItems(cfg, count - 1, widths, o, maxLineLength);
      FitItemEffect(prev, count - 1, widths, o, maxLineLength);
      ValidIsShort(cfg, count - 1, widths, o, maxLineLength);
    }
  }

  /** The k-th candidate has k + 1 columns and keeps the configuration invariant. */
  lemma CandidateShape(widths: seq<nat>, maxLineLength: nat, o: Orientation, k: nat)
    requires k < MaxColumns(maxLineLength, |widths|, MIN_COLUMN_WIDTH)
    ensures var c := Candidates(widths, maxLineLength, o, |widths|)[k];
            c.numColumns == k + 1 && WellFormed(c, MIN_COLUMN_WIDTH)
  {
    SumConstant(k + 1, MIN_COLUMN_WIDTH);
    ScanKeepsWellFormed(InitialConfig(k + 1, MIN_COLUMN_WIDTH), |widths|, widths, o, maxLineLength, MIN_COLUMN_WIDTH);
  }

  /** The selected configuration keeps the configuration invariant, and it is
      the widest valid candidate; when no candidate is valid it is the
      one-column candidate. */
  lemma SearchSelectsWidestValid(widths: seq<nat>, maxLineLength: nat, o: Orientation)
    requires widths != []
    ensures var c := Search(widths, maxLineLength, o).value;
            var cs := Candidates(widths, maxLineLength, o, |widths|);
            && WellFormed(c, MIN_COLUMN_WIDTH)
            && c == cs[c.numColumns - 1]
            && (c.valid ==> forall k :: 0 <= k < |cs| && cs[k].valid ==> cs[k].numColumns <= c.numColumns)
            && (!c.valid ==> c.numColumns == 1 && forall k :: 0 <= k < |cs| ==> !cs[k].valid)
  {
    var cs := Candidates(widths, maxLineLength, o, |widths|);
    var c := Search(widths, maxLineLength, o).value;
    var position := match LastValid(cs) case Some(p) => p case None => 0;
    CandidateShape(widths, maxLineLength, o, position);
    forall k | 0 <= k < |cs| ensures cs[k].numColumns == k + 1 {
      CandidateShape(widths, maxLineLength, o, k);
    }
  }

  /** When the selected configuration is valid, every item fits its column and
      the line is shorter than the maximum unless no item widened any column. */
  lemma SearchFits(widths: seq<nat>, maxLineLength: nat, o: Orientation)
    requires widths != []
    requires Search(widths, maxLineLength, o).value.valid
    ensures var c := Search(widths, maxLineLength, o).value;
            && (c.lineLen < maxLineLength || c == InitialConfig(c.numColumns, MIN_COLUMN_WIDTH))
            && forall i :: 0 <= i < |widths| ==>
                 var col := ColumnIndex(o, i, |widths|, c.numColumns);
                 c.colWidths[col] >= RealLen(widths[i], col, c.numColumns)
  {
    var c := Search(widths, maxLineLength, o).value;
    SearchSelectsWidestValid(widths, maxLineLength, o);
    var init := InitialConfig(c.numColumns, MIN_COLUMN_WIDTH);
    assert c == ScanItems(init, |widths|, widths, o, maxLineLength);
    ValidFitsItems(init, |widths|, widths, o, maxLineLength);
    ValidIsShort(init, |widths|, widths, o, maxLineLength);
  }

  /** The narrowest widths a `c`-column candidate can have once the first
      `count` items are placed: per column, the larger of the minimum width and
      the longest length (separator included) of the items in that column. */
  function ColumnNeeds(widths: seq<nat>, o: Orientation, c: nat, count: nat): (s: seq<nat>)
    requires c >= 1 && count <= |widths|
    ensures |s| == c
  {
    if count == 0 then seq(c, _ => MIN_COLUMN_WIDTH)
    else
      var p := ColumnNeeds(widths, o, c, count - 1);
      var col := ColumnIndex(o, count - 1, |widths|, c);
      p[col := Max(p[col], RealLen(widths[count - 1], col, c))]
  }

  /** `ColumnNeeds` is the per-column maximum: every column is at least the
      minimum and at least each of its items' lengths, and equals the minimum
      or one of those lengths. */
  lemma {:induction false} ColumnNeedsIsMax(widths: seq<nat>, o: Orientation, c: nat, count: nat)
    requires c >= 1 && count <= |widths|
    ensures var s := ColumnNeeds(widths, o, c, count);
            && (forall j :: 0 <= j < c ==> s[j] >= MIN_COLUMN_WIDTH)
            && (forall i :: 0 <= i < count ==>
                  var col := ColumnIndex(o, i, |widths|, c);
                  s[col] >= RealLen(widths[i], col, c))
            && (forall j :: 0 <= j < c ==> s[j] == MIN_COLUMN_WIDTH || Attained(widths, o, c, count, j, s[j]))
  {
    if count > 0 {
      ColumnNeedsIsMax(widths, o, c, count - 1);
      var p := ColumnNeeds(widths, o, c, count - 1);
      var s := ColumnNeeds(widths, o, c, count);
      var col := ColumnIndex(o, count - 1, |widths|, c);
      forall j | 0 <= j < c ensures s[j] == MIN_COLUMN_WIDTH || Attained(widths, o, c, count, j, s[j]) {
        if j == col && p[col] < RealLen(widths[count - 1], col, c) {
          assert Attained(widths, o, c, count, j, s[j]) by {
            assert ColumnIndex(o, count - 1, |widths|, c) == j;
          }
        } else if s[j] != MIN_COLUMN_WIDTH {
          assert s[j] == p[j];
          var i :| 0 <= i < count - 1 && ColumnIndex(o, i, |widths|, c) == j && p[j] == RealLen(widths[i], j, c);
          assert Attained(widths, o, c, count, j, s[j]);
        }
      }
    }
  }

  /** Some item among the first `count` lies in column `j` and has length `w`. */
  predicate Attained(widths: seq<nat>, o: Orientation, c: nat, count: nat, j: nat, w: nat)
    requires c >= 1 && count <= |widths|
  {
    exists i :: 0 <= i < count && ColumnIndex(o, i, |widths|, c) == j && w == RealLen(widths[i], j, c)
  }

  /** A `c`-column candidate still valid has exactly the narrowest widths, and
      it stays valid whenever those widths sum to less than the maximum. */
  lemma {:induction false} ScanFollowsNeeds(widths: seq<nat>, maxLineLength: nat, o: Orientation, c: nat, count: nat)
    requires c >= 1 && count <= |widths|
    ensures var r := ScanItems(InitialConfig(c, MIN_COLUMN_WIDTH), count, widths, o, maxLineLength);
            && (r.valid ==> r.colWidths == ColumnNeeds(widths, o, c, count))
            && (Sum(ColumnNeeds(widths, o, c, count)) < maxLineLength ==> r.valid)
  {
    if count > 0 {
      var init := InitialConfig(c, MIN_COLUMN_WIDTH);
      SumConstant(c, MIN_COLUMN_WIDTH);
      ScanFollowsNeeds(widths, maxLineLength, o, c, count - 1);
      var prev := ScanItems(init, count - 1, widths, o, maxLineLength);
      ScanKeepsWellFormed(init, count - 1, widths, o, maxLineLength, MIN_COLUMN_WIDTH);
      ScanKeepsWellFormed(init, count, widths, o, maxLineLength, MIN_COLUMN_WIDTH);
      FitItemEffect(prev, count - 1, widths, o, maxLineLength);
      var p := ColumnNeeds(widths, o, c, count - 1);
      var col := ColumnIndex(o, count - 1, |widths|, c);
      var n := ColumnNeeds(widths, o, c, count);
      var r := ScanItems(init, count, widths, o, maxLineLength);
      assert r == FitItem(prev, count - 1, widths, o, maxLineLength);
      if prev.valid {
        assert r.colWidths == n;
      }
      SumUpdate(p, col, Max(p[col], RealLen(widths[count - 1], col, c)));
      if Sum(n) < maxLineLength {
        assert Sum(p) <= Sum(n);
        assert prev.valid;
        if r != prev {
          assert r.lineLen == Sum(n);
        }
      }
    }
  }

  /** The search is optimal: whenever the narrowest widths of some column count
      sum to less than the maximum, the selected configuration is valid, has at
      least that many columns, and has exactly its own narrowest widths. */
  lemma SearchIsOptimal(widths: seq<nat>, maxLineLength: nat, o: Orientation, k: nat)
    requires widths != []
    requires 1 <= k <= MaxColumns(maxLineLength, |widths|, MIN_COLUMN_WIDTH)
    requires Sum(ColumnNeeds(widths, o, k, |widths|)) < maxLineLength
    ensures var c := Search(widths, maxLineLength, o).value;
            && c.valid && k <= c.numColumns
            && c.colWidths == ColumnNeeds(widths, o, c.numColumns, |widths|)
  {
    var c := Search(widths, maxLineLength, o).value;
    var cs := Candidates(widths, maxLineLength, o, |widths|);
    ScanFollowsNeeds(widths, maxLineLength, o, k, |widths|);
    SearchSelectsWidestValid(widths, maxLineLength, o);
    CandidateShape(widths, maxLineLength, o, k - 1);
    assert cs[k - 1].valid;
    ScanFollowsNeeds(widths, maxLineLength, o, c.numColumns, |widths|);
  }

  // ---------------------------------------------------------------------------
  // Grid rendering

  /** The item index printed at (`row`, `col`) of a grid with `rows` rows and `c` columns. */
  function CellIndex(o: Orientation, row: nat, col: nat, rows: nat, c: nat): nat
  {
    match o
    case Rows => row * c + col
    case Columns => row + col * rows
  }

  /** The cells written for columns `col` .. `numColumns - 1` of one row: a cell
      whose index is past the last item is skipped. */
  function RowCells(o: Orientation, row: nat, col: nat, rows: nat, n: nat, cfg: ColumnConfiguration): seq<Token>
    requires Shaped(cfg) && col <= cfg.numColumns
    decreases cfg.numColumns - col
  {
    if col == cfg.numColumns then []
    else
      var idx := CellIndex(o, row, col, rows, cfg.numColumns);
      (if idx < n then [Cell(idx, cfg.colWidths[col])] else []) + RowCells(o, row, col + 1, rows, n, cfg)
  }

  /** The rows of the grid of `n` items laid out by `cfg`. */
  function Grid(o: Orientation, n: nat, cfg: ColumnConfiguration): seq<seq<Token>>
    requires Shaped(cfg)
  {
    var rows := RowCount(n, cfg.numColumns);
    seq(rows, r requires 0 <= r < rows => RowCells(o, r, 0, rows, n, cfg))
  }

  /** The first `k` rows of `grid`, each but the last followed by a newline; the
      last one too when `trailingNewline` holds. */
  function Lines(grid: seq<seq<Token>>, k: nat, trailingNewline: bool): seq<Token>
    requires k <= |grid|
  {
    if k == 0 then []
    else
      Lines(grid, k - 1, trailingNewline) + grid[k - 1] +
      (if k < |grid| || trailingNewline then [Newline] else [])
  }

  function Join(grid: seq<seq<Token>>, trailingNewline: bool): seq<Token>
  {
    Lines(grid, |grid|, trailingNewline)
  }

  /** The text the tabulator displays: nothing for no items, otherwise the grid
      of the selected configuration with newlines between its rows. */
  function Layout(widths: seq<nat>, maxLineLength: nat, o: Orientation): seq<Token>
  {
    match Search(widths, maxLineLength, o)
    case Err(_) => []
    case Ok(cfg) => Join(Grid(o, |widths|, cfg), false)
  }

  /** `Display for Tabulator::fmt`: search, then write the grid row by row. */
  method Fmt(widths: seq<nat>, maxLineLength: nat, o: Orientation) returns (out: seq<Token>)
    ensures out == Layout(widths, maxLineLength, o)
    ensures widths == [] ==> out == []
  {
    var result := GetColumnConfig(widths, maxLineLength, o);
    match result {
      case Err(EmptyData) =>
        out := [];
      case Ok(config) =>
        out := WriteGrid(|widths|, config, o);
    }
  }

  /** The loops of `fmt`: for every row, the populated cells left to right, and
      a newline after every row but the last. */
  method WriteGrid(n: nat, config: ColumnConfiguration, o: Orientation) returns (out: seq<Token>)
    requires Shaped(config)
    ensures out == Join(Grid(o, n, config), false)
  {
    var rows := (n / config.numColumns) + if n % config.numColumns != 0 then 1 else 0;
    ghost var grid := Grid(o, n, config);
    out := [];
    var row := 0;
    while row < rows
      invariant row <= rows == |grid|
      invariant out == Lines(grid, row, false)
    {
      var cells := WriteRow(row, rows, n, config, o);
      out := out + cells;
      if row < rows - 1 {
        out := out + [Newline];
      }
      row := row + 1;
    }
  }

  /** The inner loop of `fmt`: the cells of one row, left to right, skipping
      indices past the last item. */
  method WriteRow(row: nat, rows: nat, n: nat, config: ColumnConfiguration, o: Orientation)
    returns (cells: seq<Token>)
    requires Shaped(config)
    ensures cells == RowCells(o, row, 0, rows, n, config)
  {
    ghost var whole := RowCells(o, row, 0, rows, n, config);
    cells := [];
    var col := 0;
    while col < config.numColumns
      invariant col <= config.numColumns
      invariant cells + RowCells(o, row, col, rows, n, config) == whole
    {
      var idx := CellIndex(o, row, col, rows, config.numColumns);
      ghost var rest := RowCells(o, row, col + 1, rows, n, config);
      if idx < n {
        assert RowCells(o, row, col, rows, n, config) == [Cell(idx, config.colWidths[col])] + rest;
        assert cells + ([Cell(idx, config.colWidths[col])] + rest) == (cells + [Cell(idx, config.colWidths[col])]) + rest;
        cells := cells + [Cell(idx, config.colWidths[col])];
      } else {
        assert RowCells(o, row, col, rows, n, config) == rest;
      }
      col := col + 1;
    }
  }

  // ---------------------------------------------------------------------------
  // Properties of the grid

  /** Moving one column right never moves back to an earlier item. */
  lemma CellIndexGrows(o: Orientation, row: nat, col: nat, rows: nat, c: nat)
    ensures CellIndex(o, row, col, rows, c) <= CellIndex(o, row, col + 1, rows, c)
  {
    assert (col + 1) * rows == col * rows + rows;
  }

  /** The cells of a row from column `col` on sit in consecutive columns from
      `col`, each naming an item; the row ends at the first column whose index
      is past the last item, and every later column is past it too. */
  lemma {:induction false} RowCellsFrom(o: Orientation, row: nat, col: nat, rows: nat, n: nat, cfg: ColumnConfiguration)
    requires Shaped(cfg) && col <= cfg.numColumns
    ensures var cells := RowCells(o, row, col, rows, n, cfg);
            && |cells| <= cfg.numColumns - col
            && (forall j :: col <= j < col + |cells| ==>
                  CellIndex(o, row, j, rows, cfg.numColumns) < n &&
                  cells[j - col] == Cell(CellIndex(o, row, j, rows, cfg.numColumns), cfg.colWidths[j]))
            && (forall j :: col + |cells| <= j < cfg.numColumns ==> CellIndex(o, row, j, rows, cfg.numColumns) >= n)
    decreases cfg.numColumns - col
  {
    if col < cfg.numColumns {
      var c := cfg.numColumns;
      var idx := CellIndex(o, row, col, rows, c);
      var rest := RowCells(o, row, col + 1, rows, n, cfg);
      RowCellsFrom(o, row, col + 1, rows, n, cfg);
      CellIndexGrows(o, row, col, rows, c);
      if idx < n {
        var cells := [Cell(idx, cfg.colWidths[col])] + rest;
        assert RowCells(o, row, col, rows, n, cfg) == cells;
      }
    }
  }

  /** Item `i` is printed in the column the search assigned it, at the row
      computed from its index. */
  function ItemRow(o: Orientation, i: nat, n: nat, c: nat): nat
    requires c > 0 && i < n
  {
    match o
    case Rows => i / c
    case Columns => i % RowCount(n, c)
  }

  /** Item `i` sits at its row, in the column the search gave it. */
  lemma ItemCell(o: Orientation, n: nat, cfg: ColumnConfiguration, i: nat)
    requires Shaped(cfg) && i < n
    ensures var g := Grid(o, n, cfg);
            var row := ItemRow(o, i, n, cfg.numColumns);
            var col := ColumnIndex(o, i, n, cfg.numColumns);
            row < |g| && col < |g[row]| && g[row][col] == Cell(i, cfg.colWidths[col])
  {
    var c := cfg.numColumns;
    var rows := RowCount(n, c);
    var row := ItemRow(o, i, n, c);
    var col := ColumnIndex(o, i, n, c);
    DivMod(i, c);
    DivMod(i, rows);
    if o.Rows? {
      DivBelow(i, c, rows);
    }
    assert CellIndex(o, row, col, rows, c) == i;
    RowCellsFrom(o, row, 0, rows, n, cfg);
  }

  /** No other cell of the grid names item `i`. */
  lemma ItemCellUnique(o: Orientation, n: nat, cfg: ColumnConfiguration, i: nat, r: nat, j: nat)
    requires Shaped(cfg) && i < n
    requires r < RowCount(n, cfg.numColumns)
    requires j < |Grid(o, n, cfg)[r]| && Grid(o, n, cfg)[r][j].Cell? && Grid(o, n, cfg)[r][j].index == i
    ensures r == ItemRow(o, i, n, cfg.numColumns) && j == ColumnIndex(o, i, n, cfg.numColumns)
  {
    var c := cfg.numColumns;
    var rows := RowCount(n, c);
    RowCellsFrom(o, r, 0, rows, n, cfg);
    assert CellIndex(o, r, j, rows, c) == i;
    if o.Rows? {
      Arith.DivUnique(i, c, r, j);
    } else {
      Arith.DivUnique(i, rows, j, r);
    }
  }

  /** Every item lands in exactly one cell of the grid: the cell at its row and
      at the column the search gave it, padded to that column's width. */
  lemma EachItemInOneCell(o: Orientation, n: nat, cfg: ColumnConfiguration, i: nat)
    requires Shaped(cfg) && i < n
    ensures var g := Grid(o, n, cfg);
            var row := ItemRow(o, i, n, cfg.numColumns);
            var col := ColumnIndex(o, i, n, cfg.numColumns);
            && row < |g| && col < |g[row]|
            && g[row][col] == Cell(i, cfg.colWidths[col])
            && forall r, j :: 0 <= r < |g| && 0 <= j < |g[r]| && g[r][j].Cell? && g[r][j].index == i ==>
                 r == row && j == col
  {
    ItemCell(o, n, cfg, i);
    var g: seq<seq<Token>> := Grid(o, n, cfg);
    forall r: int, j: int | 0 <= r < |g| && 0 <= j < |g[r]| && g[r][j].Cell? && g[r][j].index == i
      ensures r == ItemRow(o, i, n, cfg.numColumns) && j == ColumnIndex(o, i, n, cfg.numColumns)
    {
      ItemCellUnique(o, n, cfg, i, r, j);
    }
  }

  /** The cell at (`row`, `col`) holds an item whose search column is `col`. */
  lemma CellColumn(o: Orientation, row: nat, col: nat, n: nat, c: nat)
    requires c > 0 && row < RowCount(n, c) && col < c
    requires CellIndex(o, row, col, RowCount(n, c), c) < n
    ensures ColumnIndex(o, CellIndex(o, row, col, RowCount(n, c), c), n, c) == col
  {
    var rows := RowCount(n, c);
    if o.Rows? {
      Arith.DivUnique(row * c + col, c, row, col);
    } else {
      Arith.DivUnique(row + col * rows, rows, col, row);
    }
  }

  lemma MulLe(a: nat, b: nat, c: nat)
    requires a <= b
    ensures a * c <= b * c
  {
    assert b * c == a * c + (b - a) * c;
  }

  /** Every cell of the grid names an item, is padded to the width of the
      column it sits in, and sits in the column the search gave that item. */
  lemma GridCellsMatchSearch(o: Orientation, n: nat, cfg: ColumnConfiguration)
    requires Shaped(cfg)
    ensures var g := Grid(o, n, cfg);
            forall r, j :: 0 <= r < |g| && 0 <= j < |g[r]| ==> CellMatches(o, n, cfg, g[r][j], j)
  {
    var g := Grid(o, n, cfg);
    forall r, j | 0 <= r < |g| && 0 <= j < |g[r]|
      ensures CellMatches(o, n, cfg, g[r][j], j)
    {
      GridCell(o, n, cfg, r, j);
    }
  }

  /** The grid holds cells only; newlines are added when its rows are joined. */
  lemma GridHoldsOnlyCells(o: Orientation, n: nat, cfg: ColumnConfiguration)
    requires Shaped(cfg)
    ensures var g := Grid(o, n, cfg);
            forall r, j :: 0 <= r < |g| && 0 <= j < |g[r]| ==> g[r][j].Cell?
  {
    var g: seq<seq<Token>> := Grid(o, n, cfg);
    forall r: int, j: int | 0 <= r < |g| && 0 <= j < |g[r]| ensures g[r][j].Cell? {
      GridCell(o, n, cfg, r, j);
    }
  }

  /** Cell `t` at column `j` names an item, is padded to column `j`'s width, and
      column `j` is where the search put that item. */
  predicate CellMatches(o: Orientation, n: nat, cfg: ColumnConfiguration, t: Token, j: int)
    requires Shaped(cfg)
  {
    && 0 <= j < cfg.numColumns
    && t.Cell? && t.index < n
    && t.padTo == cfg.colWidths[j]
    && ColumnIndex(o, t.index, n, cfg.numColumns) == j
  }

  lemma GridCell(o: Orientation, n: nat, cfg: ColumnConfiguration, r: nat, j: nat)
    requires Shaped(cfg) && r < RowCount(n, cfg.numColumns) && j < |Grid(o, n, cfg)[r]|
    ensures var t := Grid(o, n, cfg)[r][j];
            && j < cfg.numColumns
            && t == Cell(CellIndex(o, r, j, RowCount(n, cfg.numColumns), cfg.numColumns), cfg.colWidths[j])
            && t.index < n && ColumnIndex(o, t.index, n, cfg.numColumns) == j
  {
    var c := cfg.numColumns;
    var rows := RowCount(n, c);
    RowCellsFrom(o, r, 0, rows, n, cfg);
    assert CellIndex(o, r, j, rows, c) < n;
    CellColumn(o, r, j, n, c);
  }

  /** Every row holds at least its first cell. */
  lemma RowsArePopulated(o: Orientation, n: nat, cfg: ColumnConfiguration, row: nat)
    requires Shaped(cfg) && row < RowCount(n, cfg.numColumns)
    ensures |Grid(o, n, cfg)[row]| >= 1
  {
    var c := cfg.numColumns;
    var rows := RowCount(n, c);
    RowCellsFrom(o, row, 0, rows, n, cfg);
    MulLe(row, rows - 1, c);
    MulLe(1, c, rows - 1);
    assert CellIndex(o, row, 0, rows, c) < n;
  }

  /** Number of characters a token takes once printed: an item is padded to its
      cell width and is never cut. */
  function PrintedWidth(t: Token, widths: seq<nat>): nat
  {
    match t
    case Newline => 0
    case Cell(i, w) => if i < |widths| then Max(widths[i], w) else w
  }

  function RowWidth(cells: seq<Token>, widths: seq<nat>): nat
  {
    if cells == [] then 0 else PrintedWidth(cells[0], widths) + RowWidth(cells[1..], widths)
  }

  lemma {:induction false} SumPrefix(s: seq<nat>, k: nat)
    requires k <= |s|
    ensures Sum(s[..k]) <= Sum(s)
  {
    if k > 0 {
      assert s[..k][1..] == s[1..][..k - 1];
      SumPrefix(s[1..], k - 1);
    }
  }

  lemma {:induction false} RowWidthIsSum(cells: seq<Token>, widths: seq<nat>, ws: seq<nat>)
    requires |cells| <= |ws|
    requires forall j :: 0 <= j < |cells| ==> PrintedWidth(cells[j], widths) == ws[j]
    ensures RowWidth(cells, widths) == Sum(ws[..|cells|])
  {
    if cells != [] {
      assert ws[..|cells|][1..] == ws[1..][..|cells| - 1];
      RowWidthIsSum(cells[1..], widths, ws[1..]);
    }
  }

  /** A row whose every cell names an item no wider than the cell, padded to
      the width of its column, is as wide as the columns it fills. */
  lemma RowFits(cells: seq<Token>, widths: seq<nat>, colWidths: seq<nat>)
    requires |cells| <= |colWidths|
    requires forall j :: 0 <= j < |cells| ==> FitsColumn(cells[j], widths, colWidths[j])
    ensures RowWidth(cells, widths) <= Sum(colWidths)
  {
    forall j | 0 <= j < |cells| ensures PrintedWidth(cells[j], widths) == colWidths[j] {
      assert FitsColumn(cells[j], widths, colWidths[j]);
    }
    RowWidthIsSum(cells, widths, colWidths);
    SumPrefix(colWidths, |cells|);
  }

  predicate FitsColumn(t: Token, widths: seq<nat>, w: nat)
  {
    t.Cell? && t.index < |widths| && widths[t.index] <= t.padTo == w
  }

  /** The rows of a configuration that holds every item in its column are no
      wider than its line length. */
  lemma GridRowFits(widths: seq<nat>, o: Orientation, cfg: ColumnConfiguration, r: nat)
    requires WellFormed(cfg, 0)
    requires forall i :: 0 <= i < |widths| ==>
               var col := ColumnIndex(o, i, |widths|, cfg.numColumns);
               cfg.colWidths[col] >= RealLen(widths[i], col, cfg.numColumns)
    requires r < RowCount(|widths|, cfg.numColumns)
    ensures RowWidth(Grid(o, |widths|, cfg)[r], widths) <= cfg.lineLen
  {
    var n := |widths|;
    var g := Grid(o, n, cfg);
    var cells := g[r];
    GridCellsMatchSearch(o, n, cfg);
    forall j | 0 <= j < |cells| ensures FitsColumn(cells[j], widths, cfg.colWidths[j]) {
      assert CellMatches(o, n, cfg, g[r][j], j);
      CellFits(o, widths, cfg, cells[j], j);
    }
    if cells != [] {
      assert CellMatches(o, n, cfg, g[r][|cells| - 1], |cells| - 1);
    }
    RowFits(cells, widths, cfg.colWidths);
  }

  lemma CellFits(o: Orientation, widths: seq<nat>, cfg: ColumnConfiguration, t: Token, j: int)
    requires Shaped(cfg)
    requires forall i :: 0 <= i < |widths| ==>
               var col := ColumnIndex(o, i, |widths|, cfg.numColumns);
               cfg.colWidths[col] >= RealLen(widths[i], col, cfg.numColumns)
    requires CellMatches(o, |widths|, cfg, t, j)
    ensures FitsColumn(t, widths, cfg.colWidths[j])
  {
    var col := ColumnIndex(o, t.index, |widths|, cfg.numColumns);
    assert cfg.colWidths[col] >= RealLen(widths[t.index], col, cfg.numColumns);
  }

  /** In a valid layout no row is wider than the selected line length. */
  lemma ValidRowFits(widths: seq<nat>, maxLineLength: nat, o: Orientation, r: nat)
    requires widths != []
    requires Search(widths, maxLineLength, o).value.valid
    requires r < RowCount(|widths|, Search(widths, maxLineLength, o).value.numColumns)
    ensures var cfg := Search(widths, maxLineLength, o).value;
            RowWidth(Grid(o, |widths|, cfg)[r], widths) <= cfg.lineLen
  {
    var cfg := Search(widths, maxLineLength, o).value;
    SearchFits(widths, maxLineLength, o);
    SearchSelectsWidestValid(widths, maxLineLength, o);
    GridRowFits(widths, o, cfg, r);
  }

  /** When the selected configuration is valid, no printed row is wider than
      its line length, which is below the maximum unless no item ever widened
      a column. */
  lemma ValidLayoutRowsFit(widths: seq<nat>, maxLineLength: nat, o: Orientation)
    requires widths != []
    requires Search(widths, maxLineLength, o).value.valid
    ensures var cfg := Search(widths, maxLineLength, o).value;
            var g := Grid(o, |widths|, cfg);
            && (cfg.lineLen < maxLineLength || cfg == InitialConfig(cfg.numColumns, MIN_COLUMN_WIDTH))
            && forall r :: 0 <= r < |g| ==> RowWidth(g[r], widths) <= cfg.lineLen
  {
    SearchFits(widths, maxLineLength, o);
    var cfg := Search(widths, maxLineLength, o).value;
    forall r | 0 <= r < |Grid(o, |widths|, cfg)|
      ensures RowWidth(Grid(o, |widths|, cfg)[r], widths) <= cfg.lineLen
    {
      ValidRowFits(widths, maxLineLength, o, r);
    }
  }

  function CountNewlines(ts: seq<Token>): nat
  {
    if ts == [] then 0 else (if ts[0].Newline? then 1 else 0) + CountNewlines(ts[1..])
  }

  lemma {:induction false} CountNewlinesAppend(a: seq<Token>, b: seq<Token>)
    ensures CountNewlines(a + b) == CountNewlines(a) + CountNewlines(b)
  {
    if a != [] {
      assert (a + b)[0] == a[0] && (a + b)[1..] == a[1..] + b;
      CountNewlinesAppend(a[1..], b);
    } else {
      assert a + b == b;
    }
  }

  /** A row of cells holds no newline. */
  lemma {:induction false} CellsHoldNoNewline(row: seq<Token>)
    requires forall j :: 0 <= j < |row| ==> row[j].Cell?
    ensures CountNewlines(row) == 0
  {
    if row != [] {
      CellsHoldNoNewline(row[1..]);
    }
  }

  /** Rows are separated by newlines: a grid of cells joined without a trailing
      newline holds one newline fewer than it has rows; with one, as many. */
  lemma {:induction false} LinesNewlines(grid: seq<seq<Token>>, k: nat, trailingNewline: bool)
    requires k <= |grid|
    requires forall r, j :: 0 <= r < |grid| && 0 <= j < |grid[r]| ==> grid[r][j].Cell?
    ensures CountNewlines(Lines(grid, k, trailingNewline)) ==
            if k == |grid| && k > 0 && !trailingNewline then k - 1 else k
  {
    if k > 0 {
      LinesNewlines(grid, k - 1, trailingNewline);
      var row := grid[k - 1];
      CellsHoldNoNewline(row);
      var nl: seq<Token> := if k < |grid| || trailingNewline then [Newline] else [];
      CountNewlinesAppend(Lines(grid, k - 1, trailingNewline), row);
      CountNewlinesAppend(Lines(grid, k - 1, trailingNewline) + row, nl);
    }
  }

  /** For at least one item the display is not empty, holds one newline
      fewer than it has rows, and ends with a cell: no newline follows the
      last row. */
  lemma LayoutEndsWithCell(widths: seq<nat>, maxLineLength: nat, o: Orientation)
    requires widths != []
    ensures var cfg := Search(widths, maxLineLength, o).value;
            var out := Layout(widths, maxLineLength, o);
            && CountNewlines(out) == RowCount(|widths|, cfg.numColumns) - 1
            && out != [] && out[|out| - 1].Cell?
  {
    var cfg := Search(widths, maxLineLength, o).value;
    var g := Grid(o, |widths|, cfg);
    assert |g| == RowCount(|widths|, cfg.numColumns) >= 1;
    GridHoldsOnlyCells(o, |widths|, cfg);
    RowsArePopulated(o, |widths|, cfg, |g| - 1);
    JoinEndsWithCell(g);
  }

  /** Rows of cells, the last one not empty, joined without a trailing
      newline: one newline fewer than rows, and a cell at the end. */
  lemma JoinEndsWithCell(g: seq<seq<Token>>)
    requires |g| >= 1 && |g[|g| - 1]| >= 1
    requires forall r, j :: 0 <= r < |g| && 0 <= j < |g[r]| ==> g[r][j].Cell?
    ensures CountNewlines(Join(g, false)) == |g| - 1
    ensures Join(g, false) != [] && Join(g, false)[|Join(g, false)| - 1].Cell?
  {
    var k := |g|;
    LinesNewlines(g, k, false);
    var last := g[k - 1];
    assert Lines(g, k, false) == Lines(g, k - 1, false) + last;
    assert last[|last| - 1].Cell?;
  }

  /** A trailing newline is the only difference between the two ways of
      joining rows. */
  lemma {:induction false} LinesTrailing(grid: seq<seq<Token>>, k: nat)
    requires k <= |grid|
    ensures Lines(grid, k, true) ==
            Lines(grid, k, false) + if k == |grid| && k > 0 then [Newline] else []
  {
    if k > 0 {
      LinesTrailing(grid, k - 1);
    }
  }
}
