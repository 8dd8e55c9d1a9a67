/**
 * The tile grid (tile/TileManager.java): `mapTileNum[col][row]` filled from
 * the map file one line per row, and drawn in row-major order.
 */
module TileMaps {
  import opened Wrappers
  import opened JavaInt
  import opened JavaString
  import opened Tiles

  /**
   * The map file after line reading and `split(" ")`: one sequence of
   * tokens per line.
   */
  type MapFile = seq<seq<string>>

  /** Whether loadMap can store token `col` of line `row`: the line exists, has that token, and it is an int. */
  predicate CellOk(lines: MapFile, col: nat, row: nat) {
    row < |lines| && col < |lines[row]| && ParseInt(lines[row][col]).Some?
  }

  /** Cell (c, r) comes strictly before (col, row) in loadMap's row-by-row order. */
  predicate Before(c: int, r: int, col: int, row: int) {
    r < row || (r == row && c < col)
  }

  /**
   * The cell at which loadMap stops, scanning from (col, row) on: the first
   * cell it cannot store, or (0, rows) when it reaches the end of the grid.
   */
  function FirstFailure(lines: MapFile, cols: nat, rows: nat, col: nat, row: nat): (stop: (nat, nat))
    requires col < cols || col == 0
    requires row <= rows && (row == rows ==> col == 0)
    decreases rows - row, cols - col
    ensures !Before(stop.0, stop.1, col, row)
    ensures stop.1 <= rows && (stop.1 < rows ==> stop.0 < cols) && (stop.1 == rows ==> stop.0 == 0)
    ensures stop.1 < rows ==> !CellOk(lines, stop.0, stop.1)
  {
    if row == rows || cols == 0 then (0, rows)
    else if !CellOk(lines, col, row) then (col, row)
    else if col + 1 < cols then FirstFailure(lines, cols, rows, col + 1, row)
    else FirstFailure(lines, cols, rows, 0, row + 1)
  }

  /** The contents loadMap leaves in cell (c, r), given the cell's contents before. */
  function Loaded(lines: MapFile, cols: nat, rows: nat, c: nat, r: nat, before: int): int {
    var stop := FirstFailure(lines, cols, rows, 0, 0);
    if Before(c, r, stop.0, stop.1) && CellOk(lines, c, r) then ParseInt(lines[r][c]).value else before
  }

  /** Every cell from (col, row) up to the stop cell can be stored: the stop is the first failure. */
  lemma {:induction false} StopIsFirst(lines: MapFile, cols: nat, rows: nat, col: nat, row: nat)
    requires col < cols || col == 0
    requires row <= rows && (row == rows ==> col == 0)
    decreases rows - row, cols - col
    ensures var stop := FirstFailure(lines, cols, rows, col, row);
      forall c, r | 0 <= c < cols && 0 <= r < rows && !Before(c, r, col, row) && Before(c, r, stop.0, stop.1) ::
        CellOk(lines, c, r)
  {
    if row == rows || cols == 0 {
    } else if !CellOk(lines, col, row) {
    } else if col + 1 < cols {
      StopIsFirst(lines, cols, rows, col + 1, row);
    } else {
      StopIsFirst(lines, cols, rows, 0, row + 1);
    }
  }

  /** When every cell from (col, row) on can be stored, loadMap runs to the end of the grid. */
  lemma {:induction false} NoFailureRunsToEnd(lines: MapFile, cols: nat, rows: nat, col: nat, row: nat)
    requires col < cols || col == 0
    requires row <= rows && (row == rows ==> col == 0)
    requires forall c, r | 0 <= c < cols && 0 <= r < rows && !Before(c, r, col, row) :: CellOk(lines, c, r)
    decreases rows - row, cols - col
    ensures FirstFailure(lines, cols, rows, col, row) == (0, rows)
  {
    if row == rows || cols == 0 {
    } else if col + 1 < cols {
      NoFailureRunsToEnd(lines, cols, rows, col + 1, row);
    } else {
      NoFailureRunsToEnd(lines, cols, rows, 0, row + 1);
    }
  }

  /**
   * The stop cell is characterised by what lies before it: if every cell from
   * (col, row) up to `at` can be stored and `at` cannot (or is the end of the
   * grid), loadMap stops at `at`.
   */
  lemma {:induction false} StopsAt(lines: MapFile, cols: nat, rows: nat, col: nat, row: nat, at: (nat, nat))
    requires col < cols || col == 0
    requires row <= rows && (row == rows ==> col == 0)
    requires !Before(at.0, at.1, col, row)
    requires (at.1 < rows && at.0 < cols && !CellOk(lines, at.0, at.1)) || at == (0, rows)
    requires forall c, r | 0 <= c < cols && 0 <= r < rows && !Before(c, r, col, row) && Before(c, r, at.0, at.1) ::
      CellOk(lines, c, r)
    decreases rows - row, cols - col
    ensures FirstFailure(lines, cols, rows, col, row) == at
  {
    if row == rows || cols == 0 {
    } else if (col, row) == at {
    } else if col + 1 < cols {
      StopsAt(lines, cols, rows, col + 1, row, at);
    } else {
      StopsAt(lines, cols, rows, 0, row + 1, at);
    }
  }

  /**
   * Grid-fill completeness: when every cell of the grid can be stored,
   * loadMap reaches the end and writes every cell with its token's value.
   */
  lemma FillComplete(lines: MapFile, cols: nat, rows: nat)
    requires forall c, r | 0 <= c < cols && 0 <= r < rows :: CellOk(lines, c, r)
    ensures FirstFailure(lines, cols, rows, 0, 0) == (0, rows)
    ensures forall c, r, before | 0 <= c < cols && 0 <= r < rows ::
      CellOk(lines, c, r) && Loaded(lines, cols, rows, c, r, before) == ParseInt(lines[r][c]).value
  {
    NoFailureRunsToEnd(lines, cols, rows, 0, 0);
  }

  /** Two map files that agree on which cells of the grid can be stored, and on their values. */
  predicate SameWindow(a: MapFile, b: MapFile, cols: nat, rows: nat) {
    forall c, r | 0 <= c < cols && 0 <= r < rows ::
      CellOk(a, c, r) == CellOk(b, c, r) && (CellOk(a, c, r) ==> ParseInt(a[r][c]) == ParseInt(b[r][c]))
  }

  lemma {:induction false} SameWindowSameStop(a: MapFile, b: MapFile, cols: nat, rows: nat, col: nat, row: nat)
    requires col < cols || col == 0
    requires row <= rows && (row == rows ==> col == 0)
    requires SameWindow(a, b, cols, rows)
    decreases rows - row, cols - col
    ensures FirstFailure(a, cols, rows, col, row) == FirstFailure(b, cols, rows, col, row)
  {
    if row == rows || cols == 0 {
    } else if !CellOk(a, col, row) {
      assert !CellOk(b, col, row);
    } else if col + 1 < cols {
      assert CellOk(b, col, row);
      SameWindowSameStop(a, b, cols, rows, col + 1, row);
    } else {
      assert CellOk(b, col, row);
      SameWindowSameStop(a, b, cols, rows, 0, row + 1);
    }
  }

  /**
   * Tokens past the last column and lines past the last row are never
   * looked at: two map files that agree inside the grid load identically.
   */
  lemma OnlyWindowMatters(a: MapFile, b: MapFile, cols: nat, rows: nat)
    requires SameWindow(a, b, cols, rows)
    ensures forall c, r, before | 0 <= c < cols && 0 <= r < rows ::
      Loaded(a, cols, rows, c, r, before) == Loaded(b, cols, rows, c, r, before)
  {
    SameWindowSameStop(a, b, cols, rows, 0, 0);
  }

  /** n * t as repeated addition, the way draw accumulates its pixel positions. */
  function Times(n: nat, t: int): int {
    if n == 0 then 0 else Times(n - 1, t) + t
  }

  lemma {:induction false} TimesIsProduct(n: nat, t: int)
    ensures Times(n, t) == n * t
  {
    if n > 0 {
      TimesIsProduct(n - 1, t);
    }
  }

  /**
   * The k-th cell visited, k = row * cols + col, lies in the grid and sits at
   * column k % cols and row k / cols.
   */
  lemma NextCall(k: int, cols: nat, rows: nat, row: nat, col: nat, tileSize: int)
    requires col < cols && row < rows && k == Times(row, cols) + col
    ensures 0 <= k < cols * rows && k % cols == col && k / cols == row
    ensures Times(col, tileSize) == col * tileSize && Times(row, tileSize) == row * tileSize
  {
    TimesIsProduct(row, cols);
    TimesIsProduct(col, tileSize);
    TimesIsProduct(row, tileSize);
    DivModUnique(k, cols, row, col);
    RowFits(cols, rows, row);
  }

  lemma RowFits(cols: nat, rows: nat, row: nat)
    requires row < rows
    ensures row * cols + cols <= cols * rows
  {
    var spare := rows - row - 1;
    assert cols * rows == row * cols + cols + spare * cols;
    assert spare * cols >= 0;
  }

  /** One drawImage call: the tile image and the pixel position of the cell's corner. */
  datatype DrawCall = DrawCall(image: Option<string>, x: int, y: int)

  class TileManager {
    const cols: nat
    const rows: nat
    const tileSize: int
    /** Indexed [col, row], as `new int[MAX_SCREEN_COL][MAX_SCREEN_ROW]`. */
    const mapTileNum: array2<int>
    var tileMap: map<int, Tile>

    ghost predicate Valid()
      reads this
    {
      mapTileNum.Length0 == cols && mapTileNum.Length1 == rows
    }

    /**
     * The constructor: a zeroed grid, the tile types loaded by TileLoader,
     * then loadMap.
     */
    constructor (cols: nat, rows: nat, tileSize: int, tiles: map<int, Tile>, mapFile: Option<MapFile>)
      ensures Valid() && this.cols == cols && this.rows == rows && this.tileSize == tileSize && tileMap == tiles
      ensures fresh(mapTileNum)
      ensures forall c, r | 0 <= c < cols && 0 <= r < rows ::
        mapTileNum[c, r] == if mapFile.None? then 0 else Loaded(mapFile.value, cols, rows, c, r, 0)
    {
      this.cols := cols;
      this.rows := rows;
      this.tileSize := tileSize;
      mapTileNum := new int[cols, rows]((c, r) => 0);
      tileMap := tiles;
      new;
      LoadMap(mapFile);
    }

    /**
     * loadMap: store the tokens cell by cell, row by row; stop silently at
     * the first line that is missing or too short or token that is not an
     * int, keeping what was stored so far. `mapFile` is None when the
     * resource cannot be opened, and then nothing changes.
     */
    method LoadMap(mapFile: Option<MapFile>)
      requires Valid()
      modifies mapTileNum
      ensures forall c, r | 0 <= c < cols && 0 <= r < rows ::
        mapTileNum[c, r] == if mapFile.None? then old(mapTileNum[c, r]) else Loaded(mapFile.value, cols, rows, c, r, old(mapTileNum[c, r]))
    {
      if mapFile.None? {
        return;
      }
      var lines := mapFile.value;
      var col, row := 0, 0;
      while col < cols && row < rows
        invariant 0 <= col <= cols && 0 <= row <= rows && (cols > 0 ==> col < cols)
        invariant (col < cols || cols == 0) && (row == rows ==> col == 0)
        invariant forall c, r | 0 <= c < cols && 0 <= r < rows && Before(c, r, col, row) ::
          CellOk(lines, c, r) && mapTileNum[c, r] == ParseInt(lines[r][c]).value
        invariant forall c, r | 0 <= c < cols && 0 <= r < rows && !Before(c, r, col, row) ::
          mapTileNum[c, r] == old(mapTileNum[c, r])
        decreases rows - row
      {
        var line: Option<seq<string>> := if row < |lines| then Some(lines[row]) else None;
        while col < cols
          invariant 0 <= col <= cols
          invariant line == if row < |lines| then Some(lines[row]) else None
          invariant forall c, r | 0 <= c < cols && 0 <= r < rows && Before(c, r, col, row) ::
            CellOk(lines, c, r) && mapTileNum[c, r] == ParseInt(lines[r][c]).value
          invariant forall c, r | 0 <= c < cols && 0 <= r < rows && !Before(c, r, col, row) ::
            mapTileNum[c, r] == old(mapTileNum[c, r])
        {
          if line.None? || col >= |line.value| {
            // readLine returned null, or the line has no token `col`: the exception is swallowed
            StopsAt(lines, cols, rows, 0, 0, (col, row));
            return;
          }
          var number := ParseInt(line.value[col]);
          if number.None? {
            StopsAt(lines, cols, rows, 0, 0, (col, row));
            return;
          }
          mapTileNum[col, row] := number.value;
          col := col + 1;
        }
        if col == cols {
          col := 0;
          row := row + 1;
        }
      }
      StopsAt(lines, cols, rows, 0, 0, (0, rows));
    }

    /** The call draw makes for the k-th cell in row-major order. */
    function CallAt(k: int): (call: DrawCall)
      reads this, mapTileNum
      requires Valid() && 0 <= k < cols * rows
      requires forall c, r | 0 <= c < cols && 0 <= r < rows :: mapTileNum[c, r] in tileMap
    {
      DivBelow(k, cols, rows);
      DrawCall(tileMap[mapTileNum[k % cols, k / cols]].image, (k % cols) * tileSize, (k / cols) * tileSize)
    }

    /**
     * draw: every cell exactly once, row by row; the k-th call draws cell
     * (k % cols, k / cols) at pixel (col * tileSize, row * tileSize).
     */
    method Draw() returns (calls: seq<DrawCall>)
      requires Valid()
      requires IsInt(cols * tileSize) && IsInt(rows * tileSize)
      requires forall c, r | 0 <= c < cols && 0 <= r < rows :: mapTileNum[c, r] in tileMap
      ensures |calls| == cols * rows
      ensures forall k | 0 <= k < |calls| :: calls[k] == CallAt(k)
    {
      var col, row, x, y := 0, 0, 0, 0;
      calls := [];
      while col < cols && row < rows
        invariant 0 <= col <= cols && 0 <= row <= rows && (col < cols || cols == 0)
        invariant row == rows ==> col == 0
        invariant x == Times(col, tileSize) && y == Times(row, tileSize)
        invariant |calls| == Times(row, cols) + col && |calls| <= cols * rows
        invariant forall k | 0 <= k < |calls| :: calls[k] == CallAt(k)
        decreases rows - row, cols - col
      {
        var tileNum := mapTileNum[col, row];
        var img := tileMap[tileNum].image;
        NextCall(|calls|, cols, rows, row, col, tileSize);
        calls := calls + [DrawCall(img, x, y)];
        col := col + 1;
        x := x + tileSize;
        if col == cols {
          col := 0;
          x := 0;
          row := row + 1;
          y := y + tileSize;
        }
      }
      TimesIsProduct(rows, cols);
    }
  }
}
