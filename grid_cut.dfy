/**
 * The grid-cut geometry shared by `ImageProcessor.crop_to_grid` and the older
 * `crop_image_to_emojis`: an image of `width` x `height` pixels is split into
 * `cols` x `rows` cells of `width // cols` x `height // rows` pixels, each cell
 * is inset by `2 * padding` pixels on every side, the rectangle is clamped to
 * the image, and one tile named `emoji_{row}_{col}.png` is produced per cell,
 * row by row. Decoding, cropping, resampling and encoding the bitmap are done
 * by an image library and are not modelled; a tile records the rectangle that
 * is handed to it, the side length it is resampled to and the path it is saved to.
 */
module GridCut {
  import opened Results
  import opened Text

  /** A grid choice `(cols, rows)`, as parsed from a button: any two ints. */
  datatype Grid = Grid(cols: int, rows: int)

  /**
   * The arguments of one crop: the output folder, the image's size (the only
   * part of the bitmap the geometry looks at), the grid, the padding level and
   * the side length every tile is resampled to.
   */
  datatype Cut = Cut(folder: string, width: nat, height: nat, grid: Grid, padding: int, size: int) {
    predicate Positive() { grid.cols > 0 && grid.rows > 0 }
    function CellWidth(): nat requires Positive() { width / grid.cols }
    function CellHeight(): nat requires Positive() { height / grid.rows }
    function PaddingPixels(): int { padding * 2 }
  }

  datatype Tile = Tile(
    row: nat, col: nat,
    left: int, top: int, right: int, bottom: int,
    size: int,
    filename: string, path: string)

  /** Python's ZeroDivisionError, raised by `img_width // cols` when `cols == 0` and by `width / height` when `height == 0`. */
  datatype DivisionError = ZeroDivision

  function Max(a: int, b: int): int { if a >= b then a else b }
  function Min(a: int, b: int): int { if a <= b then a else b }

  function FileName(row: nat, col: nat): string {
    "emoji_" + (IntToString(row) + ("_" + (IntToString(col) + ".png")))
  }

  /** The tile of cell (`row`, `col`): the cell inset by `2 * padding`, clamped to the image. */
  function TileAt(c: Cut, row: nat, col: nat): (t: Tile)
    requires c.Positive()
    ensures 0 <= t.left && 0 <= t.top && t.right <= c.width && t.bottom <= c.height
    ensures t.row == row && t.col == col && t.size == c.size
  {
    var cw, ch, pp := c.CellWidth(), c.CellHeight(), c.PaddingPixels();
    Tile(row, col,
         Max(0, col * cw + pp),
         Max(0, row * ch + pp),
         Min(c.width, (col + 1) * cw - pp),
         Min(c.height, (row + 1) * ch - pp),
         c.size, FileName(row, col), PathJoin(c.folder, FileName(row, col)))
  }

  /** Cells 0 .. n-1 of row `row`, left to right. */
  function RowTiles(c: Cut, row: nat, n: nat): (tiles: seq<Tile>)
    requires c.Positive()
    ensures |tiles| == n
  {
    seq(n, j requires 0 <= j < n => TileAt(c, row, j))
  }

  /** Rows 0 .. m-1, top to bottom, each row left to right. */
  function GridRows(c: Cut, m: nat): seq<Tile>
    requires c.Positive()
    decreases m
  {
    if m == 0 then [] else GridRows(c, m - 1) + RowTiles(c, m - 1, c.grid.cols)
  }

  /**
   * The tiles in the order they are produced: row-major. A grid with a
   * negative side gives none (Python's `range` of a negative number is empty).
   */
  function Tiles(c: Cut): seq<Tile> {
    if c.Positive() then GridRows(c, c.grid.rows) else []
  }

  function Paths(tiles: seq<Tile>): (paths: seq<string>)
    ensures |paths| == |tiles| && forall i :: 0 <= i < |tiles| ==> paths[i] == tiles[i].path
  {
    seq(|tiles|, i requires 0 <= i < |tiles| => tiles[i].path)
  }

  /**
   * The crop loop of `crop_to_grid` / `crop_image_to_emojis`: `cols == 0` or
   * `rows == 0` raises ZeroDivisionError at the cell-size division; otherwise
   * the nested loops append one tile per cell.
   */
  method CutGrid(c: Cut) returns (r: Result<seq<Tile>, DivisionError>)
    ensures r.Failure? <==> c.grid.cols == 0 || c.grid.rows == 0
    ensures r.Success? ==> r.value == Tiles(c)
  {
    var cols, rows := c.grid.cols, c.grid.rows;
    if cols == 0 || rows == 0 {
      return Failure(ZeroDivision);
    }
    var cellWidth := FloorDiv(c.width, cols);
    var cellHeight := FloorDiv(c.height, rows);
    var paddingPixels := c.padding * 2;
    assert c.Positive() ==> cellWidth == c.CellWidth() && cellHeight == c.CellHeight();
    var cropped: seq<Tile> := [];
    var row := 0;
    while row < rows
      invariant 0 <= row
      invariant c.Positive() ==> row <= rows && cropped == GridRows(c, row)
      invariant !c.Positive() ==> cropped == []
    {
      var col := 0;
      while col < cols
        invariant 0 <= col
        invariant c.Positive() ==> col <= cols && cropped == GridRows(c, row) + RowTiles(c, row, col)
        invariant !c.Positive() ==> cropped == []
      {
        var left := col * cellWidth + paddingPixels;
        var top := row * cellHeight + paddingPixels;
        var right := (col + 1) * cellWidth - paddingPixels;
        var bottom := (row + 1) * cellHeight - paddingPixels;
        left := Max(0, left);
        top := Max(0, top);
        right := Min(c.width, right);
        bottom := Min(c.height, bottom);
        var filename := FileName(row, col);
        var tile := Tile(row, col, left, top, right, bottom, c.size, filename, PathJoin(c.folder, filename));
        assert tile == TileAt(c, row, col);
        assert RowTiles(c, row, col + 1) == RowTiles(c, row, col) + [tile];
        assert (GridRows(c, row) + RowTiles(c, row, col)) + [tile] == GridRows(c, row) + RowTiles(c, row, col + 1);
        cropped := cropped + [tile];
        col := col + 1;
      }
      row := row + 1;
    }
    r := Success(cropped);
  }

  lemma MulLe(a: int, b: int, k: int)
    requires a <= b && k >= 0
    ensures a * k <= b * k
  {
    assert b * k - a * k == (b - a) * k;
  }

  lemma {:induction false} GridRowsLength(c: Cut, m: nat)
    requires c.Positive()
    ensures |GridRows(c, m)| == m * c.grid.cols
    decreases m
  {
    if m > 0 {
      GridRowsLength(c, m - 1);
      assert (m - 1) * c.grid.cols + c.grid.cols == m * c.grid.cols;
    }
  }

  /** Fewer rows are a prefix of more rows. */
  lemma {:induction false} GridRowsPrefix(c: Cut, k: nat, m: nat)
    requires c.Positive() && k <= m
    ensures GridRows(c, k) <= GridRows(c, m)
    decreases m
  {
    if k < m {
      GridRowsPrefix(c, k, m - 1);
      assert GridRows(c, m) == GridRows(c, m - 1) + RowTiles(c, m - 1, c.grid.cols);
    }
  }

  /** Cell (`row`, `col`) sits `col` places after the rows above it. */
  lemma GridRowsAt(c: Cut, m: nat, row: nat, col: nat)
    requires c.Positive() && row < m && col < c.grid.cols
    ensures |GridRows(c, row)| + col < |GridRows(c, m)|
    ensures GridRows(c, m)[|GridRows(c, row)| + col] == TileAt(c, row, col)
  {
    GridRowsPrefix(c, row + 1, m);
    var upTo := GridRows(c, row + 1);
    assert upTo == GridRows(c, row) + RowTiles(c, row, c.grid.cols);
    assert upTo[|GridRows(c, row)| + col] == TileAt(c, row, col);
  }

  lemma {:induction false} GridRowsEntry(c: Cut, m: nat, i: nat)
    requires c.Positive() && i < |GridRows(c, m)|
    ensures var t := GridRows(c, m)[i];
      t.row < m && t.col < c.grid.cols && t.row * c.grid.cols + t.col == i && t == TileAt(c, t.row, t.col)
    decreases m
  {
    var cols := c.grid.cols;
    var prev, last := GridRows(c, m - 1), RowTiles(c, m - 1, cols);
    assert GridRows(c, m) == prev + last;
    GridRowsLength(c, m - 1);
    GridRowsLength(c, m);
    if i < |prev| {
      GridRowsEntry(c, m - 1, i);
    } else {
      var base := (m - 1) * cols;
      assert |prev| == base;
      var col := i - base;
      assert m * cols == base + cols;
      assert col < cols;
      assert GridRows(c, m)[i] == last[col] == TileAt(c, m - 1, col);
    }
  }

  /** `crop_to_grid` yields exactly `cols * rows` tiles (none for a negative side). */
  lemma TilesCount(c: Cut)
    ensures |Tiles(c)| == if c.Positive() then c.grid.cols * c.grid.rows else 0
  {
    if c.Positive() {
      GridRowsLength(c, c.grid.rows);
      assert c.grid.rows * c.grid.cols == c.grid.cols * c.grid.rows;
    }
  }

  /** Row-major order: the tile at index `row * cols + col` is cell (`row`, `col`), named `emoji_{row}_{col}.png`. */
  lemma TilesRowMajor(c: Cut, row: nat, col: nat)
    requires row < c.grid.rows && col < c.grid.cols
    ensures c.Positive()
    ensures var tiles, i := Tiles(c), row * c.grid.cols + col;
      0 <= i < |tiles| && tiles[i] == TileAt(c, row, col) && tiles[i].filename == FileName(row, col)
  {
    assert c.Positive();
    var tiles := GridRows(c, c.grid.rows);
    GridRowsAt(c, c.grid.rows, row, col);
    GridRowsLength(c, row);
    assert Tiles(c) == tiles;
  }

  /** Every tile is the tile of the cell it names, and its index is `row * cols + col`. */
  lemma TilesAreCells(c: Cut, i: nat)
    requires i < |Tiles(c)|
    ensures c.Positive()
    ensures var t := Tiles(c)[i];
      t.row < c.grid.rows && t.col < c.grid.cols && i == t.row * c.grid.cols + t.col && t == TileAt(c, t.row, t.col)
  {
    GridRowsEntry(c, c.grid.rows, i);
  }

  /** After clamping every rectangle lies inside the image. */
  lemma TilesWithinImage(c: Cut, t: Tile)
    requires t in Tiles(c)
    ensures 0 <= t.left && 0 <= t.top && t.right <= c.width && t.bottom <= c.height
  {
    var i :| 0 <= i < |Tiles(c)| && Tiles(c)[i] == t;
    TilesAreCells(c, i);
  }

  lemma FileNameInjective(r1: nat, c1: nat, r2: nat, c2: nat)
    requires FileName(r1, c1) == FileName(r2, c2)
    ensures r1 == r2 && c1 == c2
  {
    var b1, b2 := IntToString(c1) + ".png", IntToString(c2) + ".png";
    var x1, x2 := IntToString(r1) + ("_" + b1), IntToString(r2) + ("_" + b2);
    assert x1 == FileName(r1, c1)[6..] && x2 == FileName(r2, c2)[6..];
    NumeralThenUnderscore(r1, r2, b1, b2);
    assert IntToString(c1) == b1[..|b1| - 4] && IntToString(c2) == b2[..|b2| - 4];
    IntToStringInjective(c1, c2);
  }

  /** No two tiles share a file name or an output path, so no tile overwrites another. */
  lemma TilesDistinctPaths(c: Cut, i: nat, j: nat)
    requires i < j < |Tiles(c)|
    ensures Tiles(c)[i].filename != Tiles(c)[j].filename
    ensures Tiles(c)[i].path != Tiles(c)[j].path
  {
    var a, b := Tiles(c)[i], Tiles(c)[j];
    TilesAreCells(c, i);
    TilesAreCells(c, j);
    if a.filename == b.filename {
      FileNameInjective(a.row, a.col, b.row, b.col);
    }
    if a.path == b.path {
      PathJoinInjective(c.folder, a.filename, b.filename);
      FileNameInjective(a.row, a.col, b.row, b.col);
    }
  }

  /** A cell `k` of `n` cells of width `w` that fit in `total`, inset by `pp >= 0`, needs no clamping. */
  lemma InsetSpan(k: int, n: int, w: int, total: int, pp: int)
    requires 0 <= k < n && w >= 0 && n * w <= total && pp >= 0
    ensures 0 <= k * w + pp && (k + 1) * w - pp <= n * w <= total
  {
    MulLe(0, k, w);
    MulLe(k + 1, n, w);
  }

  /** Cell `x` ends, after insetting by `pp >= 0`, before the inset cell `y > x` begins. */
  lemma InsetApart(x: int, y: int, w: int, pp: int)
    requires x < y && w >= 0 && pp >= 0
    ensures (x + 1) * w - pp <= y * w + pp
  {
    MulLe(x + 1, y, w);
  }

  /** For padding >= 0 the horizontal clamps never change a value. */
  lemma TileSpanX(c: Cut, row: nat, col: nat)
    requires c.padding >= 0 && row < c.grid.rows && col < c.grid.cols
    ensures TileAt(c, row, col).left == col * c.CellWidth() + c.PaddingPixels()
    ensures TileAt(c, row, col).right == (col + 1) * c.CellWidth() - c.PaddingPixels()
    ensures TileAt(c, row, col).right <= c.grid.cols * c.CellWidth()
  {
    var cw := c.CellWidth();
    assert cw >= 0 && c.grid.cols * cw <= c.width;
    InsetSpan(col, c.grid.cols, cw, c.width, c.PaddingPixels());
  }

  /** For padding >= 0 the vertical clamps never change a value. */
  lemma TileSpanY(c: Cut, row: nat, col: nat)
    requires c.padding >= 0 && row < c.grid.rows && col < c.grid.cols
    ensures TileAt(c, row, col).top == row * c.CellHeight() + c.PaddingPixels()
    ensures TileAt(c, row, col).bottom == (row + 1) * c.CellHeight() - c.PaddingPixels()
    ensures TileAt(c, row, col).bottom <= c.grid.rows * c.CellHeight()
  {
    var ch := c.CellHeight();
    assert ch >= 0 && c.grid.rows * ch <= c.height;
    InsetSpan(row, c.grid.rows, ch, c.height, c.PaddingPixels());
  }

  /**
   * For padding >= 0 the clamps never change a value: the rectangle is exactly
   * the cell inset by `2 * padding` pixels on each side.
   */
  lemma TileIsInsetCell(c: Cut, row: nat, col: nat)
    requires c.padding >= 0 && row < c.grid.rows && col < c.grid.cols
    ensures var t, cw, ch, pp := TileAt(c, row, col), c.CellWidth(), c.CellHeight(), c.PaddingPixels();
      t.left == col * cw + pp && t.right == (col + 1) * cw - pp &&
      t.top == row * ch + pp && t.bottom == (row + 1) * ch - pp
  {
    TileSpanX(c, row, col);
    TileSpanY(c, row, col);
  }

  /**
   * For padding >= 0 a region is non-empty exactly when the cell is wider and
   * taller than twice the padding in pixels; otherwise `right <= left` or
   * `bottom <= top`, and that rectangle goes to the image library unguarded.
   */
  lemma TileNonEmptyIff(c: Cut, row: nat, col: nat)
    requires c.padding >= 0 && row < c.grid.rows && col < c.grid.cols
    ensures var t := TileAt(c, row, col);
      (t.left < t.right && t.top < t.bottom) <==>
      (c.CellWidth() > 2 * c.PaddingPixels() && c.CellHeight() > 2 * c.PaddingPixels())
  {
    TileSpanX(c, row, col);
    TileSpanY(c, row, col);
  }

  /**
   * For padding >= 0 no tile reaches column `cols * (width // cols)` or row
   * `rows * (height // rows)`: the pixels of the division remainder are dropped.
   */
  lemma RemainderDropped(c: Cut, i: nat)
    requires c.padding >= 0 && i < |Tiles(c)|
    ensures c.Positive()
    ensures Tiles(c)[i].right <= c.grid.cols * c.CellWidth() && Tiles(c)[i].bottom <= c.grid.rows * c.CellHeight()
  {
    TilesAreCells(c, i);
    TileSpanX(c, Tiles(c)[i].row, Tiles(c)[i].col);
    TileSpanY(c, Tiles(c)[i].row, Tiles(c)[i].col);
  }

  /** Two different cells' tiles do not overlap when padding >= 0. */
  lemma CellsDisjoint(c: Cut, r1: nat, c1: nat, r2: nat, c2: nat)
    requires c.padding >= 0 && r1 < c.grid.rows && c1 < c.grid.cols && r2 < c.grid.rows && c2 < c.grid.cols
    requires r1 != r2 || c1 != c2
    ensures var a, b := TileAt(c, r1, c1), TileAt(c, r2, c2);
      a.right <= b.left || b.right <= a.left || a.bottom <= b.top || b.bottom <= a.top
  {
    var pp := c.PaddingPixels();
    if c1 != c2 {
      var lo, hi := if c1 < c2 then c1 else c2, if c1 < c2 then c2 else c1;
      InsetApart(lo, hi, c.CellWidth(), pp);
      TileSpanX(c, r1, c1);
      TileSpanX(c, r2, c2);
    } else {
      var lo, hi := if r1 < r2 then r1 else r2, if r1 < r2 then r2 else r1;
      InsetApart(lo, hi, c.CellHeight(), pp);
      TileSpanY(c, r1, c1);
      TileSpanY(c, r2, c2);
    }
  }

  /** For padding >= 0 two different tiles never overlap. */
  lemma TilesDisjoint(c: Cut, i: nat, j: nat)
    requires c.padding >= 0 && i < |Tiles(c)| && j < |Tiles(c)| && i != j
    ensures var a, b := Tiles(c)[i], Tiles(c)[j];
      a.right <= b.left || b.right <= a.left || a.bottom <= b.top || b.bottom <= a.top
  {
    var a, b := Tiles(c)[i], Tiles(c)[j];
    TilesAreCells(c, i);
    TilesAreCells(c, j);
    CellsDisjoint(c, a.row, a.col, b.row, b.col);
  }
}
