/**
 * The lawn grid (src/components/LawnGrid.tsx): a pure rendering of the lawn
 * as `height` display rows of `width` cells.  Display row r shows model row
 * height-1-r, so the origin is drawn at the lower left.  A cell shows the
 * heading symbol of the first mower standing on it; otherwise it is shaded
 * when some path passes through it.
 */
module LawnGrid {
  import opened Types

  /** DIRECTION_SYMBOLS: N ↑, E →, S ↓, W ←. */
  function DirectionSymbol(d: Direction): (c: char)
    ensures c in "↑→↓←"
  {
    match d
    case N => '↑'
    case E => '→'
    case S => '↓'
    case W => '←'
  }

  lemma DirectionSymbolInjective(a: Direction, b: Direction)
    ensures DirectionSymbol(a) == DirectionSymbol(b) <==> a == b
  {
  }

  predicate StandsAt(m: MowerPosition, x: int, y: int) { m.x == x && m.y == y }

  /** `mowers.find(...)` from index `from` on: the index of the first mower at (x, y). */
  function FirstMowerAt(mowers: seq<MowerPosition>, x: int, y: int, from: nat): (r: Option<nat>)
    requires from <= |mowers|
    ensures r.None? <==> forall i :: from <= i < |mowers| ==> !StandsAt(mowers[i], x, y)
    ensures r.Some? ==> from <= r.value < |mowers| && StandsAt(mowers[r.value], x, y)
                        && forall j :: from <= j < r.value ==> !StandsAt(mowers[j], x, y)
    decreases |mowers| - from
  {
    if from == |mowers| then None
    else if StandsAt(mowers[from], x, y) then Some(from)
    else FirstMowerAt(mowers, x, y, from + 1)
  }

  /** `path.some(...)` from index `from` on. */
  function PathVisits(path: seq<Point>, x: int, y: int, from: nat): (r: bool)
    requires from <= |path|
    ensures r <==> exists j :: from <= j < |path| && path[j] == Point(x, y)
    decreases |path| - from
  {
    if from == |path| then false
    else path[from] == Point(x, y) || PathVisits(path, x, y, from + 1)
  }

  /** `paths.some(path => path.some(...))` from index `from` on. */
  function AnyPathVisits(paths: seq<seq<Point>>, x: int, y: int, from: nat): (r: bool)
    requires from <= |paths|
    ensures r <==> exists i :: from <= i < |paths| && Point(x, y) in paths[i]
    decreases |paths| - from
  {
    if from == |paths| then false
    else
      var here := PathVisits(paths[from], x, y, 0);
      assert here <==> Point(x, y) in paths[from];
      here || AnyPathVisits(paths, x, y, from + 1)
  }

  /** What a cell shows. */
  datatype CellKind = MowerCell(symbol: char) | PathCell | EmptyCell

  /** A rendered cell keeps its model coordinates: the click reports them. */
  datatype Cell = Cell(x: int, y: int, kind: CellKind)

  /** renderCell(x, y). */
  function RenderCell(mowers: seq<MowerPosition>, paths: seq<seq<Point>>, x: int, y: int): (c: Cell)
    ensures c.x == x && c.y == y
    ensures c.kind.MowerCell? <==> exists i :: 0 <= i < |mowers| && StandsAt(mowers[i], x, y)
    ensures c.kind.MowerCell? ==>
              exists i :: 0 <= i < |mowers| && StandsAt(mowers[i], x, y)
                          && (forall j :: 0 <= j < i ==> !StandsAt(mowers[j], x, y))
                          && c.kind.symbol == DirectionSymbol(mowers[i].direction)
    ensures c.kind.PathCell? <==>
              (forall i :: 0 <= i < |mowers| ==> !StandsAt(mowers[i], x, y))
              && exists i :: 0 <= i < |paths| && Point(x, y) in paths[i]
  {
    var mower := FirstMowerAt(mowers, x, y, 0);
    var onPath := AnyPathVisits(paths, x, y, 0);
    var kind :=
      if mower.Some? then MowerCell(DirectionSymbol(mowers[mower.value].direction))
      else if onPath then PathCell
      else EmptyCell;
    Cell(x, y, kind)
  }

  /** `Array.from({ length: n })` makes no element for a negative length. */
  function Extent(n: int): nat { if n < 0 then 0 else n }

  /** The model row shown on display row `row`: on the lawn exactly when the display row is. */
  function RowToY(height: int, row: int): (y: int)
    ensures 0 <= row < height <==> 0 <= y < height
  {
    height - 1 - row
  }

  lemma RowToYSelfInverse(height: int, row: int)
    ensures RowToY(height, RowToY(height, row)) == row
  {
  }

  /** The rendered grid: display row r, column c shows model cell (c, height-1-r). */
  function Render(dims: LawnDimensions, mowers: seq<MowerPosition>, paths: seq<seq<Point>>): (grid: seq<seq<Cell>>)
    ensures |grid| == Extent(dims.height)
    ensures forall r :: 0 <= r < |grid| ==> |grid[r]| == Extent(dims.width)
    ensures forall r, c :: 0 <= r < |grid| && 0 <= c < |grid[r]| ==>
              grid[r][c].x == c && grid[r][c].y == RowToY(dims.height, r)
              && grid[r][c] == RenderCell(mowers, paths, c, RowToY(dims.height, r))
  {
    seq(Extent(dims.height), r =>
      seq(Extent(dims.width), c => RenderCell(mowers, paths, c, RowToY(dims.height, r))))
  }

  /** Every rendered cell lies on the lawn. */
  lemma RenderedCellsOnLawn(dims: LawnDimensions, mowers: seq<MowerPosition>, paths: seq<seq<Point>>,
                            r: int, c: int)
    requires var grid := Render(dims, mowers, paths); 0 <= r < |grid| && 0 <= c < |grid[r]|
    ensures var cell := Render(dims, mowers, paths)[r][c];
            0 <= cell.x < dims.width && 0 <= cell.y < dims.height
  {
  }

  /** Every lawn cell is rendered, at display row height-1-y, column x, and nowhere else. */
  lemma EveryCellRenderedOnce(dims: LawnDimensions, mowers: seq<MowerPosition>, paths: seq<seq<Point>>,
                              x: int, y: int)
    requires 0 <= x < dims.width && 0 <= y < dims.height
    ensures var grid := Render(dims, mowers, paths);
            var row := RowToY(dims.height, y);
            0 <= row < |grid| && x < |grid[row]| && grid[row][x].x == x && grid[row][x].y == y
    ensures var grid := Render(dims, mowers, paths);
            forall r, c :: 0 <= r < |grid| && 0 <= c < |grid[r]| && grid[r][c].x == x && grid[r][c].y == y
                           ==> r == RowToY(dims.height, y) && c == x
  {
  }

  /**
   * onCellClick on display cell (r, c) reports the model point (c, height-1-r)
   * held by that cell, and that point lies on the lawn.
   */
  function ClickedPoint(dims: LawnDimensions, mowers: seq<MowerPosition>, paths: seq<seq<Point>>,
                        r: nat, c: nat): (p: Point)
    requires r < Extent(dims.height) && c < Extent(dims.width)
    ensures p == Point(c, dims.height - 1 - r)
    ensures 0 <= p.x < dims.width && 0 <= p.y < dims.height
  {
    var cell := Render(dims, mowers, paths)[r][c];
    Point(cell.x, cell.y)
  }
}
