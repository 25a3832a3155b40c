/** getVerticies: classify one cell of the boolean grid and turn its table
    entry into window segments. The cell in column x and row y has its
    top-left corner at grid[y][x]; the grid is read-only here. */
module CellLines {
  import opened Geometry
  import opened CornerCode
  import opened CaseTable

  /** The grid as the program holds it: a vector of rows of flags. */
  type Grid = seq<seq<bool>>

  /** Every read getVerticies makes for cell (x, y) is in bounds. */
  predicate HasCell(grid: Grid, x: nat, y: nat)
  {
    y + 1 < |grid| && x + 1 < |grid[y]| && x + 1 < |grid[y + 1]|
  }

  /** The configuration code of cell (x, y) as written: a 4-bit value whose
      bits, from the highest, are grid[y][x], grid[y+1][x], grid[y+1][x+1]
      and grid[y][x+1]. */
  function Code(grid: Grid, x: nat, y: nat): (k: nat)
    requires HasCell(grid, x, y)
    ensures k < 16
    ensures grid[y][x] <==> k / 8 == 1
    ensures grid[y + 1][x] <==> k / 4 % 2 == 1
    ensures grid[y + 1][x + 1] <==> k / 2 % 2 == 1
    ensures grid[y][x + 1] <==> k % 2 == 1
  {
    Encode(CornersRead(grid, x, y))
  }

  /** All four corners hold the same flag. */
  predicate Uniform(c: Corners)
  {
    c.topLeft == c.topRight == c.bottomRight == c.bottomLeft
  }

  /** Diagonal corners agree and neighbouring ones do not. */
  predicate Saddle(c: Corners)
  {
    c.topLeft == c.bottomRight && c.topRight == c.bottomLeft && c.topLeft != c.topRight
  }

  /** The segments of cell (x, y): segment k is the line of table entry k at
      the cell's origin, in push order. */
  function GetVertices(grid: Grid, x: nat, y: nat, length: nat): (r: seq<Line>)
    requires HasCell(grid, x, y)
    ensures |r| == |Table(Code(grid, x, y))| <= 2
    ensures forall k :: 0 <= k < |r| ==> r[k] == GetLine(CellOrigin(x, y, length), length, Table(Code(grid, x, y))[k])
  {
    var states := Table(Code(grid, x, y));
    var origin := CellOrigin(x, y, length);
    if |states| == 0 then []
    else if |states| == 1 then [GetLine(origin, length, states[0])]
    else [GetLine(origin, length, states[0]), GetLine(origin, length, states[1])]
  }

  /** Every vertex of a cell's segments lies in the closed cell square. */
  lemma {:induction false} GetVerticesInCell(grid: Grid, x: nat, y: nat, length: nat)
    requires HasCell(grid, x, y)
    ensures forall i :: 0 <= i < |GetVertices(grid, x, y, length)| ==>
              && InSquare(GetVertices(grid, x, y, length)[i].first.position, CellOrigin(x, y, length), length)
              && InSquare(GetVertices(grid, x, y, length)[i].second.position, CellOrigin(x, y, length), length)
  {
    var states := Table(Code(grid, x, y));
    forall i | 0 <= i < |states| {
      GetLineInSquare(CellOrigin(x, y, length), length, states[i]);
    }
  }

  /** A cell draws nothing exactly when the four corners read agree, and two
      segments exactly when they form a saddle. */
  lemma {:induction false} GetVerticesCount(grid: Grid, x: nat, y: nat, length: nat)
    requires HasCell(grid, x, y)
    ensures |GetVertices(grid, x, y, length)| == 0 <==> Uniform(CornersRead(grid, x, y))
    ensures |GetVertices(grid, x, y, length)| == 2 <==> Saddle(CornersRead(grid, x, y))
  {
    TableSize(Code(grid, x, y));
  }

  // ---------------------------------------------------------------------
  // The corner reads against the window layout. The cell's origin is
  // (x * length, y * length), so grid[y][x+1] is drawn at the top-right
  // corner and grid[y+1][x] at the bottom-left one, the reverse of the
  // names the program gives those reads.

  /** The corners of cell (x, y) by where they appear in the window. */
  function WindowCorners(grid: Grid, x: nat, y: nat): Corners
    requires HasCell(grid, x, y)
  {
    Corners(grid[y][x], grid[y][x + 1], grid[y + 1][x + 1], grid[y + 1][x])
  }

  /** The reflection of a cell across its top-left to bottom-right diagonal. */
  function Transpose(c: Corners): Corners
  {
    Corners(c.topLeft, c.bottomLeft, c.bottomRight, c.topRight)
  }

  /** The same reflection on sides: left and top swap, bottom and right swap. */
  function TransposeLabels(s: set<Label>): set<Label>
  {
    (if A in s then {D} else {}) + (if D in s then {A} else {})
    + (if B in s then {C} else {}) + (if C in s then {B} else {})
  }

  /** The corners as the program reads them: `topRight` comes from the next
      row, grid[y+1][x], and `bottomLeft` from the next column, grid[y][x+1].
      That is the window layout reflected across the cell's diagonal. */
  function CornersRead(grid: Grid, x: nat, y: nat): (c: Corners)
    requires HasCell(grid, x, y)
    ensures c == Transpose(WindowCorners(grid, x, y))
  {
    Corners(grid[y][x], grid[y + 1][x], grid[y + 1][x + 1], grid[y][x + 1])
  }

  /** As written, the segments of a cell touch the sides of the mirror image
      of the right contour: the sides the window corners call for, reflected
      across the cell's diagonal. */
  lemma {:induction false} AsWrittenDrawsTransposed(grid: Grid, x: nat, y: nat)
    requires HasCell(grid, x, y)
    ensures CornersRead(grid, x, y) == Transpose(WindowCorners(grid, x, y))
    ensures LabelsOf(Table(Code(grid, x, y))) == TransposeLabels(Crossed(WindowCorners(grid, x, y)))
  {
    DecodeEncode(CornersRead(grid, x, y));
    TableSeparatesNamedCorners(Code(grid, x, y));
  }

  /** A concrete cell that shows it: with only the top row of the cell on,
      the program computes code 9 and draws the vertical segment BD from
      b = (10, 20) to d = (10, 0), while the boundary crosses the left and
      right sides (a horizontal cut, code 12, segment AC). */
  lemma AsWrittenTopRowCounterexample()
    ensures var grid := [[true, true], [false, false]];
            && Code(grid, 0, 0) == 9
            && GetVertices(grid, 0, 0, 20) == [Line(Vertex(Vec2(10.0, 20.0), White), Vertex(Vec2(10.0, 0.0), White))]
            && LabelsOf(Table(Code(grid, 0, 0))) == {B, D}
            && Crossed(WindowCorners(grid, 0, 0)) == {A, C}
  {
    var grid := [[true, true], [false, false]];
    assert CornersRead(grid, 0, 0) == Corners(true, false, false, true);
    assert Code(grid, 0, 0) == 9;
  }

  /** The code with the corners read where their names say:
      topRight = grid[y][x+1], bottomLeft = grid[y+1][x]. Its bits are the
      window corners. */
  function IntendedCode(grid: Grid, x: nat, y: nat): (k: nat)
    requires HasCell(grid, x, y)
    ensures k < 16
    ensures grid[y][x] <==> k / 8 == 1
    ensures grid[y][x + 1] <==> k / 4 % 2 == 1
    ensures grid[y + 1][x + 1] <==> k / 2 % 2 == 1
    ensures grid[y + 1][x] <==> k % 2 == 1
  {
    Encode(WindowCorners(grid, x, y))
  }

  /** With the intended reads, every drawn segment separates the corners as
      they appear in the window: the segments touch exactly the sides whose
      two corners disagree. */
  lemma {:induction false} IntendedSegmentsSeparate(grid: Grid, x: nat, y: nat)
    requires HasCell(grid, x, y)
    ensures LabelsOf(Table(IntendedCode(grid, x, y))) == Crossed(WindowCorners(grid, x, y))
  {
    DecodeEncode(WindowCorners(grid, x, y));
    TableSeparatesNamedCorners(IntendedCode(grid, x, y));
  }
}
