/** The contour generator in `main`: sizing the grid from the window and the
    cell size, and the scan that clears the vertex buffer and appends the
    segments of every cell, row by row. */
module ContourScan {
  import opened Geometry
  import opened CaseTable
  import opened CellLines

  /** A cell of the scan: column x (the loop's j) and row y (the loop's i). */
  datatype Cell = Cell(x: nat, y: nat)

  // ---------------------------------------------------------------------
  // Grid sizing

  /** The grid dimensions (xCount, yCount) for a window: one grid point per
      cell size along each axis, plus one. */
  function GridSize(width: nat, height: nat, cellSize: nat): (counts: (nat, nat))
    requires cellSize > 0
    ensures counts.0 >= 1 && counts.1 >= 1
  {
    (width / cellSize + 1, height / cellSize + 1)
  }

  /** The cells of the grid cover the window from the left edge up to at most
      one cell size short of the right edge, and likewise vertically. */
  lemma {:induction false} GridCoversWindow(width: nat, height: nat, cellSize: nat)
    requires cellSize > 0
    ensures var (xCount, yCount) := GridSize(width, height, cellSize);
            && (xCount - 1) * cellSize <= width < xCount * cellSize
            && (yCount - 1) * cellSize <= height < yCount * cellSize
  {
    assert width == (width / cellSize) * cellSize + width % cellSize;
    assert height == (height / cellSize) * cellSize + height % cellSize;
  }

  /** The program's own window, 600 by 600, with cells of 20 gives a grid of
      31 by 31 points, so 30 by 30 cells. */
  lemma DefaultWindowGrid()
    ensures GridSize(600, 600, 20) == (31, 31)
  {
  }

  /** std::vector::resize: keeps the first n elements, padding with `fill`. */
  function Resize<T>(v: seq<T>, n: nat, fill: T): (r: seq<T>)
    ensures |r| == n
    ensures forall i :: 0 <= i < n && i < |v| ==> r[i] == v[i]
    ensures forall i :: |v| <= i < n ==> r[i] == fill
  {
    if n <= |v| then v[..n] else v + seq(n - |v|, _ => fill)
  }

  /** yCount rows of exactly xCount flags each. */
  predicate IsGrid(grid: Grid, yCount: nat, xCount: nat)
  {
    |grid| == yCount && forall r :: 0 <= r < |grid| ==> |grid[r]| == xCount
  }

  /** Builds the grid as `main` does: resize the (empty) outer vector to
      yCount rows, then resize each row to xCount flags. Every flag starts
      off. */
  method SizeGrid(xCount: nat, yCount: nat) returns (grid: Grid)
    ensures IsGrid(grid, yCount, xCount)
    ensures forall r, c :: 0 <= r < yCount && 0 <= c < xCount ==> !grid[r][c]
  {
    grid := Resize([], yCount, []);
    for r := 0 to yCount
      invariant |grid| == yCount
      invariant forall q :: 0 <= q < r ==> |grid[q]| == xCount && forall c :: 0 <= c < xCount ==> !grid[q][c]
      invariant forall q :: r <= q < yCount ==> grid[q] == []
    {
      grid := grid[r := Resize(grid[r], xCount, false)];
    }
  }

  // ---------------------------------------------------------------------
  // Visiting order

  /** The first n cells of row y, left to right. */
  function RowCells(y: nat, n: nat): (r: seq<Cell>)
    ensures |r| == n
    ensures forall k :: 0 <= k < n ==> r[k] == Cell(k, y)
  {
    if n == 0 then [] else RowCells(y, n - 1) + [Cell(n - 1, y)]
  }

  /** The cells the nested loops visit: rows 0 .. rows-1, each one left to
      right over columns 0 .. cols-1. All of them lie inside rows x cols. */
  function CellOrder(rows: nat, cols: nat): (r: seq<Cell>)
    ensures forall k :: 0 <= k < |r| ==> r[k].x < cols && r[k].y < rows
  {
    if rows == 0 then [] else CellOrder(rows - 1, cols) + RowCells(rows - 1, cols)
  }

  /** The scan visits rows * cols cells. */
  lemma {:induction false} CellOrderLength(rows: nat, cols: nat)
    ensures |CellOrder(rows, cols)| == rows * cols
  {
    if rows > 0 {
      CellOrderLength(rows - 1, cols);
      assert (rows - 1) * cols + cols == rows * cols;
    }
  }

  /** Cell (x, y) sits at y * cols + x in the visiting order: the scan is
      row-major and, having rows * cols entries, visits each cell once. */
  lemma {:induction false} CellOrderRowMajor(rows: nat, cols: nat, x: nat, y: nat)
    requires x < cols && y < rows
    ensures |CellOrder(rows, cols)| == rows * cols
    ensures y * cols + x < |CellOrder(rows, cols)|
    ensures CellOrder(rows, cols)[y * cols + x] == Cell(x, y)
  {
    CellOrderLength(rows, cols);
    CellOrderLength(rows - 1, cols);
    var prefix := CellOrder(rows - 1, cols);
    assert CellOrder(rows, cols) == prefix + RowCells(rows - 1, cols);
    MulSucc(rows - 1, cols);
    if y < rows - 1 {
      MulSucc(y, cols);
      MulMono(y + 1, rows - 1, cols);
      CellOrderRowMajor(rows - 1, cols, x, y);
    } else {
      assert y * cols + x == |prefix| + x;
    }
  }

  lemma MulSucc(a: nat, b: nat)
    ensures (a + 1) * b == a * b + b
  {
  }

  lemma MulMono(a: nat, c: nat, b: nat)
    requires a <= c
    ensures a * b <= c * b
  {
  }

  /** Cells lying inside a grid of yCount rows and xCount columns, as the scan's
      bounds make them, are cells whose reads are in bounds. */
  lemma CellsInGrid(grid: Grid, yCount: nat, xCount: nat, cells: seq<Cell>)
    requires IsGrid(grid, yCount, xCount)
    requires forall k :: 0 <= k < |cells| ==> cells[k].x + 1 < xCount && cells[k].y + 1 < yCount
    ensures forall k :: 0 <= k < |cells| ==> HasCell(grid, cells[k].x, cells[k].y)
  {
  }

  // ---------------------------------------------------------------------
  // The vertex stream

  /** The buffer contents a list of segments appends: first then second of
      each segment, in order. */
  function Flatten(lines: seq<Line>): (vs: seq<Vertex>)
    ensures |vs| == 2 * |lines|
    ensures forall k :: 0 <= k < |lines| ==> vs[2 * k] == lines[k].first && vs[2 * k + 1] == lines[k].second
  {
    if lines == [] then [] else Flatten(lines[..|lines| - 1]) + [lines[|lines| - 1].first, lines[|lines| - 1].second]
  }

  /** Appending one segment appends its first and then its second vertex. */
  lemma FlattenSnoc(lines: seq<Line>, l: Line)
    ensures Flatten(lines + [l]) == Flatten(lines) + [l.first, l.second]
  {
    assert (lines + [l])[..|lines|] == lines;
  }

  lemma TakeSnoc<T>(s: seq<T>, k: nat)
    requires k < |s|
    ensures s[..k + 1] == s[..k] + [s[k]]
  {
  }

  lemma TakeAll<T>(s: seq<T>)
    ensures s[..|s|] == s
  {
  }

  lemma AppendAssoc<T>(a: seq<T>, b: seq<T>, c: seq<T>)
    ensures (a + b) + c == a + (b + c)
  {
  }

  /** All the cells' reads are in bounds. */
  predicate AllHaveCells(grid: Grid, cells: seq<Cell>)
  {
    forall k :: 0 <= k < |cells| ==> HasCell(grid, cells[k].x, cells[k].y)
  }

  /** The vertices the scan appends for `cells`, in visiting order: each cell's
      segments in table order, first vertex before second. Every cell adds
      at most two segments. */
  function Contour(grid: Grid, cells: seq<Cell>, length: nat): (vs: seq<Vertex>)
    requires AllHaveCells(grid, cells)
    ensures |vs| <= 4 * |cells|
  {
    if cells == [] then []
    else
      var last := cells[|cells| - 1];
      Contour(grid, cells[..|cells| - 1], length) + Flatten(GetVertices(grid, last.x, last.y, length))
  }

  /** Visiting one more cell appends that cell's vertices. */
  lemma ContourSnoc(grid: Grid, cells: seq<Cell>, c: Cell, length: nat)
    requires AllHaveCells(grid, cells) && HasCell(grid, c.x, c.y)
    ensures AllHaveCells(grid, cells + [c])
    ensures Contour(grid, cells + [c], length) == Contour(grid, cells, length) + Flatten(GetVertices(grid, c.x, c.y, length))
  {
    assert (cells + [c])[..|cells|] == cells;
  }

  /** The box [0, w] x [0, h] of the window. */
  predicate InBox(p: Vec2, w: real, h: real)
  {
    0.0 <= p.x <= w && 0.0 <= p.y <= h
  }

  /** Every vertex lies in [0, w] x [0, h]. */
  predicate AllInBox(vs: seq<Vertex>, w: real, h: real)
  {
    forall m :: 0 <= m < |vs| ==> InBox(vs[m].position, w, h)
  }

  /** A cell inside cols x rows lies inside [0, cols * L] x [0, rows * L]. */
  lemma {:induction false} CellSquareInBox(c: Cell, cols: nat, rows: nat, length: nat, p: Vec2)
    requires c.x < cols && c.y < rows
    requires InSquare(p, CellOrigin(c.x, c.y, length), length)
    ensures InBox(p, Scale(cols, length), Scale(rows, length))
  {
    ScaleMonotone(c.x + 1, cols, length);
    ScaleMonotone(c.y + 1, rows, length);
  }

  /** More cells reach further. */
  lemma {:induction false} ScaleMonotone(m: nat, n: nat, length: nat)
    requires m <= n
    ensures Scale(m, length) <= Scale(n, length)
  {
    if m < n {
      ScaleMonotone(m, n - 1, length);
    }
  }

  /** Every vertex the scan of cells inside cols x rows produces lies in
      [0, cols * L] x [0, rows * L]. */
  lemma {:induction false} ContourInBox(grid: Grid, cells: seq<Cell>, cols: nat, rows: nat, length: nat)
    requires AllHaveCells(grid, cells)
    requires forall k :: 0 <= k < |cells| ==> cells[k].x < cols && cells[k].y < rows
    ensures AllInBox(Contour(grid, cells, length), Scale(cols, length), Scale(rows, length))
  {
    if cells != [] {
      var last := cells[|cells| - 1];
      var init := cells[..|cells| - 1];
      ContourInBox(grid, init, cols, rows, length);
      CellVerticesInBox(grid, last, cols, rows, length);
      AllInBoxAppend(Contour(grid, init, length), Flatten(GetVertices(grid, last.x, last.y, length)),
                     Scale(cols, length), Scale(rows, length));
    }
  }

  /** The vertices one cell inside cols x rows appends lie in
      [0, cols * L] x [0, rows * L]. */
  lemma {:induction false} CellVerticesInBox(grid: Grid, c: Cell, cols: nat, rows: nat, length: nat)
    requires HasCell(grid, c.x, c.y) && c.x < cols && c.y < rows
    ensures AllInBox(Flatten(GetVertices(grid, c.x, c.y, length)), Scale(cols, length), Scale(rows, length))
  {
    var lines := GetVertices(grid, c.x, c.y, length);
    GetVerticesInCell(grid, c.x, c.y, length);
    var tail := Flatten(lines);
    forall m | 0 <= m < |tail|
      ensures InBox(tail[m].position, Scale(cols, length), Scale(rows, length))
    {
      var k := m / 2;
      assert m == 2 * k || m == 2 * k + 1;
      CellSquareInBox(c, cols, rows, length, lines[k].first.position);
      CellSquareInBox(c, cols, rows, length, lines[k].second.position);
    }
  }

  lemma AllInBoxAppend(a: seq<Vertex>, b: seq<Vertex>, w: real, h: real)
    requires AllInBox(a, w, h) && AllInBox(b, w, h)
    ensures AllInBox(a + b, w, h)
  {
    assert forall m :: 0 <= m < |b| ==> (a + b)[|a| + m] == b[m];
  }

  // ---------------------------------------------------------------------
  // The buffer and the scan

  /** linesVA, the sf::VertexArray the scan writes into: a growing list of
      vertices. */
  class VertexArray {
    var vertices: seq<Vertex>

    constructor ()
      ensures vertices == []
    {
      vertices := [];
    }

    /** Empties the buffer. */
    method Clear()
      modifies this
      ensures vertices == []
    {
      vertices := [];
    }

    /** Adds one vertex at the end. */
    method Append(v: Vertex)
      modifies this
      ensures vertices == old(vertices) + [v]
    {
      vertices := vertices + [v];
    }
  }

  /** Appends the first and then the second vertex of each segment, in order. */
  method AppendSegments(linesVA: VertexArray, lines: seq<Line>)
    modifies linesVA
    ensures linesVA.vertices == old(linesVA.vertices) + Flatten(lines)
  {
    for k := 0 to |lines|
      invariant linesVA.vertices == old(linesVA.vertices) + Flatten(lines[..k])
    {
      TakeSnoc(lines, k);
      FlattenSnoc(lines[..k], lines[k]);
      AppendAssoc(old(linesVA.vertices), Flatten(lines[..k]), [lines[k].first, lines[k].second]);
      linesVA.Append(lines[k].first);
      linesVA.Append(lines[k].second);
    }
    TakeAll(lines);
  }

  /** One pass of the inner loop: appends the segments of cells (0, i) to
      (cols - 1, i), left to right, after the contour of the cells `done`
      already in the buffer. */
  method DrawRow(grid: Grid, i: nat, cols: nat, cellSize: nat, linesVA: VertexArray, ghost done: seq<Cell>)
    requires i + 1 < |grid| && cols < |grid[i]| && cols < |grid[i + 1]|
    requires AllHaveCells(grid, done)
    requires linesVA.vertices == Contour(grid, done, cellSize)
    modifies linesVA
    ensures AllHaveCells(grid, done + RowCells(i, cols))
    ensures linesVA.vertices == Contour(grid, done + RowCells(i, cols), cellSize)
  {
    assert done + RowCells(i, 0) == done;
    for j := 0 to cols
      invariant AllHaveCells(grid, done + RowCells(i, j))
      invariant linesVA.vertices == Contour(grid, done + RowCells(i, j), cellSize)
    {
      var lines := GetVertices(grid, j, i, cellSize);
      AppendSegments(linesVA, lines);
      ContourSnoc(grid, done + RowCells(i, j), Cell(j, i), cellSize);
      AppendAssoc(done, RowCells(i, j), [Cell(j, i)]);
    }
  }

  /** One redraw's contour: clear linesVA, then for every row i < yCount - 1
      and every column j < xCount - 1 append the first and second vertex of
      each segment of cell (j, i). Afterwards the buffer holds exactly the
      contour of the cells in row-major order. */
  method DrawContour(grid: Grid, xCount: nat, yCount: nat, cellSize: nat, linesVA: VertexArray)
    requires xCount >= 1 && yCount >= 1
    requires IsGrid(grid, yCount, xCount)
    modifies linesVA
    ensures AllHaveCells(grid, CellOrder(yCount - 1, xCount - 1))
    ensures linesVA.vertices == Contour(grid, CellOrder(yCount - 1, xCount - 1), cellSize)
  {
    var cols := xCount - 1;
    var rows := yCount - 1;
    linesVA.Clear();
    for i := 0 to rows
      invariant AllHaveCells(grid, CellOrder(i, cols))
      invariant linesVA.vertices == Contour(grid, CellOrder(i, cols), cellSize)
    {
      DrawRow(grid, i, cols, cellSize, linesVA, CellOrder(i, cols));
    }
    assert linesVA.vertices == Contour(grid, CellOrder(rows, cols), cellSize);
  }

  /** The scan of a grid sized for a window only produces vertices inside the
      window. */
  lemma {:induction false} ContourInsideWindow(grid: Grid, width: nat, height: nat, cellSize: nat, xCount: nat, yCount: nat)
    requires cellSize > 0 && (xCount, yCount) == GridSize(width, height, cellSize)
    requires IsGrid(grid, yCount, xCount)
    ensures AllHaveCells(grid, CellOrder(yCount - 1, xCount - 1))
    ensures AllInBox(Contour(grid, CellOrder(yCount - 1, xCount - 1), cellSize), width as real, height as real)
  {
    var rows, cols := yCount - 1, xCount - 1;
    ScanInGridBox(grid, rows, cols, cellSize);
    GridFitsWindow(width, height, cellSize, xCount, yCount);
    AllInBoxWiden(Contour(grid, CellOrder(rows, cols), cellSize), Scale(cols, cellSize),
                  Scale(rows, cellSize), width as real, height as real);
  }

  /** The scan of a grid of rows + 1 by cols + 1 points reads in bounds and
      stays inside [0, cols * L] x [0, rows * L]. */
  lemma {:induction false} ScanInGridBox(grid: Grid, rows: nat, cols: nat, length: nat)
    requires IsGrid(grid, rows + 1, cols + 1)
    ensures AllHaveCells(grid, CellOrder(rows, cols))
    ensures AllInBox(Contour(grid, CellOrder(rows, cols), length), Scale(cols, length), Scale(rows, length))
  {
    CellsInGrid(grid, rows + 1, cols + 1, CellOrder(rows, cols));
    ContourInBox(grid, CellOrder(rows, cols), cols, rows, length);
  }

  lemma GridFitsWindow(width: nat, height: nat, cellSize: nat, xCount: nat, yCount: nat)
    requires cellSize > 0 && (xCount, yCount) == GridSize(width, height, cellSize)
    ensures Scale(xCount - 1, cellSize) <= width as real
    ensures Scale(yCount - 1, cellSize) <= height as real
  {
    GridCoversWindow(width, height, cellSize);
    assert (xCount - 1) * cellSize <= width;
    assert (yCount - 1) * cellSize <= height;
    ScaleBound(xCount - 1, cellSize, width);
    ScaleBound(yCount - 1, cellSize, height);
  }

  lemma ScaleBound(n: nat, length: nat, bound: nat)
    requires n * length <= bound
    ensures Scale(n, length) <= bound as real
  {
    ScaleIsProduct(n, length);
    ProductAsReal(n, length);
  }

  lemma AllInBoxWiden(vs: seq<Vertex>, w: real, h: real, w2: real, h2: real)
    requires AllInBox(vs, w, h) && w <= w2 && h <= h2
    ensures AllInBox(vs, w2, h2)
  {
  }

  lemma ProductAsReal(a: nat, b: nat)
    ensures (a * b) as real == a as real * b as real
  {
  }
}
