# Marching squares contour — a Dafny model

MarchingCubes draws a 2-D iso-contour over a grid of on/off sample points.
The window is 600 by 600 pixels. Sample points sit every `cellSize` = 20 pixels, giving
`xCount` by `yCount` points. Each redraw does three things:

- it clears the line buffer `linesVA`;
- it visits every cell of four neighbouring points, row by row and left to right;
- it classifies the cell by a 4-bit code and appends the segments that a
  fixed case table gives for that code.

Each segment joins two of the edge midpoints a (left), b (bottom), c (right) and d (top).

The model has five modules:

- `Geometry` covers positions, the six `LINE_STATE` values and `getLine`.
  Each midpoint is placed once, in `Midpoint`.
  The integer halving `length / 2` used for a, b and d is kept distinct from the exact
  `(float)length / 2` used for c.
- `CornerCode` covers the 4-bit code of a cell's corners, with its decoding and
  the complement.
- `CaseTable` covers the `switch` of `getVerticies`. It proves what the table
  separates, its sizes, its saddles and its complement symmetry.
- `CellLines` covers `getVerticies` on a grid, including the corner reads as the
  program makes them. It also holds the finding below.
- `ContourScan` covers the grid sizing, the grid allocation and the scan that fills
  `linesVA`. `linesVA` is modelled as a class whose vertex list `Clear` and
  `Append` update in place.
  - `DrawContour` is proved to leave exactly `Contour(grid, CellOrder(...))` in the buffer.
  - Separate lemmas describe the visiting order.
  - They also prove that every vertex of a grid sized for a window lies
    inside that window.

Coordinates are exact reals. The program's values are integer multiples of the cell size and
half-integers, all far below the range where `float` rounds.

The corner reads follow the code as written. In `getVerticies`:

- the value named `topRight` is read from `grid[y+1][x]`;
- the value named `bottomLeft` is read from `grid[y][x+1]`.

The names `topRight` and `bottomLeft` at main.cpp:113-114 suggest that a
cell with its top row on gets code 12 (segment AC). The indices read give
code 9 (segment BD). The model follows the indices read. The discrepancy is recorded under Findings.

## Model

| member | source | states |
|---|---|---|
| Geometry.ScaleIsProduct | MarchingCubes/src/MarchingCubes/main.cpp:121 | the repeated sum used for cell offsets equals the product `(float)n * (float)length` |
| Geometry.HalfExactIffEven | MarchingCubes/src/MarchingCubes/main.cpp:46 | widening the integer quotient `length / 2` equals exact halving exactly when `length` is even, and it lies between 0 and `length` |
| Geometry.Ends | MarchingCubes/src/MarchingCubes/main.cpp:42-104 | each state emits two distinct midpoints, first and second in the order its case writes them: a then b, b then c, d then c, d then a, c then a, b then d |
| Geometry.CellOrigin | MarchingCubes/src/MarchingCubes/main.cpp:121 | the top-left window position of cell (x, y) is (x * length, y * length), through `Scale`, which `ScaleIsProduct` equates with the product |
| Geometry.Midpoint | MarchingCubes/src/MarchingCubes/main.cpp:44-102 | the one placement of each midpoint: a at (0, length / 2), b at (length / 2, length), c at (length, (float)length / 2), d at (length / 2, 0) from the cell origin, with integer halving except for c; its properties are stated by `MidpointPlacement`, `SeamBelow` and `SeamRight` |
| Geometry.MidpointPlacement | MarchingCubes/src/MarchingCubes/main.cpp:44-102 | every midpoint lies on its own side of the cell; it is that side's exact centre iff it is c or the side length is even |
| Geometry.GetLine | MarchingCubes/src/MarchingCubes/main.cpp:18-107 | all six cases emit, as first and second vertex, the placement of the two midpoints the state names (a-b, b-c, d-c, d-a, c-a, b-d), both white |
| Geometry.GetLineInSquare | MarchingCubes/src/MarchingCubes/main.cpp:18-107 | both ends of every segment lie in the closed cell square |
| Geometry.DegenerateSegment | MarchingCubes/src/MarchingCubes/main.cpp:42-104 | a segment collapses to a point iff the side length is 0, or it is 1 and the state is DA |
| Geometry.SeamBelow | MarchingCubes/src/MarchingCubes/main.cpp:94-103 | the b point of a cell is always the d point of the cell below, so contours join vertically |
| Geometry.SeamRight | MarchingCubes/src/MarchingCubes/main.cpp:84-92 | the c point of a cell equals the a point of the cell to its right iff the side length is even |
| CornerCode.Encode | MarchingCubes/src/MarchingCubes/main.cpp:117 | the code is below 16 and its bits, from the highest, are the four corner flags in the order 8, 4, 2, 1 |
| CornerCode.Decode | MarchingCubes/src/MarchingCubes/main.cpp:117 | every code below 16 is the code of the corners it decodes to |
| CornerCode.DecodeEncode | MarchingCubes/src/MarchingCubes/main.cpp:117 | decoding a cell's code gives back its corners |
| CornerCode.EncodeInjective | MarchingCubes/src/MarchingCubes/main.cpp:112-117 | distinct corner configurations get distinct codes |
| CornerCode.EncodeFlip | MarchingCubes/src/MarchingCubes/main.cpp:117 | flipping every corner maps code k to 15 - k |
| CaseTable.Table | MarchingCubes/src/MarchingCubes/main.cpp:123-196 | a code draws at most two segments and codes from 16 up draw none |
| CaseTable.TableSeparatesNamedCorners | MarchingCubes/src/MarchingCubes/main.cpp:123-196 | for every 4-bit code the drawn segments touch exactly the sides whose two corners, as the code's bits name them, disagree |
| CaseTable.TableSize | MarchingCubes/src/MarchingCubes/main.cpp:119-198 | codes 0, 15 and above draw nothing; 5 and 10 draw two segments; every other code draws one |
| CaseTable.Saddles | MarchingCubes/src/MarchingCubes/main.cpp:144-175 | code 5 pushes DA then BC, code 10 pushes AB then CD, and both touch all four sides |
| CaseTable.ComplementSymmetry | MarchingCubes/src/MarchingCubes/main.cpp:123-196 | codes k and 15 - k draw the same segments except at the saddles, where the pairings differ; the sides touched always agree |
| CellLines.CornersRead | MarchingCubes/src/MarchingCubes/main.cpp:112-115 | the four reads as written: topLeft = grid[y][x], topRight = grid[y+1][x], bottomRight = grid[y+1][x+1], bottomLeft = grid[y][x+1]; `AsWrittenDrawsTransposed` proves it is the window corners reflected across the diagonal |
| CellLines.Code | MarchingCubes/src/MarchingCubes/main.cpp:112-117 | the cell code is below 16 and its bits are grid[y][x], grid[y+1][x], grid[y+1][x+1], grid[y][x+1], from the highest |
| CellLines.GetVertices | MarchingCubes/src/MarchingCubes/main.cpp:109-199 | a cell yields at most two segments, one per table entry of its code; segment k is the line of table entry k at the cell's origin, in push order |
| CellLines.GetVerticesInCell | MarchingCubes/src/MarchingCubes/main.cpp:121-198 | every vertex of a cell's segments lies in the cell's square at (x * length, y * length) |
| CellLines.GetVerticesCount | MarchingCubes/src/MarchingCubes/main.cpp:112-198 | a cell yields nothing iff its four reads agree, and two segments iff they form a saddle |
| CellLines.AsWrittenDrawsTransposed | MarchingCubes/src/MarchingCubes/main.cpp:112-117 | the reads are the window corners reflected across the cell diagonal, so the sides touched are the reflection of the sides the window corners call for |
| CellLines.AsWrittenTopRowCounterexample | MarchingCubes/src/MarchingCubes/main.cpp:112-117 | with the top row of a 20-pixel cell on, the code is 9 and the segment is the vertical (10, 20)-(10, 0), while the left and right sides are the ones crossed |
| CellLines.IntendedCode | MarchingCubes/src/MarchingCubes/main.cpp:112-117 | the code with corners read where their names say: bits grid[y][x], grid[y][x+1], grid[y+1][x+1], grid[y+1][x] |
| CellLines.IntendedSegmentsSeparate | MarchingCubes/src/MarchingCubes/main.cpp:112-196 | with the intended reads the segments touch exactly the sides whose window corners disagree |
| ContourScan.GridSize | MarchingCubes/src/MarchingCubes/main.cpp:209-211 | both point counts are at least 1 |
| ContourScan.GridCoversWindow | MarchingCubes/src/MarchingCubes/main.cpp:209-211 | (xCount - 1) cells fit in the width and xCount cells exceed it, likewise vertically |
| ContourScan.DefaultWindowGrid | MarchingCubes/src/MarchingCubes/main.cpp:203-211 | the 600 by 600 window with 20-pixel cells gives 31 by 31 points |
| ContourScan.Resize | MarchingCubes/src/MarchingCubes/main.cpp:217-219 | resizing keeps the existing prefix and pads with the fill value to the new length |
| ContourScan.SizeGrid | MarchingCubes/src/MarchingCubes/main.cpp:215-219 | the grid has yCount rows of xCount flags, all off |
| ContourScan.RowCells | MarchingCubes/src/MarchingCubes/main.cpp:261 | the inner loop visits (0, y), (1, y), ... in that order |
| ContourScan.CellOrder | MarchingCubes/src/MarchingCubes/main.cpp:260-261 | every visited cell lies inside rows by cols |
| ContourScan.CellOrderLength | MarchingCubes/src/MarchingCubes/main.cpp:260-261 | the scan visits rows * cols cells |
| ContourScan.CellOrderRowMajor | MarchingCubes/src/MarchingCubes/main.cpp:260-261 | cell (x, y) is visited at position y * cols + x, so the scan is row-major and visits each cell once |
| ContourScan.CellsInGrid | MarchingCubes/src/MarchingCubes/main.cpp:260-262 | the loop bounds keep every read of getVerticies inside the grid |
| ContourScan.Flatten | MarchingCubes/src/MarchingCubes/main.cpp:264-268 | the buffer receives 2 vertices per segment, first then second, in segment order |
| ContourScan.Contour | MarchingCubes/src/MarchingCubes/main.cpp:258-269 | the scan appends at most four vertices per cell |
| ContourScan.ContourInBox | MarchingCubes/src/MarchingCubes/main.cpp:258-269 | every vertex of the contour of cells inside cols by rows lies in [0, cols * L] x [0, rows * L] |
| ContourScan.CellVerticesInBox | MarchingCubes/src/MarchingCubes/main.cpp:262-268 | the vertices one cell inside cols by rows appends lie in [0, cols * L] x [0, rows * L] |
| ContourScan.ScanInGridBox | MarchingCubes/src/MarchingCubes/main.cpp:258-269 | the scan of a grid of rows + 1 by cols + 1 points reads in bounds and stays in [0, cols * L] x [0, rows * L] |
| ContourScan.GridFitsWindow | MarchingCubes/src/MarchingCubes/main.cpp:209-211 | the far edge of the last cell is inside the window |
| ContourScan.ContourInsideWindow | MarchingCubes/src/MarchingCubes/main.cpp:209-269 | for a grid sized from the window, every vertex the scan produces lies inside the window |
| ContourScan.VertexArray.constructor | MarchingCubes/src/MarchingCubes/main.cpp:204 | a new vertex array is empty |
| ContourScan.VertexArray.Clear | MarchingCubes/src/MarchingCubes/main.cpp:258 | clearing leaves the buffer empty |
| ContourScan.VertexArray.Append | MarchingCubes/src/MarchingCubes/main.cpp:266-267 | appending adds exactly one vertex at the end |
| ContourScan.AppendSegments | MarchingCubes/src/MarchingCubes/main.cpp:264-268 | the buffer grows by exactly the flattened segments, first then second, in order |
| ContourScan.DrawRow | MarchingCubes/src/MarchingCubes/main.cpp:261-269 | one pass of the inner loop extends the buffer from the contour of the cells done to that of the cells done plus row i |
| ContourScan.DrawContour | MarchingCubes/src/MarchingCubes/main.cpp:258-269 | after a redraw the buffer holds exactly the contour of all (xCount - 1) * (yCount - 1) cells in row-major order, and every read was in bounds |

## Left out

- The window, the event loop and the drawing calls (lines 203, 228-235, 270-275) are not modelled: they are SFML I/O. The window size is the `width` and `height` parameters.
- The clock and the one-second throttle (lines 222, 227, 237-242) are not modelled: they depend on time. A redraw is `DrawContour` applied to a given grid.
- The random refill of the grid (lines 224-226, 243-245) is not modelled: it depends on randomness. The grid is a parameter.
- The point markers `pointsVec` and their colour, radius and position (lines 208, 213, 246-255) are not modelled. They are display only and do not feed the contour.
- `float` rounding: coordinates are exact reals. Every value the program forms is an integer or a half-integer far below 2^24, where `float` is exact.
- Colours: only `sf::Color::White` is used by the contour, so `Color` has that one value. The primitive type of `linesVA` (line 206) is not modelled.
- ContourScan.DrawContour: requires xCount and yCount to be at least 1. The uint32 expression `yCount - 1` would wrap at 0, but the sizing at lines 210-211 never produces 0, as `GridSize` proves.
- ContourScan.VertexArray: models sf::VertexArray as a list of vertices. Its internal storage and its drawing are outside this model.
- CellLines.GetVertices: does not return a `std::vector` built by `push_back`. It returns the sequence of the pushed segments, in push order.

## Findings

| source | as written | input that shows it | evidently intended | confidence | as-written member | corrected member |
|---|---|---|---|---|---|---|
| MarchingCubes/src/MarchingCubes/main.cpp:113-114 | `topRight` reads `grid[y+1][x]` and `bottomLeft` reads `grid[y][x+1]`. The cell is drawn with x as the column, so these are the bottom-left and top-right points of the cell. | grid `[[true, true], [false, false]]`, cell (0, 0), cell size 20: code 9, vertical segment from (10, 20) to (10, 0) | `topRight = grid[y][x+1]` and `bottomLeft = grid[y+1][x]`. This gives code 12 and the horizontal segment AC, separating the on row from the off row. | not executed | CellLines.AsWrittenTopRowCounterexample | CellLines.IntendedSegmentsSeparate |

`CellLines.AsWrittenDrawsTransposed` generalises the counterexample. As written, the contour of every cell is its intended contour reflected across the cell's diagonal. Codes 1, 3, 4, 6, 9, 11, 12 and 14 touch the wrong sides.

`CellLines.IntendedCode` is the corrected classifier. The scan (`DrawContour`) still models the program as written.
