/** Segment geometry of the marching-squares contour: where the edge midpoints
    a, b, c, d of a square cell lie in the window, and the segment that
    getLine builds for each LINE_STATE. Window coordinates are held exactly as
    reals (the program's values are small integers and halves of integers);
    the window's y axis points down, so "bottom" has the larger y. */
module Geometry {

  /** A window position (sf::Vector2f). */
  datatype Vec2 = Vec2(x: real, y: real)

  /** The only colour the contour uses. */
  datatype Color = White

  /** A positioned, coloured vertex (sf::Vertex). */
  datatype Vertex = Vertex(position: Vec2, color: Color)

  /** One contour segment (std::pair<sf::Vertex, sf::Vertex>). */
  datatype Line = Line(first: Vertex, second: Vertex)

  /** Edge midpoints of a cell: a on the left edge, b on the bottom edge,
      c on the right edge, d on the top edge. */
  datatype Label = A | B | C | D

  /** LINE_STATE: the pair of midpoints a segment joins. */
  datatype LineState = AB | BC | CD | DA | AC | BD

  /** The midpoints getLine emits first and second for each state. */
  function Ends(s: LineState): (e: (Label, Label))
    ensures e.0 != e.1
  {
    match s
    case AB => (A, B)
    case BC => (B, C)
    case CD => (D, C)
    case DA => (D, A)
    case AC => (C, A)
    case BD => (B, D)
  }

  /** n cell lengths, the window offset of grid line n. Written as a sum so
      that the solver does not face a product of two unknowns. */
  function Scale(n: nat, length: nat): (r: real)
    ensures r >= 0.0
  {
    if n == 0 then 0.0 else Scale(n - 1, length) + length as real
  }

  /** Scale is the product the program computes, `(float)n * (float)length`. */
  lemma {:induction false} ScaleIsProduct(n: nat, length: nat)
    ensures Scale(n, length) == n as real * length as real
  {
    if n > 0 {
      ScaleIsProduct(n - 1, length);
      assert n as real * length as real == (n - 1) as real * length as real + length as real;
    }
  }

  /** Top-left window position of the cell in column x and row y. */
  function CellOrigin(x: nat, y: nat, length: nat): (p: Vec2)
    ensures p == Vec2(x as real * length as real, y as real * length as real)
  {
    ScaleIsProduct(x, length);
    ScaleIsProduct(y, length);
    Vec2(Scale(x, length), Scale(y, length))
  }

  /** p lies in the closed square of side `length` whose top-left corner is topLeft. */
  predicate InSquare(p: Vec2, topLeft: Vec2, length: nat)
  {
    && topLeft.x <= p.x <= topLeft.x + length as real
    && topLeft.y <= p.y <= topLeft.y + length as real
  }

  /** p lies on the side of that square that carries midpoint l. */
  predicate OnEdge(p: Vec2, topLeft: Vec2, length: nat, l: Label)
  {
    && InSquare(p, topLeft, length)
    && match l
       case A => p.x == topLeft.x
       case B => p.y == topLeft.y + length as real
       case C => p.x == topLeft.x + length as real
       case D => p.y == topLeft.y
  }

  /** The exact geometric centre of the side that carries midpoint l. */
  function EdgeCentre(topLeft: Vec2, length: nat, l: Label): Vec2
  {
    var half := length as real / 2.0;
    match l
    case A => Vec2(topLeft.x, topLeft.y + half)
    case B => Vec2(topLeft.x + half, topLeft.y + length as real)
    case C => Vec2(topLeft.x + length as real, topLeft.y + half)
    case D => Vec2(topLeft.x + half, topLeft.y)
  }

  /** Halving an unsigned integer and widening the quotient loses exactly the
      odd half: it agrees with exact halving precisely for even values. */
  lemma {:induction false} HalfExactIffEven(n: nat)
    ensures ((n / 2) as real == n as real / 2.0) <==> n % 2 == 0
    ensures 0.0 <= (n / 2) as real <= n as real
  {
    assert n == 2 * (n / 2) + n % 2;
    assert n as real == 2.0 * (n / 2) as real + (n % 2) as real;
  }

  /** The position the program gives midpoint l: a, b and d are offset by the
      integer quotient `length / 2`, c by the exact `(float)length / 2`. */
  function Midpoint(topLeft: Vec2, length: nat, l: Label): (p: Vec2)
    ensures OnEdge(p, topLeft, length, l)
  {
    HalfExactIffEven(length);
    var half := (length / 2) as real;
    match l
    case A => Vec2(topLeft.x, topLeft.y + half)
    case B => Vec2(topLeft.x + half, topLeft.y + length as real)
    case C => Vec2(topLeft.x + length as real, topLeft.y + length as real / 2.0)
    case D => Vec2(topLeft.x + half, topLeft.y)
  }

  /** Each midpoint lies on its side of the cell, and it is that side's exact
      centre when it is c or when the side length is even. */
  lemma {:induction false} MidpointPlacement(topLeft: Vec2, length: nat, l: Label)
    ensures OnEdge(Midpoint(topLeft, length, l), topLeft, length, l)
    ensures Midpoint(topLeft, length, l) == EdgeCentre(topLeft, length, l) <==> (l == C || length % 2 == 0)
  {
    HalfExactIffEven(length);
  }

  /** getLine: the segment for `state` in the cell at topLeft. Each case spells
      out its own offsets; the contract says that all six cases agree with
      the one placement of each midpoint, in the order the program emits
      them, and that both vertices are white. */
  function GetLine(topLeft: Vec2, length: nat, state: LineState): (r: Line)
    ensures r.first == Vertex(Midpoint(topLeft, length, Ends(state).0), White)
    ensures r.second == Vertex(Midpoint(topLeft, length, Ends(state).1), White)
  {
    var half := (length / 2) as real;
    var full := length as real;
    match state
    case AB =>
      Line(Vertex(Vec2(topLeft.x, topLeft.y + half), White),
           Vertex(Vec2(topLeft.x + half, topLeft.y + full), White))
    case BC =>
      Line(Vertex(Vec2(topLeft.x + half, topLeft.y + full), White),
           Vertex(Vec2(topLeft.x + full, topLeft.y + full / 2.0), White))
    case CD =>
      Line(Vertex(Vec2(topLeft.x + half, topLeft.y), White),
           Vertex(Vec2(topLeft.x + full, topLeft.y + full / 2.0), White))
    case DA =>
      Line(Vertex(Vec2(topLeft.x + half, topLeft.y), White),
           Vertex(Vec2(topLeft.x, topLeft.y + half), White))
    case AC =>
      Line(Vertex(Vec2(topLeft.x + full, topLeft.y + full / 2.0), White),
           Vertex(Vec2(topLeft.x, topLeft.y + half), White))
    case BD =>
      Line(Vertex(Vec2(topLeft.x + half, topLeft.y + full), White),
           Vertex(Vec2(topLeft.x + half, topLeft.y), White))
  }

  /** Both ends of every segment lie in the closed cell square. */
  lemma {:induction false} GetLineInSquare(topLeft: Vec2, length: nat, state: LineState)
    ensures InSquare(GetLine(topLeft, length, state).first.position, topLeft, length)
    ensures InSquare(GetLine(topLeft, length, state).second.position, topLeft, length)
  {
    MidpointPlacement(topLeft, length, Ends(state).0);
    MidpointPlacement(topLeft, length, Ends(state).1);
  }

  /** A segment collapses to a single point exactly when the cell has side 0,
      or side 1 and the segment is DA (then d and a both sit on the corner). */
  lemma DegenerateSegment(topLeft: Vec2, length: nat, state: LineState)
    ensures GetLine(topLeft, length, state).first.position == GetLine(topLeft, length, state).second.position
            <==> length == 0 || (length == 1 && state == DA)
  {
    HalfExactIffEven(length);
    if length >= 2 {
      assert (length / 2) as real >= 1.0;
      assert (length / 2) as real < length as real;
    }
  }

  /** Vertical neighbours: the b point of a cell is always the d point of
      the cell below it. */
  lemma {:induction false} SeamBelow(x: nat, y: nat, length: nat)
    ensures Midpoint(CellOrigin(x, y, length), length, B) == Midpoint(CellOrigin(x, y + 1, length), length, D)
  {
  }

  /** Horizontal neighbours: the c point of a cell is the a point of the cell
      to its right exactly when the side length is even, because c is placed
      by exact halving and a by integer halving. */
  lemma {:induction false} SeamRight(x: nat, y: nat, length: nat)
    ensures Midpoint(CellOrigin(x, y, length), length, C) == Midpoint(CellOrigin(x + 1, y, length), length, A)
            <==> length % 2 == 0
  {
    HalfExactIffEven(length);
  }
}
