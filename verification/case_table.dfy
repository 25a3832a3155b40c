/** The marching-squares case table: which segments a configuration code
    draws, as the `switch` in getVerticies has it. */
module CaseTable {
  import opened Geometry
  import opened CornerCode

  /** The midpoints used by a list of segments. */
  function LabelsOf(lines: seq<LineState>): set<Label>
  {
    if lines == [] then {} else {Ends(lines[0]).0, Ends(lines[0]).1} + LabelsOf(lines[1..])
  }

  /** The sides of a cell whose two end corners disagree: the sides a contour
      between "on" and "off" corners has to cross. a is the left side
      (topLeft, bottomLeft), b the bottom, c the right, d the top. */
  function Crossed(c: Corners): set<Label>
  {
    (if c.topLeft != c.bottomLeft then {A} else {})
    + (if c.bottomLeft != c.bottomRight then {B} else {})
    + (if c.topRight != c.bottomRight then {C} else {})
    + (if c.topLeft != c.topRight then {D} else {})
  }

  /** The segments drawn for a code, in push order: at most two, and none for
      a code with no case (0, 15, or anything above 15). */
  function Table(code: nat): (r: seq<LineState>)
    ensures |r| <= 2
    ensures code >= 16 ==> r == []
  {
    match code
    case 1 => [AB]
    case 2 => [BC]
    case 3 => [AC]
    case 4 => [CD]
    case 5 => [DA, BC]
    case 6 => [BD]
    case 7 => [DA]
    case 8 => [DA]
    case 9 => [BD]
    case 10 => [AB, CD]
    case 11 => [CD]
    case 12 => [AC]
    case 13 => [BC]
    case 14 => [AB]
    case _ => []
  }

  /** For a 4-bit code the segments touch exactly the sides whose corners, as
      named by the code's bits, disagree: the table separates the corners it
      is told about. */
  lemma TableSeparatesNamedCorners(code: nat)
    requires code < 16
    ensures LabelsOf(Table(code)) == Crossed(Decode(code))
  {
    match code
    case 0 =>
    case 1 =>
    case 2 =>
    case 3 =>
    case 4 =>
    case 5 =>
      assert LabelsOf([BC]) == {B, C};
    case 6 =>
    case 7 =>
    case 8 =>
    case 9 =>
    case 10 =>
      assert LabelsOf([CD]) == {C, D};
    case 11 =>
    case 12 =>
    case 13 =>
    case 14 =>
    case 15 =>
  }

  /** How many segments each code draws: none for 0, 15 and codes above 15,
      two for the saddles 5 and 10, one for every other code. */
  lemma TableSize(code: nat)
    ensures |Table(code)| == 0 <==> code == 0 || code == 15 || code >= 16
    ensures |Table(code)| == 2 <==> code == 5 || code == 10
    ensures 1 <= code <= 14 && code != 5 && code != 10 ==> |Table(code)| == 1
  {
  }

  /** The saddles: code 5 draws DA then BC, code 10 draws AB then CD. Both
      touch all four sides, joined in different pairs. */
  lemma Saddles()
    ensures Table(5) == [DA, BC]
    ensures Table(10) == [AB, CD]
    ensures LabelsOf(Table(5)) == LabelsOf(Table(10)) == {A, B, C, D}
  {
  }

  /** Flipping every corner draws the same segments, except at the saddles,
      where the two pairings are exchanged. */
  lemma {:induction false} ComplementSymmetry(code: nat)
    requires code < 16
    ensures code != 5 && code != 10 ==> Table(15 - code) == Table(code)
    ensures code == 5 || code == 10 ==> Table(15 - code) != Table(code)
    ensures LabelsOf(Table(15 - code)) == LabelsOf(Table(code))
  {
    Saddles();
    match code
    case 0 =>
    case 1 =>
    case 2 =>
    case 3 =>
    case 4 =>
    case 5 =>
    case 6 =>
    case 7 =>
    case 8 =>
    case 9 =>
    case 10 =>
    case 11 =>
    case 12 =>
    case 13 =>
    case 14 =>
    case 15 =>
  }
}
