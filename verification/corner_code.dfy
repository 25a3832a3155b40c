/** The 4-bit configuration code of a cell: its corners weighted
    topLeft 8, topRight 4, bottomRight 2, bottomLeft 1. */
module CornerCode {

  /** The four corner flags of a cell, named by position in the cell. */
  datatype Corners = Corners(topLeft: bool, topRight: bool, bottomRight: bool, bottomLeft: bool)

  /** A C++ bool converted to an integer. */
  function Bit(b: bool): nat
  {
    if b then 1 else 0
  }

  /** The code `topLeft * 8 + topRight * 4 + bottomRight * 2 + bottomLeft`:
      a value below 16 whose bits, from the highest, are the four corners. */
  function Encode(c: Corners): (k: nat)
    ensures k < 16
    ensures c.topLeft <==> k / 8 == 1
    ensures c.topRight <==> k / 4 % 2 == 1
    ensures c.bottomRight <==> k / 2 % 2 == 1
    ensures c.bottomLeft <==> k % 2 == 1
  {
    8 * Bit(c.topLeft) + 4 * Bit(c.topRight) + 2 * Bit(c.bottomRight) + Bit(c.bottomLeft)
  }

  /** Reads the corners back out of a code. */
  function Decode(k: nat): (c: Corners)
    requires k < 16
    ensures Encode(c) == k
  {
    Corners(k / 8 == 1, k / 4 % 2 == 1, k / 2 % 2 == 1, k % 2 == 1)
  }

  /** Decoding an encoded cell gives back its corners. */
  lemma DecodeEncode(c: Corners)
    ensures Decode(Encode(c)) == c
  {
  }

  /** Distinct corner tuples give distinct codes. */
  lemma {:induction false} EncodeInjective(c1: Corners, c2: Corners)
    requires Encode(c1) == Encode(c2)
    ensures c1 == c2
  {
    DecodeEncode(c1);
    DecodeEncode(c2);
  }

  /** The same cell with every corner flipped. */
  function Flip(c: Corners): Corners
  {
    Corners(!c.topLeft, !c.topRight, !c.bottomRight, !c.bottomLeft)
  }

  /** Flipping every corner complements the code to 15. */
  lemma EncodeFlip(c: Corners)
    ensures Encode(Flip(c)) == 15 - Encode(c)
  {
  }
}
