/** The one-byte piece code: the kind in the low four bits (1 to 6, or 0
    for an empty square) and the colour in bits 4 and 5. A piece is built
    by OR-ing a colour with a kind. The program's `u8` is `bv8` here. */
module Pieces {

  const None: bv8 := 0

  const Pawn: bv8 := 1
  const Knight: bv8 := 2
  const Bishop: bv8 := 3
  const Rook: bv8 := 4
  const Queen: bv8 := 5
  const King: bv8 := 6

  const White: bv8 := 0x10
  const Black: bv8 := 0x20

  /** The four bits that hold the kind, and the two that hold the colour. */
  const KindBits: bv8 := 0x0F
  const ColourBits: bv8 := 0x30

  predicate IsKind(k: bv8) {
    k == Pawn || k == Knight || k == Bishop || k == Rook || k == Queen || k == King
  }

  predicate IsColour(c: bv8) {
    c == White || c == Black
  }

  /** The six kinds are the values 1 to 6: distinct, below 16, none of them empty. */
  lemma KindsAreDistinct()
    ensures forall k :: IsKind(k) <==> 1 <= k <= 6
    ensures forall k :: IsKind(k) ==> k < 16 && k != None && k & ColourBits == 0
  {
  }

  /** The colours share no bit with each other nor with any kind. */
  lemma ColoursAreDisjoint()
    ensures White & Black == 0 && White != Black
    ensures forall c, k :: IsColour(c) && IsKind(k) ==> c & k == 0
    ensures forall c :: IsColour(c) ==> c & KindBits == 0 && c & ColourBits == c
  {
  }

  /** A combined piece gives back its kind under the kind bits and its colour
      under the colour bits, fits in six bits and is never the empty square. */
  lemma PieceLayout(c: bv8, k: bv8)
    requires IsColour(c) && IsKind(k)
    ensures (c | k) & KindBits == k
    ensures (c | k) & ColourBits == c
    ensures c | k < 64
    ensures c | k != None
  {
  }

  /** Distinct colour-and-kind pairs give distinct pieces. */
  lemma PieceInjective(c1: bv8, k1: bv8, c2: bv8, k2: bv8)
    requires IsColour(c1) && IsKind(k1) && IsColour(c2) && IsKind(k2)
    ensures c1 | k1 == c2 | k2 <==> c1 == c2 && k1 == k2
  {
    PieceLayout(c1, k1);
    PieceLayout(c2, k2);
  }
}
