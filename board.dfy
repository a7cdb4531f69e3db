/** The 64-square board: square = rank * 8 + file, rank 0 being White's
    home rank. `Board::new` writes White's pieces one square at a time, then
    White's pawns in a loop, then Black's pieces one square at a time and
    Black's pawns in a second loop. */
module Boards {
  import opened Pieces

  /** The kind on each file of a home rank: rook, knight, bishop, queen,
      king, bishop, knight, rook from file a to file h. */
  function HomeKind(file: int): (k: bv8)
    requires 0 <= file < 8
    ensures k == [Rook, Knight, Bishop, Queen, King, Bishop, Knight, Rook][file]
    ensures IsKind(k) && k != Pawn
  {
    if file == 0 || file == 7 then Rook
    else if file == 1 || file == 6 then Knight
    else if file == 2 || file == 5 then Bishop
    else if file == 3 then Queen
    else King
  }

  /** What `Board::new` leaves on each square, as the code is written.
      Black's home rank (squares 56 to 63) holds the home kinds in file
      order. On White's, the rook goes to square 0, nothing to square 1, and
      the kinds of files b to g one square to the right of their place
      (squares 2 to 7); the second rook, written to square 8, is then
      overwritten by the first pawn. */
  function StartingPiece(square: int): (p: bv8)
    requires 0 <= square < 64
    ensures p != None ==> IsColour(p & ColourBits) && IsKind(p & KindBits)
    ensures p != None ==> (p & ColourBits == White <==> square < 16)
  {
    PiecesOfKinds();
    if square == 0 then White | Rook
    else if square == 1 then None
    else if square < 8 then White | HomeKind(square - 1)
    else if square < 16 then White | Pawn
    else if square < 48 then None
    else if square < 56 then Black | Pawn
    else Black | HomeKind(square - 56)
  }

  /** A colour OR-ed with a kind gives back both and is never empty. */
  lemma PiecesOfKinds()
    ensures forall c, k :: IsColour(c) && IsKind(k) ==>
      (c | k) & ColourBits == c && (c | k) & KindBits == k && c | k != None
  {
    forall c, k | IsColour(c) && IsKind(k)
      ensures (c | k) & ColourBits == c && (c | k) & KindBits == k && c | k != None
    {
      PieceLayout(c, k);
    }
  }

  /** The 64 squares of a freshly built board. */
  function InitialLayout(): (layout: seq<bv8>)
    ensures |layout| == 64
    ensures forall i :: 0 <= i < 64 ==> layout[i] == StartingPiece(i)
  {
    seq(64, i requires 0 <= i < 64 => StartingPiece(i))
  }

  /** What one `for x in 0..8` loop of `Board::new` does to the squares:
      the eight from `start` on receive `piece`, the others keep theirs. */
  function Filled(squares: seq<bv8>, start: int, piece: bv8): (r: seq<bv8>)
    requires 0 <= start <= |squares| - 8
    ensures |r| == |squares|
    ensures forall i :: 0 <= i < |squares| ==> r[i] == if start <= i < start + 8 then piece else squares[i]
  {
    squares[..start] + seq(8, _ => piece) + squares[start + 8..]
  }

  class Board {
    var pieces: array<bv8>

    ghost predicate Valid()
      reads this
    {
      pieces.Length == 64
    }

    /** `Board::default`: every square empty. */
    constructor Default()
      ensures Valid() && fresh(pieces)
      ensures pieces[..] == seq(64, _ => None)
    {
      pieces := new bv8[64](_ => None);
    }

    /** `Board::new`: the default board with the starting pieces written in. */
    static method New() returns (board: Board)
      ensures fresh(board) && fresh(board.pieces) && board.Valid()
      ensures board.pieces[..] == InitialLayout()
    {
      board := new Board.Default();

      board.pieces[0] := White | Rook;
      board.pieces[2] := White | Knight;
      board.pieces[3] := White | Bishop;
      board.pieces[4] := White | Queen;
      board.pieces[5] := White | King;
      board.pieces[6] := White | Bishop;
      board.pieces[7] := White | Knight;
      board.pieces[8] := White | Rook;
      ghost var whiteWritten := board.pieces[..];
      board.FillEight(8, White | Pawn);

      board.pieces[56] := Black | Rook;
      board.pieces[57] := Black | Knight;
      board.pieces[58] := Black | Bishop;
      board.pieces[59] := Black | Queen;
      board.pieces[60] := Black | King;
      board.pieces[61] := Black | Bishop;
      board.pieces[62] := Black | Knight;
      board.pieces[63] := Black | Rook;
      ghost var blackWritten := board.pieces[..];
      board.FillEight(48, Black | Pawn);

      WritesGiveInitialLayout(whiteWritten, blackWritten);
    }

    /** One `for x in 0..8` loop of `Board::new`: writes `piece` to the
        eight squares from `start` on. The two loops differ only in these
        two values. */
    method FillEight(start: int, piece: bv8)
      requires Valid() && 0 <= start <= 56
      modifies pieces
      ensures pieces[..] == Filled(old(pieces[..]), start, piece)
    {
      for x := 0 to 8
        invariant forall i :: 0 <= i < 64 ==>
          pieces[i] == if start <= i < start + x then piece else old(pieces[i])
      {
        pieces[start + x] := piece;
      }
    }
  }

  /** The writes of `Board::new`, in the order the code makes them, leave the
      starting layout: later writes win, so square 8 ends up a pawn. */
  lemma WritesGiveInitialLayout(whiteWritten: seq<bv8>, blackWritten: seq<bv8>)
    requires whiteWritten == seq(64, _ => None)[0 := White | Rook][2 := White | Knight]
      [3 := White | Bishop][4 := White | Queen][5 := White | King][6 := White | Bishop]
      [7 := White | Knight][8 := White | Rook]
    requires blackWritten == Filled(whiteWritten, 8, White | Pawn)[56 := Black | Rook]
      [57 := Black | Knight][58 := Black | Bishop][59 := Black | Queen][60 := Black | King]
      [61 := Black | Bishop][62 := Black | Knight][63 := Black | Rook]
    ensures Filled(blackWritten, 48, Black | Pawn) == InitialLayout()
  {
    var done := Filled(blackWritten, 48, Black | Pawn);
    forall i | 0 <= i < 64
      ensures done[i] == StartingPiece(i)
    {
    }
  }

  // -----------------------------------------------------------------------
  // What the starting layout holds, square by square.

  /** Squares 0 and 2 to 7 hold White's rook, knight, bishop, queen, king,
      bishop and knight; square 1 is left empty. */
  lemma WhiteHomeRank()
    ensures StartingPiece(0) == White | Rook
    ensures StartingPiece(1) == None
    ensures StartingPiece(2) == White | Knight && StartingPiece(3) == White | Bishop
    ensures StartingPiece(4) == White | Queen && StartingPiece(5) == White | King
    ensures StartingPiece(6) == White | Bishop && StartingPiece(7) == White | Knight
  {
  }

  /** Squares 8 to 15 hold white pawns: the loop overwrites the rook written
      to square 8. */
  lemma WhitePawns()
    ensures forall i :: 8 <= i < 16 ==> StartingPiece(i) == White | Pawn
  {
  }

  /** Squares 48 to 55 hold black pawns and 56 to 63 Black's rook, knight,
      bishop, queen, king, bishop, knight and rook. */
  lemma BlackRanks()
    ensures forall i :: 48 <= i < 56 ==> StartingPiece(i) == Black | Pawn
    ensures StartingPiece(56) == Black | Rook && StartingPiece(57) == Black | Knight
    ensures StartingPiece(58) == Black | Bishop && StartingPiece(59) == Black | Queen
    ensures StartingPiece(60) == Black | King && StartingPiece(61) == Black | Bishop
    ensures StartingPiece(62) == Black | Knight && StartingPiece(63) == Black | Rook
  {
  }

  /** Squares 16 to 47, and square 1, are empty, and no other square is. */
  lemma EmptySquares()
    ensures forall i :: 0 <= i < 64 ==> (StartingPiece(i) == None <==> i == 1 || 16 <= i < 48)
  {
  }

  /** There is exactly one king of each colour: White's on square 5, Black's
      on square 60. */
  lemma OneKingEach()
    ensures forall i :: 0 <= i < 64 ==> (StartingPiece(i) == White | King <==> i == 5)
    ensures forall i :: 0 <= i < 64 ==> (StartingPiece(i) == Black | King <==> i == 60)
  {
  }

  // -----------------------------------------------------------------------
  // The home rank evidently intended: White's mirrors Black's.

  /** The starting layout with White's home rank in file order, as Black's
      is; every other square as `Board::new` leaves it. */
  function StandardPiece(square: int): (p: bv8)
    requires 0 <= square < 64
    ensures p != None ==> IsColour(p & ColourBits) && IsKind(p & KindBits)
    ensures p != None ==> (p & ColourBits == White <==> square < 16)
  {
    PiecesOfKinds();
    if square < 8 then White | HomeKind(square) else StartingPiece(square)
  }

  /** In the intended layout each white home square holds the same kind as
      the black square on the same file, both kings stand on file e, and only
      the four middle ranks are empty. */
  lemma StandardHomeRanksMirror()
    ensures forall f :: 0 <= f < 8 ==>
      StandardPiece(f) == White | HomeKind(f) && StandardPiece(56 + f) == Black | HomeKind(f)
    ensures forall i :: 0 <= i < 64 ==> (StandardPiece(i) == White | King <==> i == 4)
    ensures forall i :: 0 <= i < 64 ==> (StandardPiece(i) == Black | King <==> i == 60)
    ensures forall i :: 0 <= i < 64 ==> (StandardPiece(i) == None <==> 16 <= i < 48)
  {
  }

  /** As written, White's home rank does not mirror Black's: file b is empty
      where Black has a knight, and the white king stands on file f while
      the black king stands on file e. */
  lemma AsWrittenHomeRanksDiffer()
    ensures StartingPiece(1) == None && StartingPiece(57) == Black | Knight
    ensures StartingPiece(4) == White | Queen && StartingPiece(60) == Black | King
    ensures StartingPiece(5) == White | King && StartingPiece(61) == Black | Bishop
    ensures StartingPiece(1) & KindBits != StartingPiece(57) & KindBits
  {
  }
}
