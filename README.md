# Chess engine core: move words, piece codes, the starting board, file helpers

This project models the data encodings of a small chess engine and the routine that sets up its starting board:

- **Move words** (module `Moves`). A move is a 16-bit word. From the low bit up, it holds:
  - the departure file and rank, 3 bits each;
  - the target file and rank, 3 bits each;
  - a capture bit, a promotion bit and two "special" bits.

  The special bits name the promotion piece, or they mark one of the two castles. `new_move` packs the four coordinates, and one accessor per field masks and shifts each back out. The program's `u16` is `bv16` and its `u8` is `bv8`.
- **Piece codes** (module `Pieces`). A piece is one byte. It is a colour (White `0x10`, Black `0x20`) OR-ed with a kind (Pawn 1 … King 6). An empty square is 0.
- **The board** (module `Boards`). `Board` owns a 64-entry array of piece codes, indexed by rank × 8 + file:
  - `Board::default` fills the array with empty squares.
  - `Board::new` writes White's pieces to squares 0 and 2 to 8 one at a time, then White's pawns to squares 8 to 15 in an eight-step loop, then Black's pieces to squares 56 to 63 one at a time, then Black's pawns to squares 48 to 55 in a second loop.

  The model is a class over an `array<bv8>`. Each method is proved against a function on the array contents. `InitialLayout`/`StartingPiece` state what is on each square afterwards.
- **File helpers** (module `Utils`):
  - Conversion between file numbers 0–7 and letters `a`–`h`, with the program's error values when the input is out of range.
  - Splitting a square index into its file and rank.
- `Results` holds the `Option`/`Result` datatypes. `Errors` holds the error values the helpers return.

## Model

| member | source | states |
|---|---|---|
| Moves.NewMove | src/moves.rs:35-42 | when all four coordinates are below 8, the packed word has no bit at or above bit 12 and each accessor returns its own coordinate |
| Moves.DepartureFile | src/moves.rs:44-46 | the departure file is below 8, whatever the word |
| Moves.DepartureRank | src/moves.rs:48-50 | the departure rank is below 8, whatever the word |
| Moves.TargetFile | src/moves.rs:52-54 | the target file is below 8, whatever the word |
| Moves.TargetRank | src/moves.rs:56-58 | the target rank is below 8, whatever the word |
| Moves.FlagOf | src/moves.rs:13-19 | every promotion and castle constant leaves the coordinate bits and the capture bit clear |
| Moves.SpecialOf | src/moves.rs:64-74 | the decoded kind is a promotion exactly when the promotion bit is set; without it, a short castle exactly when only special one is set, a long castle exactly when only special two is set, and a quiet move exactly when no flag bit of the three is set; a word with both special bits and no promotion bit decodes to no kind |
| Moves.IsCapture | src/moves.rs:60-62 | true exactly when bit 12 of the word is set |
| Moves.IsPromotion | src/moves.rs:64-66 | true exactly when bit 13 of the word is set |
| Moves.SpecialOne | src/moves.rs:68-70 | true exactly when bit 14 of the word is set |
| Moves.SpecialTwo | src/moves.rs:72-74 | true exactly when bit 15 of the word is set |
| Moves.NewMoveHasNoFlags | src/moves.rs:35-74 | a packed move of in-range coordinates is no capture, no promotion, has neither special bit and reads as a quiet move |
| Moves.NewMoveDoesNotValidate | src/moves.rs:35-46 | coordinates are not range-checked: a departure file of 8 reads back as file 0, rank 1 |
| Moves.FlagKeepsCoordinates | src/moves.rs:13-58 | OR-ing any flag constant into any word leaves all four coordinates unchanged |
| Moves.RepackDecoded | src/moves.rs:35-58 | every word equals the re-packing of its four decoded coordinates OR its flag bits |
| Moves.CaptureIsBitTwelve | src/moves.rs:60-62 | the capture test depends on bit 12 alone: it is true once that bit is set, false once it is cleared, and words that agree on it agree on the test |
| Moves.FlagReadings | src/moves.rs:13-74 | the four promotion constants are promotions, with knight/bishop/rook/queen read as special bits (F,F)/(T,F)/(F,T)/(T,T); the short castle has only special one set and the long castle only special two; neither castle nor the capture flag is a promotion |
| Moves.SplitBits | src/moves.rs:23-74 | in a word made of coordinate bits OR flag bits, each accessor reads only its own half |
| Moves.SpecialOfReadsTopBits | src/moves.rs:64-74 | the special-move kind depends only on the promotion bit and the two special bits |
| Moves.FlagsRoundTrip | src/moves.rs:13-74 | every flag word, with or without the capture bit, decodes to its own kind and capture |
| Moves.FlagsOverCoordinates | src/moves.rs:23-74 | coordinate bits under a flag word change neither its coordinates' reading nor its kind or capture |
| Moves.RoundTrip | src/moves.rs:13-74 | packing four in-range coordinates plus a kind and an optional capture, then decoding, gives back all six parts |
| Pieces.KindsAreDistinct | src/piece.rs:7-14 | the kinds are exactly the values 1 to 6: below 16, never empty, clear of the colour bits |
| Pieces.ColoursAreDisjoint | src/piece.rs:2-17 | White and Black share no bit with each other or with any kind |
| Pieces.PieceLayout | src/piece.rs:2-17 | a colour OR-ed with a kind gives back the kind under the low four bits and the colour under bits 4-5, is below 64 and is never the empty square |
| Pieces.PieceInjective | src/piece.rs:7-17 | two colour-and-kind pairs give the same byte exactly when they are the same pair |
| Boards.HomeKind | src/board.rs:23-30 | the home-rank kinds in file order a to h: rook, knight, bishop, queen, king, bishop, knight, rook; none is a pawn |
| Boards.StartingPiece | src/board.rs:9-33 | what `Board::new` leaves on each square: every non-empty square holds a colour and a kind, and it is White's exactly when it lies on the first two ranks |
| Boards.InitialLayout | src/board.rs:9-33 | the sequence form of `StartingPiece`: 64 squares, each holding what `StartingPiece` gives for it |
| Boards.Filled | src/board.rs:19-21 | one pawn loop writes its piece to the eight squares from its start and leaves every other square alone |
| Boards.Board.Default | src/board.rs:39-43 | the default board has 64 squares, all empty |
| Boards.Board.New | src/board.rs:8-36 | the new board's 64 squares are exactly the starting layout, in a fresh array |
| Boards.Board.FillEight | src/board.rs:19-21 | the array afterwards is the old contents with the eight squares from `start` set to `piece` |
| Boards.WritesGiveInitialLayout | src/board.rs:9-33 | the default squares, updated by the program's writes in its order, end up as the starting layout |
| Boards.WhiteHomeRank | src/board.rs:11-17 | squares 0 and 2 to 7 hold White's rook, knight, bishop, queen, king, bishop and knight; square 1 stays empty |
| Boards.WhitePawns | src/board.rs:18-21 | squares 8 to 15 hold white pawns, so the rook written to square 8 is gone |
| Boards.BlackRanks | src/board.rs:23-33 | squares 48 to 55 hold black pawns, and squares 56 to 63 hold Black's rook, knight, bishop, queen, king, bishop, knight and rook |
| Boards.EmptySquares | src/board.rs:9-33 | a square is empty exactly when it is square 1 or one of squares 16 to 47 |
| Boards.OneKingEach | src/board.rs:15-27 | the white king is on square 5 and nowhere else; the black king is on square 60 and nowhere else |
| Boards.AsWrittenHomeRanksDiffer | src/board.rs:11-30 | the white home rank as written does not mirror the black one: file b is empty opposite a black knight, the white queen and king stand one file right of the black ones |
| Boards.StandardPiece | src/board.rs:11-30 | the corrected layout, with White's home rank in file order: every non-empty square holds a colour and a kind, White's exactly on the first two ranks |
| Boards.StandardHomeRanksMirror | src/board.rs:23-30 | in the corrected layout each white home square holds the kind of the black square on its file, both kings are on file e, and only squares 16 to 47 are empty |
| Utils.Position | src/utils.rs:17-18 | the index found holds the sought value and no earlier index does; none is found exactly when no element matches |
| Utils.GetFileLetter | src/utils.rs:6-13 | succeeds exactly for files below 8, giving the letter `a` + file; otherwise fails with an invalid file |
| Utils.GetFileNumber | src/utils.rs:15-21 | succeeds exactly for `a` to `h`, giving the letter's distance from `a`; otherwise fails with a bad file carrying the character |
| Utils.FileLetterRoundTrip | src/utils.rs:6-21 | every file below 8 has a letter and reads back from it as the same number |
| Utils.FileNumberRoundTrip | src/utils.rs:6-21 | a letter that reads as a file has a number below 8, whose letter is that letter again |
| Utils.SquareToCoords | src/utils.rs:23-28 | the file is below 8, the rank below 8192, and rank × 8 + file is the square |
| Utils.SquareToCoordsDivMod | src/utils.rs:23-28 | the file is the square modulo 8, and the rank is the square divided by 8 |
| Utils.SquareToCoordsInverse | src/utils.rs:23-28 | splitting rank × 8 + file, for any file below 8 and any rank that keeps the index in range, gives back that file and that rank |
| Utils.BoardSquareCoords | src/utils.rs:23-28 | both coordinates of a board square (0 to 63) are below 8 |

## Left out

- The functions the program's entry point calls: FEN parsing (`from_fen`), move generation (`generate_moves`), board printing (`stringify`) and making or undoing a move. Their definitions are not part of this model.
- `src/main.rs` only builds a board and prints to the console. Console output is not modelled.
- `src/castling_rights.rs`: eight constants that no modelled code reads.
- `src/errors.rs` declares only `FenError`. The `MoveError::InvalidFile` and `SquareParsingError::BadFile` values used by `src/utils.rs` are defined elsewhere and not part of this model; module `Errors` declares them as the helpers use them. The boxing of errors behind one dynamic error type becomes the sum datatype `Errors.Error`.
- Utils.SquareToCoords: the program computes in single-precision floating point. Every `u16`, its quotient by 8 and the product back are exact in `f32`, so integer division gives the same file and rank. Floating point itself is not modelled.
- Pieces: some comments beside the piece constants give other values (for example `0111` for the king, `8` for White). The model uses the literal values the code compiles to.
- Boards.Board.FillEight: the two pawn loops of `Board::new` are one method called twice. The loops differ only in the start square and the piece. The `usize` loop counter becomes an `int`.

## Findings

| source | as written | input that shows it | evidently intended | confidence | as-written member | corrected member |
|---|---|---|---|---|---|---|
| src/board.rs:11-18 | White's home pieces are written to squares 0 and 2 to 8, one square right of their files from the knight on; square 1 is never written, and the second rook, on square 8, is overwritten by the first pawn | `Board::new()`: square 1 (b1) is empty, the white queen is on square 4 (e1) and the white king on square 5 (f1), while the black king is on square 60 (e8) | squares 0 to 7 hold rook, knight, bishop, queen, king, bishop, knight, rook, as Black's squares 56 to 63 do | not executed | Boards.AsWrittenHomeRanksDiffer | Boards.StandardPiece, Boards.StandardHomeRanksMirror |
