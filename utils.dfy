/** Helpers that translate between files as numbers, files as letters and
    square indices. A square index counts from a1 = 0 along the ranks, so
    square `s` lies on file `s % 8` and rank `s / 8`. */
module Utils {
  import opened Results
  import opened Errors

  /** The file letters, file a first. */
  const FileLetters: seq<char> := ['a', 'b', 'c', 'd', 'e', 'f', 'g', 'h']

  /** The index of the first element of `s` equal to `x`, as an iterator's
      `position` finds it. */
  function Position<T(==)>(s: seq<T>, x: T): (r: Option<nat>)
    ensures r.Some? ==> r.value < |s| && s[r.value] == x
    ensures r.Some? ==> forall j :: 0 <= j < r.value ==> s[j] != x
    ensures r.None? <==> forall j :: 0 <= j < |s| ==> s[j] != x
  {
    if |s| == 0 then None
    else if s[0] == x then Some(0)
    else match Position(s[1..], x)
      case None => None
      case Some(j) => Some(j + 1)
  }

  /** The letter of a file number; numbers past file h are an invalid file. */
  function GetFileLetter(file: bv16): (r: Result<char, Error>)
    ensures r.Ok? <==> file < 8
    ensures r.Ok? ==> r.value as int == 'a' as int + file as int
    ensures r.Err? ==> r.error == Move(InvalidFile)
  {
    if (file as int) < |FileLetters| then Ok(FileLetters[file]) else Err(Move(InvalidFile))
  }

  /** The number of a file letter; anything but a lower-case `a` to `h` is a
      bad file, reported with the offending character. */
  function GetFileNumber(file: char): (r: Result<bv16, Error>)
    ensures r.Ok? <==> 'a' <= file <= 'h'
    ensures r.Ok? ==> r.value as int == file as int - 'a' as int
    ensures r.Err? ==> r.error == SquareParsing(BadFile(file))
  {
    match Position(FileLetters, file)
    case Some(x) => FileIndexAsBits(x); Ok(x as bv16)
    case None => Err(SquareParsing(BadFile(file)))
  }

  /** The file and the rank of a square index, in that order. The program
      computes them in single-precision floating point; every `u16` is exact
      there and so are division by 8, `floor` and the product with 8, so
      integer division gives the same values. */
  function SquareToCoords(square: bv16): (coords: (bv16, bv16))
    ensures coords.0 < 8 && coords.1 < 0x2000
    ensures coords.1 * 8 + coords.0 == square
  {
    var rank := square / 8;
    var file := square - rank * 8;
    (file, rank)
  }

  /** Every file number has a letter, and reading that letter back gives the
      number again. */
  lemma FileLetterRoundTrip(file: bv16)
    requires file < 8
    ensures GetFileLetter(file).Ok?
    ensures GetFileNumber(GetFileLetter(file).value) == Ok(file)
  {
  }

  /** Every letter that reads as a file is the letter of that file. */
  lemma FileNumberRoundTrip(c: char)
    requires GetFileNumber(c).Ok?
    ensures GetFileNumber(c).value < 8
    ensures GetFileLetter(GetFileNumber(c).value) == Ok(c)
  {
    FileIndexAsBits(Position(FileLetters, c).value);
  }

  /** A file index survives the conversion to `bv16` and back. */
  lemma FileIndexAsBits(x: nat)
    requires x < 8
    ensures (x as bv16) as int == x
  {
    if x == 0 {} else if x == 1 {} else if x == 2 {} else if x == 3 {}
    else if x == 4 {} else if x == 5 {} else if x == 6 {} else {}
  }

  /** Splitting a square into file and rank is undone by `rank * 8 + file`:
      no two squares share coordinates, and every file below 8 with a rank
      that keeps the index in range is reached. */
  lemma SquareToCoordsInverse(file: bv16, rank: bv16)
    requires file < 8 && rank < 0x2000
    ensures SquareToCoords(rank * 8 + file) == (file, rank)
  {
  }

  /** The file is the remainder and the rank the quotient of the square
      index divided by 8. */
  lemma SquareToCoordsDivMod(square: bv16)
    ensures SquareToCoords(square) == (square % 8, square / 8)
  {
  }

  /** A square of the board, index 0 to 63, has a file and a rank that are
      both coordinates. */
  lemma BoardSquareCoords(square: bv16)
    requires square < 64
    ensures SquareToCoords(square).0 < 8 && SquareToCoords(square).1 < 8
  {
  }
}
