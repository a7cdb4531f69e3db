/** The error values that the file and square helpers fail with. The program
    returns them boxed behind one error type; here that box is the sum
    datatype `Error`. */
module Errors {

  /** Errors raised while turning a move into text. */
  datatype MoveError = InvalidFile

  /** Errors raised while reading a square written as text. */
  datatype SquareParsingError = BadFile(file: char)

  /** Any error a helper can fail with. */
  datatype Error = Move(moveError: MoveError) | SquareParsing(parsingError: SquareParsingError)
}
