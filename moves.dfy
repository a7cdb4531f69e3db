/** The 16-bit move word. From the low bit up: departure file (bits 0-2),
    departure rank (3-5), target file (6-8), target rank (9-11), then the
    capture bit (12), the promotion bit (13) and the two "special" bits
    (14, 15) that tell the promotion kinds and the two castles apart.
    The program's `u16` is `bv16` here and its `u8` is `bv8`. */
module Moves {
  import opened Results

  const PromoteToKnight: bv16 := 0x2000
  const PromoteToBishop: bv16 := 0x6000
  const PromoteToRook: bv16 := 0xA000
  const PromoteToQueen: bv16 := 0xE000

  const ShortCastle: bv16 := 0x4000
  const LongCastle: bv16 := 0x8000

  const Capture: bv16 := 0x1000

  const DepartureFileMask: bv16 := 0x0007
  const DepartureRankMask: bv16 := 0x0038
  const TargetFileMask: bv16 := 0x01C0
  const TargetRankMask: bv16 := 0x0E00

  const CaptureMask: bv16 := 0x1000
  const PromotionMask: bv16 := 0x2000
  const SpecialOneMask: bv16 := 0x4000
  const SpecialTwoMask: bv16 := 0x8000

  /** The bits that carry the four coordinates. */
  const CoordinateBits: bv16 := 0x0FFF

  /** A value small enough to be one file or one rank. */
  predicate IsCoordinate(c: bv16) { c < 8 }

  /** The flag constants a caller may OR into a packed move. */
  predicate IsFlag(f: bv16) {
    f == Capture || f == PromoteToKnight || f == PromoteToBishop || f == PromoteToRook
    || f == PromoteToQueen || f == ShortCastle || f == LongCastle
  }

  /** Packs two squares, given as file and rank, into a move word. The
      coordinates are not range-checked: a value of 8 or more spills into the
      neighbouring field (see NewMoveDoesNotValidate). */
  function NewMove(departureFile: bv16, departureRank: bv16, targetFile: bv16, targetRank: bv16): (m: bv16)
    ensures IsCoordinate(departureFile) && IsCoordinate(departureRank)
            && IsCoordinate(targetFile) && IsCoordinate(targetRank) ==>
              m & !CoordinateBits == 0
              && DepartureFile(m) == departureFile as bv8
              && DepartureRank(m) == departureRank as bv8
              && TargetFile(m) == targetFile as bv8
              && TargetRank(m) == targetRank as bv8
  {
    departureFile | (departureRank << 3) | (targetFile << 6) | (targetRank << 9)
  }

  /** The departure file, bits 0-2. */
  function DepartureFile(move: bv16): (file: bv8)
    ensures file < 8
  {
    (move & DepartureFileMask) as bv8
  }

  /** The departure rank, bits 3-5. */
  function DepartureRank(move: bv16): (rank: bv8)
    ensures rank < 8
  {
    ((move & DepartureRankMask) >> 3) as bv8
  }

  /** The target file, bits 6-8. */
  function TargetFile(move: bv16): (file: bv8)
    ensures file < 8
  {
    ((move & TargetFileMask) >> 6) as bv8
  }

  /** The target rank, bits 9-11. */
  function TargetRank(move: bv16): (rank: bv8)
    ensures rank < 8
  {
    ((move & TargetRankMask) >> 9) as bv8
  }

  /** Whether the capture bit (bit 12) is set. */
  function IsCapture(move: bv16): (b: bool)
    ensures b <==> (move >> 12) & 1 == 1
  {
    (move & CaptureMask) == Capture
  }

  /** Whether the promotion bit (bit 13) is set. */
  function IsPromotion(move: bv16): (b: bool)
    ensures b <==> (move >> 13) & 1 == 1
  {
    (move & PromotionMask) == PromotionMask
  }

  /** Whether the first special bit (bit 14) is set. */
  function SpecialOne(move: bv16): (b: bool)
    ensures b <==> (move >> 14) & 1 == 1
  {
    (move & SpecialOneMask) == SpecialOneMask
  }

  /** Whether the second special bit (bit 15) is set. */
  function SpecialTwo(move: bv16): (b: bool)
    ensures b <==> (move >> 15) & 1 == 1
  {
    (move & SpecialTwoMask) == SpecialTwoMask
  }

  // ---------------------------------------------------------------------
  // A reference reading of the top nibble, used to state the round trip.

  datatype PromotionKind = ToKnight | ToBishop | ToRook | ToQueen

  /** What the promotion and special bits of a move say, apart from capture. */
  datatype Special = Quiet | Promote(kind: PromotionKind) | CastleShort | CastleLong

  /** The flag constant that marks each kind of special move. */
  function FlagOf(s: Special): (f: bv16)
    ensures f & (CoordinateBits | Capture) == 0
    ensures s != Quiet ==> IsFlag(f)
  {
    match s
    case Quiet => 0
    case Promote(ToKnight) => PromoteToKnight
    case Promote(ToBishop) => PromoteToBishop
    case Promote(ToRook) => PromoteToRook
    case Promote(ToQueen) => PromoteToQueen
    case CastleShort => ShortCastle
    case CastleLong => LongCastle
  }

  /** Reads the special-move kind back through the accessors: with the
      promotion bit set, special one and special two pick the piece; without
      it, exactly one special bit set is a castle. Both special bits set
      without the promotion bit is no move kind the program defines. */
  function SpecialOf(move: bv16): (s: Option<Special>)
    ensures s.Some? && s.value.Promote? <==> IsPromotion(move)
    ensures s == Some(CastleShort) <==> !IsPromotion(move) && SpecialOne(move) && !SpecialTwo(move)
    ensures s == Some(CastleLong) <==> !IsPromotion(move) && !SpecialOne(move) && SpecialTwo(move)
    ensures s == Some(Quiet) <==> !IsPromotion(move) && !SpecialOne(move) && !SpecialTwo(move)
    ensures s.None? <==> !IsPromotion(move) && SpecialOne(move) && SpecialTwo(move)
  {
    if IsPromotion(move) then
      Some(Promote(
        match (SpecialOne(move), SpecialTwo(move))
        case (false, false) => ToKnight
        case (true, false) => ToBishop
        case (false, true) => ToRook
        case (true, true) => ToQueen))
    else if SpecialOne(move) && SpecialTwo(move) then None
    else if SpecialOne(move) then Some(CastleShort)
    else if SpecialTwo(move) then Some(CastleLong)
    else Some(Quiet)
  }

  // ---------------------------------------------------------------------
  // Properties of the codec.

  /** A freshly packed move has no flag bit set. */
  lemma NewMoveHasNoFlags(df: bv16, dr: bv16, tf: bv16, tr: bv16)
    requires IsCoordinate(df) && IsCoordinate(dr) && IsCoordinate(tf) && IsCoordinate(tr)
    ensures var m := NewMove(df, dr, tf, tr);
            !IsCapture(m) && !IsPromotion(m) && !SpecialOne(m) && !SpecialTwo(m)
            && SpecialOf(m) == Some(Quiet)
  {
  }

  /** Without the range condition the round trip fails: a departure file of
      8 reads back as file 0, rank 1. */
  lemma NewMoveDoesNotValidate()
    ensures DepartureFile(NewMove(8, 0, 0, 0)) == 0
    ensures DepartureRank(NewMove(8, 0, 0, 0)) == 1
  {
  }

  /** OR-ing a flag constant into any move leaves its coordinates alone. */
  lemma FlagKeepsCoordinates(move: bv16, f: bv16)
    requires IsFlag(f)
    ensures DepartureFile(move | f) == DepartureFile(move)
    ensures DepartureRank(move | f) == DepartureRank(move)
    ensures TargetFile(move | f) == TargetFile(move)
    ensures TargetRank(move | f) == TargetRank(move)
  {
  }

  /** The other direction of the round trip: every move word is the
      re-packing of its four decoded coordinates, plus its flag bits. */
  lemma RepackDecoded(move: bv16)
    ensures NewMove(DepartureFile(move) as bv16, DepartureRank(move) as bv16,
                    TargetFile(move) as bv16, TargetRank(move) as bv16)
            | (move & !CoordinateBits) == move
  {
  }

  /** The capture test looks at bit 12 only. */
  lemma CaptureIsBitTwelve(move: bv16, other: bv16)
    requires (move ^ other) & CaptureMask == 0
    ensures IsCapture(move) == IsCapture(other)
    ensures IsCapture(move | Capture)
    ensures !IsCapture(move & !Capture)
  {
  }

  /** The promotion constants are promotions and the special bits tell the
      four kinds apart; the castles and the capture flag are not promotions. */
  lemma FlagReadings()
    ensures IsPromotion(PromoteToKnight) && !SpecialOne(PromoteToKnight) && !SpecialTwo(PromoteToKnight)
    ensures IsPromotion(PromoteToBishop) && SpecialOne(PromoteToBishop) && !SpecialTwo(PromoteToBishop)
    ensures IsPromotion(PromoteToRook) && !SpecialOne(PromoteToRook) && SpecialTwo(PromoteToRook)
    ensures IsPromotion(PromoteToQueen) && SpecialOne(PromoteToQueen) && SpecialTwo(PromoteToQueen)
    ensures !IsPromotion(ShortCastle) && SpecialOne(ShortCastle) && !SpecialTwo(ShortCastle)
    ensures !IsPromotion(LongCastle) && !SpecialOne(LongCastle) && SpecialTwo(LongCastle)
    ensures !IsPromotion(Capture) && !SpecialOne(Capture) && !SpecialTwo(Capture) && IsCapture(Capture)
    ensures !IsCapture(PromoteToQueen) && !IsCapture(ShortCastle) && !IsCapture(LongCastle)
  {
  }

  /** Splitting a move into its coordinate bits and its flag bits: the
      accessors of each half read their own bits only. */
  lemma SplitBits(low: bv16, flags: bv16)
    requires low & !CoordinateBits == 0 && flags & CoordinateBits == 0
    ensures var m := low | flags;
            DepartureFile(m) == DepartureFile(low) && DepartureRank(m) == DepartureRank(low)
            && TargetFile(m) == TargetFile(low) && TargetRank(m) == TargetRank(low)
            && IsCapture(m) == IsCapture(flags) && IsPromotion(m) == IsPromotion(flags)
            && SpecialOne(m) == SpecialOne(flags) && SpecialTwo(m) == SpecialTwo(flags)
  {
  }

  /** The special-move kind depends on the three top bits only. */
  lemma SpecialOfReadsTopBits(a: bv16, b: bv16)
    requires IsPromotion(a) == IsPromotion(b)
    requires SpecialOne(a) == SpecialOne(b) && SpecialTwo(a) == SpecialTwo(b)
    ensures SpecialOf(a) == SpecialOf(b)
  {
  }

  /** Each flag word, with or without the capture bit, decodes to itself. */
  lemma FlagsRoundTrip(s: Special, capture: bool)
    ensures var flags := FlagOf(s) | (if capture then Capture else 0);
            flags & CoordinateBits == 0 && IsCapture(flags) == capture && SpecialOf(flags) == Some(s)
  {
    match s
    case Quiet =>
    case Promote(k) =>
    case CastleShort =>
    case CastleLong =>
  }

  /** Any coordinate bits under a flag word leave its reading unchanged. */
  lemma {:induction false} FlagsOverCoordinates(low: bv16, s: Special, capture: bool)
    requires low & !CoordinateBits == 0
    ensures var m := low | FlagOf(s) | (if capture then Capture else 0);
            DepartureFile(m) == DepartureFile(low) && DepartureRank(m) == DepartureRank(low)
            && TargetFile(m) == TargetFile(low) && TargetRank(m) == TargetRank(low)
            && IsCapture(m) == capture && SpecialOf(m) == Some(s)
  {
    var flags := FlagOf(s) | (if capture then Capture else 0);
    FlagsRoundTrip(s, capture);
    assert low | FlagOf(s) | (if capture then Capture else 0) == low | flags;
    SplitBits(low, flags);
    SpecialOfReadsTopBits(low | flags, flags);
  }

  /** The full round trip: packing four coordinates, a special-move kind and
      an optional capture, then decoding, gives back every one of them. */
  lemma RoundTrip(df: bv16, dr: bv16, tf: bv16, tr: bv16, s: Special, capture: bool)
    requires IsCoordinate(df) && IsCoordinate(dr) && IsCoordinate(tf) && IsCoordinate(tr)
    ensures var m := NewMove(df, dr, tf, tr) | FlagOf(s) | (if capture then Capture else 0);
            DepartureFile(m) == df as bv8 && DepartureRank(m) == dr as bv8
            && TargetFile(m) == tf as bv8 && TargetRank(m) == tr as bv8
            && IsCapture(m) == capture && SpecialOf(m) == Some(s)
  {
    FlagsOverCoordinates(NewMove(df, dr, tf, tr), s, capture);
  }
}
