/**
 * The piece values shared by every part of the engine: the two sides, the
 * six piece types and an immutable piece standing on a square.
 */
module Pieces {

  /**
   * The two sides. White's pawns advance toward lower square numbers
   * (direction -1), Black's toward higher ones (direction +1).
   */
  datatype Alliance = White | Black {
    function Direction(): int { if White? then -1 else 1 }
    predicate IsWhite() { White? }
    predicate IsBlack() { Black? }
    function Opponent(): Alliance { if White? then Black else White }
  }

  datatype PieceType = Pawn | Knight | Bishop | Rook | Queen | King {
    /** The letter a piece type prints as. */
    function Letter(): string {
      match this
      case Pawn => "P"
      case Knight => "N"
      case Bishop => "B"
      case Rook => "R"
      case Queen => "Q"
      case King => "K"
    }
    predicate IsRook() { Rook? }
  }

  /**
   * A piece: its type, the square it stands on, its side and whether it is
   * still on its first move. The last three flags only mean something for a
   * king (castled, and the two castling rights); other pieces carry false.
   */
  datatype Piece = Piece(
    pieceType: PieceType,
    position: int,
    alliance: Alliance,
    isFirstMove: bool,
    isCastled: bool,
    kingSideCastleCapable: bool,
    queenSideCastleCapable: bool)

  /** A non-king piece as the piece constructors build it. */
  function PlainPiece(t: PieceType, position: int, alliance: Alliance, isFirstMove: bool): (p: Piece)
    requires t != King
    ensures p.pieceType == t && p.position == position && p.alliance == alliance && p.isFirstMove == isFirstMove
    ensures !p.isCastled && !p.kingSideCastleCapable && !p.queenSideCastleCapable
  {
    Piece(t, position, alliance, isFirstMove, false, false, false)
  }
}
