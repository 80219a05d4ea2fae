/**
 * What the move generators of all six pieces share: the capture each piece
 * type builds, the test for a step that would leave the board through its
 * left or right edge, and the single step by one offset that the king and the
 * knight take once per entry of their offset tables.
 */
module Generation {
  import opened Wrappers
  import opened Pieces
  import opened Tiles
  import opened Moves
  import opened BoardUtils

  /** Stepping by the offset from c would cross the a-file or the h-file edge. */
  predicate Wraps(c: int, offset: int) {
    !(0 <= File(c) + Df(offset) < 8)
  }

  /**
   * The capture each piece builds: a pawn a PawnAttackMove, the knight and the
   * rook an AttackMove, the bishop, the queen and the king a MajorAttackMove.
   */
  function Capture(p: Piece, d: int, q: Piece): (m: Move)
    ensures m.IsAttack() && m.IsAttackMoveInstance() && !m.EnPassantMove? && !m.IsCastlingMove()
    ensures m.GetAttackedPiece() == Some(q) && m.GetMovedPiece() == Some(p) && m.GetDestinationCoordinate() == d
  {
    match p.pieceType
    case Pawn => PawnAttackMove(p, d, q)
    case Knight => AttackMove(p, d, q)
    case Rook => AttackMove(p, d, q)
    case _ => MajorAttackMove(p, d, q)
  }

  /**
   * The move a piece on c makes by one offset: none off the board or across an
   * edge, a quiet move onto an empty square, a capture of an enemy piece, and
   * none onto a piece of its own side.
   */
  function Leap(tiles: seq<Tile>, p: Piece, offset: int, c: int): (ms: seq<Move>)
    requires WellFormedTiles(tiles) && 0 <= c < NumTiles
    ensures |ms| <= 1
  {
    var d := c + offset;
    if !IsValidTileCoordinate(d) || Wraps(c, offset) then []
    else if !tiles[d].IsTileOccupied() then [MajorMove(p, d)]
    else if tiles[d].pieceOnTile.alliance != p.alliance then [Capture(p, d, tiles[d].pieceOnTile)]
    else []
  }

  /** The steps by every offset of a table, in table order. */
  function Leaps(tiles: seq<Tile>, p: Piece, offsets: seq<int>, c: int): seq<Move>
    requires WellFormedTiles(tiles) && 0 <= c < NumTiles
  {
    if offsets == [] then []
    else Leaps(tiles, p, offsets[..|offsets| - 1], c) + Leap(tiles, p, offsets[|offsets| - 1], c)
  }

  /**
   * A step lands on the board, moves by exactly the offset's file and row
   * changes, and is a quiet move onto an empty square or a capture of the
   * enemy piece there.
   */
  lemma LeapSound(tiles: seq<Tile>, p: Piece, offset: int, c: int, m: Move)
    requires WellFormedTiles(tiles) && 0 <= c < NumTiles
    requires m in Leap(tiles, p, offset, c)
    ensures var d := c + offset;
      m.GetDestinationCoordinate() == d && m.GetMovedPiece() == Some(p) &&
      0 <= d < NumTiles && !Wraps(c, offset) &&
      File(d) == File(c) + Df(offset) && Row(d) == Row(c) + Dr(offset) &&
      ((m == MajorMove(p, d) && !tiles[d].IsTileOccupied()) ||
       (HoldsEnemy(tiles, d, p.alliance) && m == Capture(p, d, tiles[d].pieceOnTile)))
  {
    OffsetStep(c, offset);
  }

  /** A step onto the board, not across an edge and not onto an own piece, is made. */
  lemma LeapComplete(tiles: seq<Tile>, p: Piece, offset: int, c: int)
    requires WellFormedTiles(tiles) && 0 <= c < NumTiles
    requires 0 <= c + offset < NumTiles && !Wraps(c, offset) && !HoldsAlly(tiles, c + offset, p.alliance)
    ensures |Leap(tiles, p, offset, c)| == 1
    ensures Leap(tiles, p, offset, c)[0].GetDestinationCoordinate() == c + offset
  {
  }

  /** A move is among the steps of a table exactly when one entry of the table makes it. */
  lemma {:induction false} LeapsMember(tiles: seq<Tile>, p: Piece, offsets: seq<int>, c: int, m: Move)
    requires WellFormedTiles(tiles) && 0 <= c < NumTiles
    ensures m in Leaps(tiles, p, offsets, c) <==>
      exists j :: 0 <= j < |offsets| && m in Leap(tiles, p, offsets[j], c)
  {
    if offsets != [] {
      var init := offsets[..|offsets| - 1];
      LeapsMember(tiles, p, init, c, m);
      if m in Leaps(tiles, p, offsets, c) && !(m in Leaps(tiles, p, init, c)) {
        assert m in Leap(tiles, p, offsets[|offsets| - 1], c);
      }
      if j :| 0 <= j < |offsets| && m in Leap(tiles, p, offsets[j], c) {
        if j < |offsets| - 1 {
          assert init[j] == offsets[j];
        }
      }
    }
  }

  /** A table of n offsets yields at most n steps. */
  lemma {:induction false} LeapsLength(tiles: seq<Tile>, p: Piece, offsets: seq<int>, c: int)
    requires WellFormedTiles(tiles) && 0 <= c < NumTiles
    ensures |Leaps(tiles, p, offsets, c)| <= |offsets|
  {
    if offsets != [] {
      LeapsLength(tiles, p, offsets[..|offsets| - 1], c);
    }
  }
}
