/** The knight: eight jumps of two squares one way and one square the other. */
module KnightPiece {
  import opened Wrappers
  import opened Pieces
  import opened Tiles
  import opened Moves
  import opened BoardUtils
  import opened Generation

  const CandidateMoveCoordinates: seq<int> := [-17, -15, -10, -6, 6, 10, 15, 17]

  /**
   * A knight built by the three-argument piece constructor; the first-move
   * flag that constructor supplies is the parameter defaultFirstMove.
   */
  function NewKnight(piecePosition: int, pieceAlliance: Alliance, defaultFirstMove: bool): (n: Piece)
    ensures n.pieceType == Knight && n.position == piecePosition && n.alliance == pieceAlliance
    ensures n.isFirstMove == defaultFirstMove && !n.isCastled
  {
    PlainPiece(Knight, piecePosition, pieceAlliance, defaultFirstMove)
  }

  predicate IsFirstColumnExclusion(currentPosition: int, candidateOffset: int)
    requires 0 <= currentPosition < NumTiles
  {
    FirstColumn[currentPosition] &&
    (candidateOffset == -17 || candidateOffset == -10 || candidateOffset == 6 || candidateOffset == 15)
  }

  predicate IsSecondColumnExclusion(currentPosition: int, candidateOffset: int)
    requires 0 <= currentPosition < NumTiles
  {
    SecondColumn[currentPosition] && (candidateOffset == -10 || candidateOffset == 6)
  }

  predicate IsSeventhColumnExclusion(currentPosition: int, candidateOffset: int)
    requires 0 <= currentPosition < NumTiles
  {
    SeventhColumn[currentPosition] && (candidateOffset == -6 || candidateOffset == 10)
  }

  predicate IsEighthColumnExclusion(currentPosition: int, candidateOffset: int)
    requires 0 <= currentPosition < NumTiles
  {
    EighthColumn[currentPosition] &&
    (candidateOffset == -15 || candidateOffset == -6 || candidateOffset == 10 || candidateOffset == 17)
  }

  predicate Excluded(currentPosition: int, candidateOffset: int)
    requires 0 <= currentPosition < NumTiles
  {
    IsFirstColumnExclusion(currentPosition, candidateOffset) ||
    IsSecondColumnExclusion(currentPosition, candidateOffset) ||
    IsSeventhColumnExclusion(currentPosition, candidateOffset) ||
    IsEighthColumnExclusion(currentPosition, candidateOffset)
  }

  /** For the knight's offsets, the four exclusions rule out exactly the jumps across an edge. */
  lemma ExclusionsAreWraps(c: int, offset: int)
    requires 0 <= c < NumTiles && offset in CandidateMoveCoordinates
    ensures Excluded(c, offset) <==> Wraps(c, offset)
  {
    MaskMeaning(c);
  }

  /** The moves the knight generates, one jump per offset in table order. */
  function KnightMoves(tiles: seq<Tile>, n: Piece): seq<Move>
    requires WellFormedTiles(tiles) && 0 <= n.position < NumTiles
  {
    Leaps(tiles, n, CandidateMoveCoordinates, n.position)
  }

  method CalculateLegalMoves(tiles: seq<Tile>, n: Piece) returns (legalMoves: seq<Move>)
    requires WellFormedTiles(tiles) && 0 <= n.position < NumTiles && n.pieceType == Knight
    ensures legalMoves == KnightMoves(tiles, n)
  {
    legalMoves := [];
    for i := 0 to |CandidateMoveCoordinates|
      invariant legalMoves == Leaps(tiles, n, CandidateMoveCoordinates[..i], n.position)
    {
      var currentCandidateOffset := CandidateMoveCoordinates[i];
      var candidateDestinationCoordinate := n.position + currentCandidateOffset;
      assert CandidateMoveCoordinates[..i + 1][..i] == CandidateMoveCoordinates[..i];
      if IsValidTileCoordinate(candidateDestinationCoordinate) {
        ExclusionsAreWraps(n.position, currentCandidateOffset);
        if IsFirstColumnExclusion(n.position, currentCandidateOffset) ||
           IsSecondColumnExclusion(n.position, currentCandidateOffset) ||
           IsSeventhColumnExclusion(n.position, currentCandidateOffset) ||
           IsEighthColumnExclusion(n.position, currentCandidateOffset) {
          continue;
        }
        var candidateDestinationTile := tiles[candidateDestinationCoordinate];
        if !candidateDestinationTile.IsTileOccupied() {
          legalMoves := legalMoves + [MajorMove(n, candidateDestinationCoordinate)];
        } else {
          var pieceAtDestination := candidateDestinationTile.pieceOnTile;
          if n.alliance != pieceAtDestination.alliance {
            legalMoves := legalMoves + [AttackMove(n, candidateDestinationCoordinate, pieceAtDestination)];
          }
        }
      }
    }
    assert CandidateMoveCoordinates[..|CandidateMoveCoordinates|] == CandidateMoveCoordinates;
  }

  /**
   * Every knight move lands on the board a true knight jump away (no wrap
   * across the a/h files), and is a MajorMove onto an empty square or an
   * AttackMove on the enemy piece standing there.
   */
  lemma KnightMovesSound(tiles: seq<Tile>, n: Piece, m: Move)
    requires WellFormedTiles(tiles) && 0 <= n.position < NumTiles && n.pieceType == Knight
    requires m in KnightMoves(tiles, n)
    ensures var d := m.GetDestinationCoordinate();
      m.GetMovedPiece() == Some(n) && 0 <= d < NumTiles && KnightJump(n.position, d) &&
      ((m == MajorMove(n, d) && !tiles[d].IsTileOccupied()) ||
       (HoldsEnemy(tiles, d, n.alliance) && m == AttackMove(n, d, tiles[d].pieceOnTile)))
  {
    LeapsMember(tiles, n, CandidateMoveCoordinates, n.position, m);
    var j :| 0 <= j < |CandidateMoveCoordinates| && m in Leap(tiles, n, CandidateMoveCoordinates[j], n.position);
    var o := CandidateMoveCoordinates[j];
    LeapSound(tiles, n, o, n.position, m);
    OffsetIsKnightJump(j);
    assert m.GetDestinationCoordinate() == n.position + o;
  }

  /** Each knight offset changes file by one and row by two, or file by two and row by one. */
  lemma OffsetIsKnightJump(j: int)
    requires 0 <= j < |CandidateMoveCoordinates|
    ensures var o := CandidateMoveCoordinates[j];
      (Abs(Df(o)) == 1 && Abs(Dr(o)) == 2) || (Abs(Df(o)) == 2 && Abs(Dr(o)) == 1)
  {
  }

  /** Every square a knight jump away that does not hold a piece of the knight's side is a destination. */
  lemma KnightMovesComplete(tiles: seq<Tile>, n: Piece, d: int)
    requires WellFormedTiles(tiles) && 0 <= n.position < NumTiles
    requires 0 <= d < NumTiles && KnightJump(n.position, d) && !HoldsAlly(tiles, d, n.alliance)
    ensures exists m :: m in KnightMoves(tiles, n) && m.GetDestinationCoordinate() == d
  {
    var c := n.position;
    SquareFileRow(c);
    SquareFileRow(d);
    var offset := d - c;
    var df, dr := File(d) - File(c), Row(d) - Row(c);
    assert offset == 8 * dr + df;
    var j: int :=
      if dr == -2 then (if df < 0 then 0 else 1)
      else if dr == -1 then (if df < 0 then 2 else 3)
      else if dr == 1 then (if df < 0 then 4 else 5)
      else (if df < 0 then 6 else 7);
    assert CandidateMoveCoordinates[j] == offset;
    assert Df(offset) == df;
    LeapComplete(tiles, n, offset, c);
    var m := Leap(tiles, n, offset, c)[0];
    LeapsMember(tiles, n, CandidateMoveCoordinates, c, m);
  }

  /** The knight generates at most one move per offset, so at most eight. */
  lemma KnightMovesCount(tiles: seq<Tile>, n: Piece)
    requires WellFormedTiles(tiles) && 0 <= n.position < NumTiles
    ensures |KnightMoves(tiles, n)| <= 8
  {
    LeapsLength(tiles, n, CandidateMoveCoordinates, n.position);
  }

  /** The knight after a move: a knight on the destination, of the moved piece's side. */
  function MovePiece(move: Move, defaultFirstMove: bool): (r: Piece)
    requires move.GetMovedPiece().Some?
    ensures r.pieceType == Knight && r.position == move.GetDestinationCoordinate()
    ensures r.alliance == move.GetMovedPiece().value.alliance && r.isFirstMove == defaultFirstMove
  {
    NewKnight(move.GetDestinationCoordinate(), move.GetMovedPiece().value.alliance, defaultFirstMove)
  }
}
