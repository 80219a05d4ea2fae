/** The king: one step in each of the eight directions. */
module KingPiece {
  import opened Wrappers
  import opened Pieces
  import opened Tiles
  import opened Moves
  import opened BoardUtils
  import opened Generation

  const CandidateMoveCoordinates: seq<int> := [-9, -8, -7, -1, 1, 7, 8, 9]

  /** A king that has not moved yet, with the given castling rights. */
  function NewKing(piecePosition: int, pieceAlliance: Alliance,
                   kingSideCastleCapable: bool, queenSideCastleCapable: bool): (k: Piece)
    ensures k.pieceType == King && k.position == piecePosition && k.alliance == pieceAlliance
    ensures k.isFirstMove && !k.isCastled
    ensures k.kingSideCastleCapable == kingSideCastleCapable && k.queenSideCastleCapable == queenSideCastleCapable
  {
    Piece(King, piecePosition, pieceAlliance, true, false, kingSideCastleCapable, queenSideCastleCapable)
  }

  /** A king with every flag given explicitly. */
  function NewKingWithFlags(piecePosition: int, pieceAlliance: Alliance, isFirstMove: bool, isCastled: bool,
                            kingSideCastleCapable: bool, queenSideCastleCapable: bool): (k: Piece)
    ensures k.pieceType == King && k.position == piecePosition && k.alliance == pieceAlliance
    ensures k.isFirstMove == isFirstMove && k.isCastled == isCastled
    ensures k.kingSideCastleCapable == kingSideCastleCapable && k.queenSideCastleCapable == queenSideCastleCapable
  {
    Piece(King, piecePosition, pieceAlliance, isFirstMove, isCastled, kingSideCastleCapable, queenSideCastleCapable)
  }

  predicate IsFirstColumnExclusion(currentPosition: int, candidateOffset: int)
    requires 0 <= currentPosition < NumTiles
  {
    FirstColumn[currentPosition] && (candidateOffset == -1 || candidateOffset == 7 || candidateOffset == -9)
  }

  predicate IsEighthColumnExclusion(currentPosition: int, candidateOffset: int)
    requires 0 <= currentPosition < NumTiles
  {
    EighthColumn[currentPosition] && (candidateOffset == 1 || candidateOffset == -7 || candidateOffset == 9)
  }

  /** For the king's offsets, the two exclusions rule out exactly the steps across an edge. */
  lemma ExclusionsAreWraps(c: int, offset: int)
    requires 0 <= c < NumTiles && offset in CandidateMoveCoordinates
    ensures IsFirstColumnExclusion(c, offset) || IsEighthColumnExclusion(c, offset) <==> Wraps(c, offset)
  {
    MaskMeaning(c);
  }

  /** The moves the king generates, one step per offset in table order. */
  function KingMoves(tiles: seq<Tile>, k: Piece): seq<Move>
    requires WellFormedTiles(tiles) && 0 <= k.position < NumTiles
  {
    Leaps(tiles, k, CandidateMoveCoordinates, k.position)
  }

  method CalculateLegalMoves(tiles: seq<Tile>, k: Piece) returns (legalMoves: seq<Move>)
    requires WellFormedTiles(tiles) && 0 <= k.position < NumTiles && k.pieceType == King
    ensures legalMoves == KingMoves(tiles, k)
  {
    legalMoves := [];
    for i := 0 to |CandidateMoveCoordinates|
      invariant legalMoves == Leaps(tiles, k, CandidateMoveCoordinates[..i], k.position)
    {
      var currentCandidateOffset := CandidateMoveCoordinates[i];
      var candidateDestinationCoordinate := k.position + currentCandidateOffset;
      assert CandidateMoveCoordinates[..i + 1][..i] == CandidateMoveCoordinates[..i];
      if IsValidTileCoordinate(candidateDestinationCoordinate) {
        var candidateDestinationTile := tiles[candidateDestinationCoordinate];
        ExclusionsAreWraps(k.position, currentCandidateOffset);
        if IsFirstColumnExclusion(k.position, currentCandidateOffset) ||
           IsEighthColumnExclusion(k.position, currentCandidateOffset) {
          continue;
        }
        if !candidateDestinationTile.IsTileOccupied() {
          legalMoves := legalMoves + [MajorMove(k, candidateDestinationCoordinate)];
        } else {
          var pieceAtDestination := candidateDestinationTile.pieceOnTile;
          if k.alliance != pieceAtDestination.alliance {
            legalMoves := legalMoves + [MajorAttackMove(k, candidateDestinationCoordinate, pieceAtDestination)];
          }
        }
      }
    }
    assert CandidateMoveCoordinates[..|CandidateMoveCoordinates|] == CandidateMoveCoordinates;
  }

  /**
   * Every king move lands on the board one king step away (no wrap across
   * the a/h files), is never a castle, and is a MajorMove onto an empty
   * square or a MajorAttackMove on the enemy piece standing there.
   */
  lemma KingMovesSound(tiles: seq<Tile>, k: Piece, m: Move)
    requires WellFormedTiles(tiles) && 0 <= k.position < NumTiles && k.pieceType == King
    requires m in KingMoves(tiles, k)
    ensures var d := m.GetDestinationCoordinate();
      m.GetMovedPiece() == Some(k) && 0 <= d < NumTiles && KingStep(k.position, d) && !m.IsCastlingMove() &&
      ((m == MajorMove(k, d) && !tiles[d].IsTileOccupied()) ||
       (HoldsEnemy(tiles, d, k.alliance) && m == MajorAttackMove(k, d, tiles[d].pieceOnTile)))
  {
    LeapsMember(tiles, k, CandidateMoveCoordinates, k.position, m);
    var j :| 0 <= j < |CandidateMoveCoordinates| && m in Leap(tiles, k, CandidateMoveCoordinates[j], k.position);
    var o := CandidateMoveCoordinates[j];
    LeapSound(tiles, k, o, k.position, m);
    OffsetIsKingStep(j);
    var d := k.position + o;
    assert KingStep(k.position, d);
    if tiles[d].IsTileOccupied() {
      assert m == Capture(k, d, tiles[d].pieceOnTile) == MajorAttackMove(k, d, tiles[d].pieceOnTile);
    }
  }

  /** Each king offset changes file and row by at most one, and not both by zero. */
  lemma OffsetIsKingStep(j: int)
    requires 0 <= j < |CandidateMoveCoordinates|
    ensures var o := CandidateMoveCoordinates[j];
      -1 <= Df(o) <= 1 && -1 <= Dr(o) <= 1 && o != 0
  {
  }

  /** Every square one king step away that does not hold a piece of the king's side is a destination. */
  lemma KingMovesComplete(tiles: seq<Tile>, k: Piece, d: int)
    requires WellFormedTiles(tiles) && 0 <= k.position < NumTiles
    requires 0 <= d < NumTiles && KingStep(k.position, d) && !HoldsAlly(tiles, d, k.alliance)
    ensures exists m :: m in KingMoves(tiles, k) && m.GetDestinationCoordinate() == d
  {
    var c := k.position;
    SquareFileRow(c);
    SquareFileRow(d);
    var offset := d - c;
    var j: int;
    var df, dr := File(d) - File(c), Row(d) - Row(c);
    assert offset == 8 * dr + df;
    if dr == -1 {
      j := df + 1;
    } else if dr == 0 {
      j := if df < 0 then 3 else 4;
    } else {
      j := df + 6;
    }
    assert CandidateMoveCoordinates[j] == offset;
    assert Df(offset) == df;
    LeapComplete(tiles, k, offset, c);
    var m := Leap(tiles, k, offset, c)[0];
    LeapsMember(tiles, k, CandidateMoveCoordinates, c, m);
  }

  /** The king generates at most one move per offset, so at most eight. */
  lemma KingMovesCount(tiles: seq<Tile>, k: Piece)
    requires WellFormedTiles(tiles) && 0 <= k.position < NumTiles
    ensures |KingMoves(tiles, k)| <= 8
  {
    LeapsLength(tiles, k, CandidateMoveCoordinates, k.position);
  }

  /**
   * The king after a move: on the destination, same side, no longer on its
   * first move, castled exactly when the move was a castle, and with both
   * castling rights gone.
   */
  function MovePiece(k: Piece, move: Move): (r: Piece)
    ensures r.pieceType == King && r.position == move.GetDestinationCoordinate() && r.alliance == k.alliance
    ensures !r.isFirstMove && r.isCastled == move.IsCastlingMove()
    ensures !r.kingSideCastleCapable && !r.queenSideCastleCapable
  {
    NewKingWithFlags(move.GetDestinationCoordinate(), k.alliance, false, move.IsCastlingMove(), false, false)
  }
}
