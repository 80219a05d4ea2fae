/** The bishop: slides along the four diagonals. */
module BishopPiece {
  import opened Wrappers
  import opened Pieces
  import opened Tiles
  import opened Moves
  import opened BoardUtils
  import opened Generation
  import opened Sliding

  const CandidateMoveCoordinates: seq<int> := [-9, -7, 7, 9]

  /** A bishop that has not moved yet. */
  function NewBishop(piecePosition: int, pieceAlliance: Alliance): (b: Piece)
    ensures b.pieceType == Bishop && b.position == piecePosition && b.alliance == pieceAlliance && b.isFirstMove
  {
    PlainPiece(Bishop, piecePosition, pieceAlliance, true)
  }

  predicate IsFirstColumnExclusion(currentPosition: int, candidateOffset: int)
    requires 0 <= currentPosition < NumTiles
  {
    FirstColumn[currentPosition] && (candidateOffset == 7 || candidateOffset == -9)
  }

  predicate IsEighthColumnExclusion(currentPosition: int, candidateOffset: int)
    requires 0 <= currentPosition < NumTiles
  {
    EighthColumn[currentPosition] && (candidateOffset == -7 || candidateOffset == 9)
  }

  /** For the bishop's offsets, the two exclusions stop exactly the steps across an edge. */
  lemma ExclusionsAreWraps(c: int, offset: int)
    requires 0 <= c < NumTiles && offset in CandidateMoveCoordinates
    ensures IsFirstColumnExclusion(c, offset) || IsEighthColumnExclusion(c, offset) <==> Wraps(c, offset)
  {
    MaskMeaning(c);
  }

  /** The moves the bishop generates, one ray per offset in table order. */
  function BishopMoves(tiles: seq<Tile>, b: Piece): seq<Move>
    requires WellFormedTiles(tiles) && 0 <= b.position < NumTiles
  {
    Rays(tiles, b, CandidateMoveCoordinates, b.position)
  }

  method CalculateLegalMoves(tiles: seq<Tile>, b: Piece) returns (legalMoves: seq<Move>)
    requires WellFormedTiles(tiles) && 0 <= b.position < NumTiles && b.pieceType == Bishop
    ensures legalMoves == BishopMoves(tiles, b)
  {
    legalMoves := [];
    for i := 0 to |CandidateMoveCoordinates|
      invariant legalMoves == Rays(tiles, b, CandidateMoveCoordinates[..i], b.position)
    {
      var currentCandidateOffset := CandidateMoveCoordinates[i];
      assert CandidateMoveCoordinates[..i + 1][..i] == CandidateMoveCoordinates[..i];
      var rayMoves := CalculateRay(tiles, b, currentCandidateOffset);
      legalMoves := legalMoves + rayMoves;
    }
    assert CandidateMoveCoordinates[..|CandidateMoveCoordinates|] == CandidateMoveCoordinates;
  }

  /**
   * The inner loop of the move generation: steps from the bishop in one
   * direction until an exclusion, the board's end or the first piece.
   */
  method CalculateRay(tiles: seq<Tile>, b: Piece, currentCandidateOffset: int) returns (legalMoves: seq<Move>)
    requires WellFormedTiles(tiles) && 0 <= b.position < NumTiles && b.pieceType == Bishop
    requires currentCandidateOffset in CandidateMoveCoordinates
    ensures legalMoves == Ray(tiles, b, currentCandidateOffset, b.position)
  {
    assert IsUnitOffset(currentCandidateOffset);
    legalMoves := [];
    var candidateDestinationCoordinate := b.position;
    while IsValidTileCoordinate(candidateDestinationCoordinate)
      invariant IsValidTileCoordinate(candidateDestinationCoordinate) ==>
        legalMoves + Ray(tiles, b, currentCandidateOffset, candidateDestinationCoordinate) ==
        Ray(tiles, b, currentCandidateOffset, b.position)
      invariant !IsValidTileCoordinate(candidateDestinationCoordinate) ==>
        legalMoves == Ray(tiles, b, currentCandidateOffset, b.position)
      decreases if currentCandidateOffset > 0 then NumTiles - candidateDestinationCoordinate
                else candidateDestinationCoordinate + 1
    {
      ExclusionsAreWraps(candidateDestinationCoordinate, currentCandidateOffset);
      if IsFirstColumnExclusion(candidateDestinationCoordinate, currentCandidateOffset) ||
         IsEighthColumnExclusion(candidateDestinationCoordinate, currentCandidateOffset) {
        break;
      }
      candidateDestinationCoordinate := candidateDestinationCoordinate + currentCandidateOffset;
      if IsValidTileCoordinate(candidateDestinationCoordinate) {
        var candidateDestinationTile := tiles[candidateDestinationCoordinate];
        if !candidateDestinationTile.IsTileOccupied() {
          legalMoves := legalMoves + [MajorMove(b, candidateDestinationCoordinate)];
        } else {
          var pieceAtDestination := candidateDestinationTile.pieceOnTile;
          if b.alliance != pieceAtDestination.alliance {
            legalMoves := legalMoves + [MajorAttackMove(b, candidateDestinationCoordinate, pieceAtDestination)];
          }
          break;
        }
      }
    }
  }

  /** The four rays of the bishop, one after the other. */
  lemma BishopMovesUnfold(tiles: seq<Tile>, b: Piece)
    requires WellFormedTiles(tiles) && 0 <= b.position < NumTiles
    ensures BishopMoves(tiles, b) ==
      Ray(tiles, b, -9, b.position) + Ray(tiles, b, -7, b.position) +
      Ray(tiles, b, 7, b.position) + Ray(tiles, b, 9, b.position)
  {
    RaysOfFour(tiles, b, -9, -7, 7, 9, b.position);
  }

  /**
   * Every bishop move lands on the board on a diagonal through the bishop
   * (no wrap across the a/h files), every square strictly between is empty,
   * and it is a MajorMove onto an empty square or a MajorAttackMove on the
   * enemy piece standing there.
   */
  lemma BishopMovesSound(tiles: seq<Tile>, b: Piece, m: Move)
    requires WellFormedTiles(tiles) && 0 <= b.position < NumTiles && b.pieceType == Bishop
    requires m in BishopMoves(tiles, b)
    ensures var d := m.GetDestinationCoordinate();
      m.GetMovedPiece() == Some(b) && 0 <= d < NumTiles && Diagonal(b.position, d) && PathClear(tiles, b.position, d) &&
      ((m == MajorMove(b, d) && !tiles[d].IsTileOccupied()) ||
       (HoldsEnemy(tiles, d, b.alliance) && m == MajorAttackMove(b, d, tiles[d].pieceOnTile)))
  {
    RaysMember(tiles, b, CandidateMoveCoordinates, b.position, m);
    var j :| 0 <= j < |CandidateMoveCoordinates| && m in Ray(tiles, b, CandidateMoveCoordinates[j], b.position);
    RaySound(tiles, b, CandidateMoveCoordinates[j], b.position, m);
    OnRayShape(b.position, CandidateMoveCoordinates[j], m.GetDestinationCoordinate());
  }

  /**
   * Every square on a diagonal through the bishop, reached over empty
   * squares and not holding a piece of the bishop's side, is a destination:
   * each ray stops only at the edge or at the first occupied square.
   */
  lemma BishopMovesComplete(tiles: seq<Tile>, b: Piece, d: int)
    requires WellFormedTiles(tiles) && 0 <= b.position < NumTiles && 0 <= d < NumTiles
    requires Diagonal(b.position, d) && PathClear(tiles, b.position, d) && !HoldsAlly(tiles, d, b.alliance)
    ensures exists m :: m in BishopMoves(tiles, b) && m.GetDestinationCoordinate() == d
  {
    var c := b.position;
    RayDirection(c, d);
    var offset := Direction(c, d);
    RayComplete(tiles, b, offset, c, d);
    var m :| m in Ray(tiles, b, offset, c) && m.GetDestinationCoordinate() == d;
    var j := if offset == -9 then 0 else if offset == -7 then 1 else if offset == 7 then 2 else 3;
    assert CandidateMoveCoordinates[j] == offset;
    RaysMember(tiles, b, CandidateMoveCoordinates, c, m);
  }

  /** Each ray has at most 7 moves, and the four together at most 13. */
  lemma BishopMovesCount(tiles: seq<Tile>, b: Piece)
    requires WellFormedTiles(tiles) && 0 <= b.position < NumTiles
    ensures forall offset :: offset in CandidateMoveCoordinates ==> |Ray(tiles, b, offset, b.position)| <= 7
    ensures |BishopMoves(tiles, b)| <= 13
  {
    var c := b.position;
    BishopMovesUnfold(tiles, b);
    RayLength(tiles, b, -9, c);
    RayLength(tiles, b, -7, c);
    RayLength(tiles, b, 7, c);
    RayLength(tiles, b, 9, c);
    DiagonalRaysLength(tiles, b, c);
  }

  /** The bishop after a move: a bishop on the destination, of the moved piece's side, marked as on its first move. */
  function MovePiece(move: Move): (r: Piece)
    requires move.GetMovedPiece().Some?
    ensures r.pieceType == Bishop && r.position == move.GetDestinationCoordinate()
    ensures r.alliance == move.GetMovedPiece().value.alliance && r.isFirstMove
  {
    NewBishop(move.GetDestinationCoordinate(), move.GetMovedPiece().value.alliance)
  }
}
