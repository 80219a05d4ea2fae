/** The queen: slides along its file, its rank and its two diagonals. */
module QueenPiece {
  import opened Wrappers
  import opened Pieces
  import opened Tiles
  import opened Moves
  import opened BoardUtils
  import opened Generation
  import opened Sliding

  const CandidateMoveCoordinates: seq<int> := [-9, -8, -7, -1, 1, 7, 8, 9]

  /** A queen that has not moved yet. */
  function NewQueen(piecePosition: int, pieceAlliance: Alliance): (q: Piece)
    ensures q.pieceType == Queen && q.position == piecePosition && q.alliance == pieceAlliance && q.isFirstMove
  {
    PlainPiece(Queen, piecePosition, pieceAlliance, true)
  }

  predicate IsFirstColumnExclusion(currentPosition: int, candidateOffset: int)
    requires 0 <= currentPosition < NumTiles
  {
    FirstColumn[currentPosition] && (candidateOffset == -1 || candidateOffset == 7 || candidateOffset == -9)
  }

  predicate IsEighthColumnExclusion(currentPosition: int, candidateOffset: int)
    requires 0 <= currentPosition < NumTiles
  {
    EighthColumn[currentPosition] && (candidateOffset == 1 || candidateOffset == -7 || candidateOffset == 9)
  }

  /** For the queen's offsets, the two exclusions stop exactly the steps across an edge. */
  lemma ExclusionsAreWraps(c: int, offset: int)
    requires 0 <= c < NumTiles && offset in CandidateMoveCoordinates
    ensures IsFirstColumnExclusion(c, offset) || IsEighthColumnExclusion(c, offset) <==> Wraps(c, offset)
  {
    MaskMeaning(c);
  }

  /** The moves the queen generates, one ray per offset in table order. */
  function QueenMoves(tiles: seq<Tile>, q: Piece): seq<Move>
    requires WellFormedTiles(tiles) && 0 <= q.position < NumTiles
  {
    Rays(tiles, q, CandidateMoveCoordinates, q.position)
  }

  method CalculateLegalMoves(tiles: seq<Tile>, q: Piece) returns (legalMoves: seq<Move>)
    requires WellFormedTiles(tiles) && 0 <= q.position < NumTiles && q.pieceType == Queen
    ensures legalMoves == QueenMoves(tiles, q)
  {
    legalMoves := [];
    for i := 0 to |CandidateMoveCoordinates|
      invariant legalMoves == Rays(tiles, q, CandidateMoveCoordinates[..i], q.position)
    {
      var currentCandidateOffset := CandidateMoveCoordinates[i];
      assert CandidateMoveCoordinates[..i + 1][..i] == CandidateMoveCoordinates[..i];
      var rayMoves := CalculateRay(tiles, q, currentCandidateOffset);
      legalMoves := legalMoves + rayMoves;
    }
    assert CandidateMoveCoordinates[..|CandidateMoveCoordinates|] == CandidateMoveCoordinates;
  }

  /**
   * The inner loop of the move generation: steps from the queen in one
   * direction until an exclusion, the board's end or the first piece.
   */
  method CalculateRay(tiles: seq<Tile>, q: Piece, currentCandidateOffset: int) returns (legalMoves: seq<Move>)
    requires WellFormedTiles(tiles) && 0 <= q.position < NumTiles && q.pieceType == Queen
    requires currentCandidateOffset in CandidateMoveCoordinates
    ensures legalMoves == Ray(tiles, q, currentCandidateOffset, q.position)
  {
    assert IsUnitOffset(currentCandidateOffset);
    legalMoves := [];
    var candidateDestinationCoordinate := q.position;
    while IsValidTileCoordinate(candidateDestinationCoordinate)
      invariant IsValidTileCoordinate(candidateDestinationCoordinate) ==>
        legalMoves + Ray(tiles, q, currentCandidateOffset, candidateDestinationCoordinate) ==
        Ray(tiles, q, currentCandidateOffset, q.position)
      invariant !IsValidTileCoordinate(candidateDestinationCoordinate) ==>
        legalMoves == Ray(tiles, q, currentCandidateOffset, q.position)
      decreases if currentCandidateOffset > 0 then NumTiles - candidateDestinationCoordinate
                else candidateDestinationCoordinate + 1
    {
      ExclusionsAreWraps(candidateDestinationCoordinate, currentCandidateOffset);
      if IsFirstColumnExclusion(candidateDestinationCoordinate, currentCandidateOffset) ||
         IsEighthColumnExclusion(candidateDestinationCoordinate, currentCandidateOffset) {
        break;
      }
      candidateDestinationCoordinate := candidateDestinationCoordinate + currentCandidateOffset;
      if IsValidTileCoordinate(candidateDestinationCoordinate) {
        var candidateDestinationTile := tiles[candidateDestinationCoordinate];
        if !candidateDestinationTile.IsTileOccupied() {
          legalMoves := legalMoves + [MajorMove(q, candidateDestinationCoordinate)];
        } else {
          var pieceAtDestination := candidateDestinationTile.pieceOnTile;
          if q.alliance != pieceAtDestination.alliance {
            legalMoves := legalMoves + [MajorAttackMove(q, candidateDestinationCoordinate, pieceAtDestination)];
          }
          break;
        }
      }
    }
  }

  /** The eight rays of the queen, one after the other. */
  lemma QueenMovesUnfold(tiles: seq<Tile>, q: Piece)
    requires WellFormedTiles(tiles) && 0 <= q.position < NumTiles
    ensures QueenMoves(tiles, q) ==
      Ray(tiles, q, -9, q.position) + Ray(tiles, q, -8, q.position) +
      Ray(tiles, q, -7, q.position) + Ray(tiles, q, -1, q.position) +
      Ray(tiles, q, 1, q.position) + Ray(tiles, q, 7, q.position) +
      Ray(tiles, q, 8, q.position) + Ray(tiles, q, 9, q.position)
  {
    var c := q.position;
    var xs, ys := [-9, -8, -7, -1], [1, 7, 8, 9];
    assert xs + ys == CandidateMoveCoordinates;
    RaysAppend(tiles, q, xs, ys, c);
    RaysOfFour(tiles, q, -9, -8, -7, -1, c);
    RaysOfFour(tiles, q, 1, 7, 8, 9, c);
  }

  /**
   * Every queen move lands on the board on the queen's file, rank or one of
   * its diagonals (no wrap across the a/h files), every square strictly
   * between is empty, and it is a MajorMove onto an empty square or a
   * MajorAttackMove on the enemy piece standing there.
   */
  lemma QueenMovesSound(tiles: seq<Tile>, q: Piece, m: Move)
    requires WellFormedTiles(tiles) && 0 <= q.position < NumTiles && q.pieceType == Queen
    requires m in QueenMoves(tiles, q)
    ensures var d := m.GetDestinationCoordinate();
      m.GetMovedPiece() == Some(q) && 0 <= d < NumTiles && (Orthogonal(q.position, d) || Diagonal(q.position, d)) && PathClear(tiles, q.position, d) &&
      ((m == MajorMove(q, d) && !tiles[d].IsTileOccupied()) ||
       (HoldsEnemy(tiles, d, q.alliance) && m == MajorAttackMove(q, d, tiles[d].pieceOnTile)))
  {
    RaysMember(tiles, q, CandidateMoveCoordinates, q.position, m);
    var j :| 0 <= j < |CandidateMoveCoordinates| && m in Ray(tiles, q, CandidateMoveCoordinates[j], q.position);
    RaySound(tiles, q, CandidateMoveCoordinates[j], q.position, m);
    OnRayShape(q.position, CandidateMoveCoordinates[j], m.GetDestinationCoordinate());
  }

  /**
   * Every square on the queen's file, rank or diagonals, reached over empty
   * squares and not holding a piece of the queen's side, is a destination:
   * each ray stops only at the edge or at the first occupied square.
   */
  lemma QueenMovesComplete(tiles: seq<Tile>, q: Piece, d: int)
    requires WellFormedTiles(tiles) && 0 <= q.position < NumTiles && 0 <= d < NumTiles
    requires (Orthogonal(q.position, d) || Diagonal(q.position, d)) && PathClear(tiles, q.position, d) && !HoldsAlly(tiles, d, q.alliance)
    ensures exists m :: m in QueenMoves(tiles, q) && m.GetDestinationCoordinate() == d
  {
    var c := q.position;
    RayDirection(c, d);
    var offset := Direction(c, d);
    RayComplete(tiles, q, offset, c, d);
    var m :| m in Ray(tiles, q, offset, c) && m.GetDestinationCoordinate() == d;
    var j := if offset == -9 then 0 else if offset == -8 then 1 else if offset == -7 then 2 else if offset == -1 then 3
      else if offset == 1 then 4 else if offset == 7 then 5 else if offset == 8 then 6 else 7;
    assert CandidateMoveCoordinates[j] == offset;
    RaysMember(tiles, q, CandidateMoveCoordinates, c, m);
  }

  /** Each ray has at most 7 moves, and the eight together at most 27. */
  lemma QueenMovesCount(tiles: seq<Tile>, q: Piece)
    requires WellFormedTiles(tiles) && 0 <= q.position < NumTiles
    ensures forall offset :: offset in CandidateMoveCoordinates ==> |Ray(tiles, q, offset, q.position)| <= 7
    ensures |QueenMoves(tiles, q)| <= 27
  {
    var c := q.position;
    QueenMovesUnfold(tiles, q);
    RayLength(tiles, q, -9, c);
    RayLength(tiles, q, -8, c);
    RayLength(tiles, q, -7, c);
    RayLength(tiles, q, -1, c);
    RayLength(tiles, q, 1, c);
    RayLength(tiles, q, 7, c);
    RayLength(tiles, q, 8, c);
    RayLength(tiles, q, 9, c);
    DiagonalRaysLength(tiles, q, c);
    OrthogonalRaysLength(tiles, q, c);
  }

  /** The queen after a move: a queen on the destination, of the moved piece's side, marked as on its first move. */
  function MovePiece(move: Move): (r: Piece)
    requires move.GetMovedPiece().Some?
    ensures r.pieceType == Queen && r.position == move.GetDestinationCoordinate()
    ensures r.alliance == move.GetMovedPiece().value.alliance && r.isFirstMove
  {
    NewQueen(move.GetDestinationCoordinate(), move.GetMovedPiece().value.alliance)
  }
}
