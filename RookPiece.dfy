/** The rook: slides along its file and its rank. */
module RookPiece {
  import opened Wrappers
  import opened Pieces
  import opened Tiles
  import opened Moves
  import opened BoardUtils
  import opened Generation
  import opened Sliding

  const CandidateMoveCoordinates: seq<int> := [-8, -1, 1, 8]

  /**
   * A rook built by the three-argument piece constructor; the first-move
   * flag that constructor supplies is the parameter defaultFirstMove.
   */
  function NewRook(piecePosition: int, pieceAlliance: Alliance, defaultFirstMove: bool): (r: Piece)
    ensures r.pieceType == Rook && r.position == piecePosition && r.alliance == pieceAlliance
    ensures r.isFirstMove == defaultFirstMove && !r.isCastled
  {
    PlainPiece(Rook, piecePosition, pieceAlliance, defaultFirstMove)
  }

  predicate IsFirstColumnExclusion(currentPosition: int, candidateOffset: int)
    requires 0 <= currentPosition < NumTiles
  {
    FirstColumn[currentPosition] && candidateOffset == -1
  }

  predicate IsEighthColumnExclusion(currentPosition: int, candidateOffset: int)
    requires 0 <= currentPosition < NumTiles
  {
    EighthColumn[currentPosition] && candidateOffset == 1
  }

  /** For the rook's offsets, the two exclusions stop exactly the steps across an edge. */
  lemma ExclusionsAreWraps(c: int, offset: int)
    requires 0 <= c < NumTiles && offset in CandidateMoveCoordinates
    ensures IsFirstColumnExclusion(c, offset) || IsEighthColumnExclusion(c, offset) <==> Wraps(c, offset)
  {
    MaskMeaning(c);
  }

  /** The moves the rook generates, one ray per offset in table order. */
  function RookMoves(tiles: seq<Tile>, r: Piece): seq<Move>
    requires WellFormedTiles(tiles) && 0 <= r.position < NumTiles
  {
    Rays(tiles, r, CandidateMoveCoordinates, r.position)
  }

  method CalculateLegalMoves(tiles: seq<Tile>, r: Piece) returns (legalMoves: seq<Move>)
    requires WellFormedTiles(tiles) && 0 <= r.position < NumTiles && r.pieceType == Rook
    ensures legalMoves == RookMoves(tiles, r)
  {
    legalMoves := [];
    for i := 0 to |CandidateMoveCoordinates|
      invariant legalMoves == Rays(tiles, r, CandidateMoveCoordinates[..i], r.position)
    {
      var currentCandidateOffset := CandidateMoveCoordinates[i];
      assert CandidateMoveCoordinates[..i + 1][..i] == CandidateMoveCoordinates[..i];
      var rayMoves := CalculateRay(tiles, r, currentCandidateOffset);
      legalMoves := legalMoves + rayMoves;
    }
    assert CandidateMoveCoordinates[..|CandidateMoveCoordinates|] == CandidateMoveCoordinates;
  }

  /**
   * The inner loop of the move generation: steps from the rook in one
   * direction until an exclusion, the board's end or the first piece.
   */
  method CalculateRay(tiles: seq<Tile>, r: Piece, currentCandidateOffset: int) returns (legalMoves: seq<Move>)
    requires WellFormedTiles(tiles) && 0 <= r.position < NumTiles && r.pieceType == Rook
    requires currentCandidateOffset in CandidateMoveCoordinates
    ensures legalMoves == Ray(tiles, r, currentCandidateOffset, r.position)
  {
    assert IsUnitOffset(currentCandidateOffset);
    legalMoves := [];
    var candidateDestinationCoordinate := r.position;
    while IsValidTileCoordinate(candidateDestinationCoordinate)
      invariant IsValidTileCoordinate(candidateDestinationCoordinate) ==>
        legalMoves + Ray(tiles, r, currentCandidateOffset, candidateDestinationCoordinate) ==
        Ray(tiles, r, currentCandidateOffset, r.position)
      invariant !IsValidTileCoordinate(candidateDestinationCoordinate) ==>
        legalMoves == Ray(tiles, r, currentCandidateOffset, r.position)
      decreases if currentCandidateOffset > 0 then NumTiles - candidateDestinationCoordinate
                else candidateDestinationCoordinate + 1
    {
      ExclusionsAreWraps(candidateDestinationCoordinate, currentCandidateOffset);
      if IsFirstColumnExclusion(candidateDestinationCoordinate, currentCandidateOffset) ||
         IsEighthColumnExclusion(candidateDestinationCoordinate, currentCandidateOffset) {
        break;
      }
      candidateDestinationCoordinate := candidateDestinationCoordinate + currentCandidateOffset;
      if IsValidTileCoordinate(candidateDestinationCoordinate) {
        var candidateDestinationTile := tiles[candidateDestinationCoordinate];
        if !candidateDestinationTile.IsTileOccupied() {
          legalMoves := legalMoves + [MajorMove(r, candidateDestinationCoordinate)];
        } else {
          var pieceAtDestination := candidateDestinationTile.pieceOnTile;
          if r.alliance != pieceAtDestination.alliance {
            legalMoves := legalMoves + [AttackMove(r, candidateDestinationCoordinate, pieceAtDestination)];
          }
          break;
        }
      }
    }
  }

  /** The four rays of the rook, one after the other. */
  lemma RookMovesUnfold(tiles: seq<Tile>, r: Piece)
    requires WellFormedTiles(tiles) && 0 <= r.position < NumTiles
    ensures RookMoves(tiles, r) ==
      Ray(tiles, r, -8, r.position) + Ray(tiles, r, -1, r.position) +
      Ray(tiles, r, 1, r.position) + Ray(tiles, r, 8, r.position)
  {
    RaysOfFour(tiles, r, -8, -1, 1, 8, r.position);
  }

  /**
   * Every rook move lands on the board on the rook's file or rank (no wrap
   * across the a/h files), every square strictly between is empty, and it
   * is a MajorMove onto an empty square or an AttackMove (not a
   * MajorAttackMove) on the enemy piece standing there.
   */
  lemma RookMovesSound(tiles: seq<Tile>, r: Piece, m: Move)
    requires WellFormedTiles(tiles) && 0 <= r.position < NumTiles && r.pieceType == Rook
    requires m in RookMoves(tiles, r)
    ensures var d := m.GetDestinationCoordinate();
      m.GetMovedPiece() == Some(r) && 0 <= d < NumTiles && Orthogonal(r.position, d) && PathClear(tiles, r.position, d) &&
      ((m == MajorMove(r, d) && !tiles[d].IsTileOccupied()) ||
       (HoldsEnemy(tiles, d, r.alliance) && m == AttackMove(r, d, tiles[d].pieceOnTile)))
  {
    RaysMember(tiles, r, CandidateMoveCoordinates, r.position, m);
    var j :| 0 <= j < |CandidateMoveCoordinates| && m in Ray(tiles, r, CandidateMoveCoordinates[j], r.position);
    RaySound(tiles, r, CandidateMoveCoordinates[j], r.position, m);
    OnRayShape(r.position, CandidateMoveCoordinates[j], m.GetDestinationCoordinate());
  }

  /**
   * Every square on the rook's file or rank, reached over empty squares and
   * not holding a piece of the rook's side, is a destination: each ray stops
   * only at the edge or at the first occupied square.
   */
  lemma RookMovesComplete(tiles: seq<Tile>, r: Piece, d: int)
    requires WellFormedTiles(tiles) && 0 <= r.position < NumTiles && 0 <= d < NumTiles
    requires Orthogonal(r.position, d) && PathClear(tiles, r.position, d) && !HoldsAlly(tiles, d, r.alliance)
    ensures exists m :: m in RookMoves(tiles, r) && m.GetDestinationCoordinate() == d
  {
    var c := r.position;
    RayDirection(c, d);
    var offset := Direction(c, d);
    RayComplete(tiles, r, offset, c, d);
    var m :| m in Ray(tiles, r, offset, c) && m.GetDestinationCoordinate() == d;
    var j := if offset == -8 then 0 else if offset == -1 then 1 else if offset == 1 then 2 else 3;
    assert CandidateMoveCoordinates[j] == offset;
    RaysMember(tiles, r, CandidateMoveCoordinates, c, m);
  }

  /** Each ray has at most 7 moves, and the four together at most 14. */
  lemma RookMovesCount(tiles: seq<Tile>, r: Piece)
    requires WellFormedTiles(tiles) && 0 <= r.position < NumTiles
    ensures forall offset :: offset in CandidateMoveCoordinates ==> |Ray(tiles, r, offset, r.position)| <= 7
    ensures |RookMoves(tiles, r)| <= 14
  {
    var c := r.position;
    RookMovesUnfold(tiles, r);
    RayLength(tiles, r, -8, c);
    RayLength(tiles, r, -1, c);
    RayLength(tiles, r, 1, c);
    RayLength(tiles, r, 8, c);
    OrthogonalRaysLength(tiles, r, c);
  }

  /** The rook after a move: a rook on the destination, of the moved piece's side. */
  function MovePiece(move: Move, defaultFirstMove: bool): (r: Piece)
    requires move.GetMovedPiece().Some?
    ensures r.pieceType == Rook && r.position == move.GetDestinationCoordinate()
    ensures r.alliance == move.GetMovedPiece().value.alliance && r.isFirstMove == defaultFirstMove
  {
    NewRook(move.GetDestinationCoordinate(), move.GetMovedPiece().value.alliance, defaultFirstMove)
  }
}
