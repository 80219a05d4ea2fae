/**
 * The pawn: a push one square forward, a jump of two from its start rank,
 * and a capture on each forward diagonal. Forward is the alliance's
 * direction. No en-passant capture and no promotion is ever generated.
 */
module PawnPiece {
  import opened Wrappers
  import opened Pieces
  import opened Tiles
  import opened Moves
  import opened BoardUtils
  import opened Generation

  const CandidateMoveCoordinates: seq<int> := [7, 8, 9, 16]

  /** A pawn that has not moved yet. */
  function NewPawn(piecePosition: int, pieceAlliance: Alliance): (p: Piece)
    ensures p.pieceType == Pawn && p.position == piecePosition && p.alliance == pieceAlliance && p.isFirstMove
  {
    PlainPiece(Pawn, piecePosition, pieceAlliance, true)
  }

  /** The pawn standing on the start rank of its side: 48..55 for White, 8..15 for Black. */
  predicate OnStartRank(p: Piece)
    requires 0 <= p.position < NumTiles
  {
    (SeventhRank[p.position] && p.alliance.IsBlack()) || (SecondRank[p.position] && p.alliance.IsWhite())
  }

  /** The move, if any, one entry of the offset table yields. */
  function PawnCandidate(tiles: seq<Tile>, p: Piece, offset: int): (ms: seq<Move>)
    requires WellFormedTiles(tiles) && 0 <= p.position < NumTiles
    ensures |ms| <= 1
  {
    var d := p.position + p.alliance.Direction() * offset;
    if !IsValidTileCoordinate(d) then []
    else if offset == 8 && !tiles[d].IsTileOccupied() then [MajorMove(p, d)]
    else if offset == 16 && p.isFirstMove && OnStartRank(p) then
      var behindPiece := p.position + p.alliance.Direction() * 8;
      if !tiles[behindPiece].IsTileOccupied() && !tiles[d].IsTileOccupied() then [PawnJump(p, d)] else []
    else if offset == 7 &&
            !((EighthColumn[p.position] && p.alliance.IsWhite()) || (FirstColumn[p.position] && p.alliance.IsBlack())) then
      if HoldsEnemy(tiles, d, p.alliance) then [PawnAttackMove(p, d, tiles[d].pieceOnTile)] else []
    else if offset == 9 &&
            !((FirstColumn[p.position] && p.alliance.IsWhite()) || (EighthColumn[p.position] && p.alliance.IsBlack())) then
      if HoldsEnemy(tiles, d, p.alliance) then [PawnAttackMove(p, d, tiles[d].pieceOnTile)] else []
    else []
  }

  /** The moves of the given table entries, in table order. */
  function PawnMovesFor(tiles: seq<Tile>, p: Piece, offsets: seq<int>): seq<Move>
    requires WellFormedTiles(tiles) && 0 <= p.position < NumTiles
  {
    if offsets == [] then []
    else PawnMovesFor(tiles, p, offsets[..|offsets| - 1]) + PawnCandidate(tiles, p, offsets[|offsets| - 1])
  }

  /** The moves the pawn generates. */
  function PawnMoves(tiles: seq<Tile>, p: Piece): seq<Move>
    requires WellFormedTiles(tiles) && 0 <= p.position < NumTiles
  {
    PawnMovesFor(tiles, p, CandidateMoveCoordinates)
  }

  method CalculateLegalMoves(tiles: seq<Tile>, p: Piece) returns (legalMoves: seq<Move>)
    requires WellFormedTiles(tiles) && 0 <= p.position < NumTiles && p.pieceType == Pawn
    ensures legalMoves == PawnMoves(tiles, p)
  {
    legalMoves := [];
    for i := 0 to |CandidateMoveCoordinates|
      invariant legalMoves == PawnMovesFor(tiles, p, CandidateMoveCoordinates[..i])
    {
      var currentCandidateOffset := CandidateMoveCoordinates[i];
      var candidateDestinationCoordinate := p.position + p.alliance.Direction() * currentCandidateOffset;
      assert CandidateMoveCoordinates[..i + 1][..i] == CandidateMoveCoordinates[..i];
      if !IsValidTileCoordinate(candidateDestinationCoordinate) {
        continue;
      }
      if currentCandidateOffset == 8 && !tiles[candidateDestinationCoordinate].IsTileOccupied() {
        legalMoves := legalMoves + [MajorMove(p, candidateDestinationCoordinate)];
      } else if currentCandidateOffset == 16 && p.isFirstMove &&
                ((SeventhRank[p.position] && p.alliance.IsBlack()) || (SecondRank[p.position] && p.alliance.IsWhite())) {
        var behindPiece := p.position + p.alliance.Direction() * 8;
        if !tiles[behindPiece].IsTileOccupied() && !tiles[candidateDestinationCoordinate].IsTileOccupied() {
          legalMoves := legalMoves + [PawnJump(p, candidateDestinationCoordinate)];
        }
      } else if currentCandidateOffset == 7 &&
                !((EighthColumn[p.position] && p.alliance.IsWhite()) || (FirstColumn[p.position] && p.alliance.IsBlack())) {
        if tiles[candidateDestinationCoordinate].IsTileOccupied() {
          var pieceOnCandidate := tiles[candidateDestinationCoordinate].pieceOnTile;
          if p.alliance != pieceOnCandidate.alliance {
            legalMoves := legalMoves + [PawnAttackMove(p, candidateDestinationCoordinate, pieceOnCandidate)];
          }
        }
      } else if currentCandidateOffset == 9 &&
                !((FirstColumn[p.position] && p.alliance.IsWhite()) || (EighthColumn[p.position] && p.alliance.IsBlack())) {
        if tiles[candidateDestinationCoordinate].IsTileOccupied() {
          var pieceOnCandidate := tiles[candidateDestinationCoordinate].pieceOnTile;
          if p.alliance != pieceOnCandidate.alliance {
            legalMoves := legalMoves + [PawnAttackMove(p, candidateDestinationCoordinate, pieceOnCandidate)];
          }
        }
      }
    }
    assert CandidateMoveCoordinates[..|CandidateMoveCoordinates|] == CandidateMoveCoordinates;
  }

  /** A move is among the pawn's moves exactly when one entry of its table yields it. */
  lemma {:induction false} PawnMovesForMember(tiles: seq<Tile>, p: Piece, offsets: seq<int>, m: Move)
    requires WellFormedTiles(tiles) && 0 <= p.position < NumTiles
    ensures m in PawnMovesFor(tiles, p, offsets) <==>
      exists j :: 0 <= j < |offsets| && m in PawnCandidate(tiles, p, offsets[j])
  {
    if offsets != [] {
      var init := offsets[..|offsets| - 1];
      PawnMovesForMember(tiles, p, init, m);
      if m in PawnMovesFor(tiles, p, offsets) && !(m in PawnMovesFor(tiles, p, init)) {
        assert m in PawnCandidate(tiles, p, offsets[|offsets| - 1]);
      }
      if j :| 0 <= j < |offsets| && m in PawnCandidate(tiles, p, offsets[j]) {
        if j < |offsets| - 1 {
          assert init[j] == offsets[j];
        }
      }
    }
  }

  /** The four entries of the table, one by one. */
  lemma PawnMovesUnfold(tiles: seq<Tile>, p: Piece)
    requires WellFormedTiles(tiles) && 0 <= p.position < NumTiles
    ensures PawnMoves(tiles, p) ==
      PawnCandidate(tiles, p, 7) + PawnCandidate(tiles, p, 8) + PawnCandidate(tiles, p, 9) + PawnCandidate(tiles, p, 16)
  {
    var offs := CandidateMoveCoordinates;
    assert offs[..3] == [7, 8, 9] && offs[..3][..2] == [7, 8] && offs[..3][..2][..1] == [7] && [7][..0] == [];
    assert PawnMovesFor(tiles, p, [7]) == PawnCandidate(tiles, p, 7);
    assert PawnMovesFor(tiles, p, [7, 8]) == PawnMovesFor(tiles, p, [7]) + PawnCandidate(tiles, p, 8);
    assert PawnMovesFor(tiles, p, [7, 8, 9]) == PawnMovesFor(tiles, p, [7, 8]) + PawnCandidate(tiles, p, 9);
  }

  /** A diagonal step forward: one row in the pawn's direction and one file sideways. */
  predicate ForwardDiagonal(p: Piece, d: int) {
    Row(d) == Row(p.position) + p.alliance.Direction() && Abs(File(d) - File(p.position)) == 1
  }

  /** What a pawn move is, given the table entry that yields it. */
  predicate PawnMoveShape(tiles: seq<Tile>, p: Piece, m: Move)
    requires WellFormedTiles(tiles) && 0 <= p.position < NumTiles
  {
    var d := m.GetDestinationCoordinate();
    var dir := p.alliance.Direction();
    m.GetMovedPiece() == Some(p) && 0 <= d < NumTiles && !m.EnPassantMove? && !m.PawnPromotion? &&
    ((m == MajorMove(p, d) && d == p.position + dir * 8 && !tiles[d].IsTileOccupied()) ||
     (m == PawnJump(p, d) && d == p.position + dir * 16 && p.isFirstMove && OnStartRank(p) &&
      !tiles[p.position + dir * 8].IsTileOccupied() && !tiles[d].IsTileOccupied()) ||
     (HoldsEnemy(tiles, d, p.alliance) && m == PawnAttackMove(p, d, tiles[d].pieceOnTile) &&
      (d == p.position + dir * 7 || d == p.position + dir * 9) && ForwardDiagonal(p, d)))
  }

  lemma PawnCandidateSound(tiles: seq<Tile>, p: Piece, offset: int, m: Move)
    requires WellFormedTiles(tiles) && 0 <= p.position < NumTiles
    requires m in PawnCandidate(tiles, p, offset)
    ensures PawnMoveShape(tiles, p, m)
  {
    var d := m.GetDestinationCoordinate();
    SquareFileRow(p.position);
    SquareFileRow(d);
    MaskMeaning(p.position);
  }

  /**
   * Every pawn move lands on the board and is one of: a MajorMove one row
   * forward onto an empty square; a PawnJump two rows forward from the start
   * rank on the first move, over an empty square onto an empty square; or a
   * PawnAttackMove one diagonal step forward (no wrap) onto an enemy piece.
   * In particular no en-passant move and no promotion is ever generated.
   */
  lemma PawnMovesSound(tiles: seq<Tile>, p: Piece, m: Move)
    requires WellFormedTiles(tiles) && 0 <= p.position < NumTiles
    requires m in PawnMoves(tiles, p)
    ensures PawnMoveShape(tiles, p, m)
  {
    PawnMovesForMember(tiles, p, CandidateMoveCoordinates, m);
    var j :| 0 <= j < |CandidateMoveCoordinates| && m in PawnCandidate(tiles, p, CandidateMoveCoordinates[j]);
    PawnCandidateSound(tiles, p, CandidateMoveCoordinates[j], m);
  }

  /**
   * The pawn's moves as the rules it follows give them: the push, the jump
   * and each forward diagonal capture are made whenever their conditions hold.
   */
  lemma PawnMovesComplete(tiles: seq<Tile>, p: Piece, d: int)
    requires WellFormedTiles(tiles) && 0 <= p.position < NumTiles
    ensures var dir := p.alliance.Direction();
      d == p.position + dir * 8 && 0 <= d < NumTiles && !tiles[d].IsTileOccupied() ==>
        MajorMove(p, d) in PawnMoves(tiles, p)
    ensures var dir := p.alliance.Direction();
      d == p.position + dir * 16 && p.isFirstMove && OnStartRank(p) &&
      !tiles[p.position + dir * 8].IsTileOccupied() && !tiles[d].IsTileOccupied() ==>
        PawnJump(p, d) in PawnMoves(tiles, p)
    ensures 0 <= d < NumTiles && ForwardDiagonal(p, d) && HoldsEnemy(tiles, d, p.alliance) ==>
      PawnAttackMove(p, d, tiles[d].pieceOnTile) in PawnMoves(tiles, p)
  {
    PawnMovesUnfold(tiles, p);
    SquareFileRow(p.position);
    MaskMeaning(p.position);
    if 0 <= d < NumTiles {
      SquareFileRow(d);
    }
  }

  /** A pawn on the far rank of its side (rank 8 for White, rank 1 for Black) has no moves. */
  lemma PawnOnLastRankHasNoMoves(tiles: seq<Tile>, p: Piece)
    requires WellFormedTiles(tiles) && 0 <= p.position < NumTiles
    requires (p.alliance.IsWhite() && p.position < 8) || (p.alliance.IsBlack() && p.position >= 56)
    ensures PawnMoves(tiles, p) == []
  {
    PawnMovesUnfold(tiles, p);
    MaskMeaning(p.position);
  }

  /** At most one move per table entry, so at most four. */
  lemma PawnMovesCount(tiles: seq<Tile>, p: Piece)
    requires WellFormedTiles(tiles) && 0 <= p.position < NumTiles
    ensures |PawnMoves(tiles, p)| <= 4
  {
    PawnMovesUnfold(tiles, p);
  }

  /** The pawn after a move: a pawn on the destination, of the moved piece's side, marked as on its first move. */
  function MovePiece(move: Move): (r: Piece)
    requires move.GetMovedPiece().Some?
    ensures r.pieceType == Pawn && r.position == move.GetDestinationCoordinate()
    ensures r.alliance == move.GetMovedPiece().value.alliance && r.isFirstMove
  {
    NewPawn(move.GetDestinationCoordinate(), move.GetMovedPiece().value.alliance)
  }
}
