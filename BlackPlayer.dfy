/**
 * The black side's view of a board, and the castling moves it offers.
 * Whether the king is in check and which squares the opponent attacks come
 * from the general player view, which is not modelled: they are inputs here.
 */
module BlackPlayer {
  import opened Wrappers
  import opened Pieces
  import opened Tiles
  import opened Moves
  import opened BoardUtils
  import opened Boards

  /** A side's view of a board: its side, its pieces, its own moves and its opponent's moves. */
  datatype Player = Player(alliance: Alliance, activePieces: seq<Piece>, legalMoves: seq<Move>, opponentLegalMoves: seq<Move>)

  /**
   * The black player of a board. The board hands over both move lists in
   * the order (white, black); the black player keeps Black's list as its own
   * and White's as its opponent's.
   */
  function NewBlackPlayer(b: Board, whiteStandardLegalMoves: seq<Move>, blackStandardLegalMoves: seq<Move>): (p: Player)
    ensures p.alliance == Black && p.activePieces == b.blackPieces
    ensures p.legalMoves == blackStandardLegalMoves && p.opponentLegalMoves == whiteStandardLegalMoves
  {
    Player(Black, b.blackPieces, blackStandardLegalMoves, whiteStandardLegalMoves)
  }

  /** The black player as the board constructs it. */
  function BlackPlayerOf(b: Board): Player {
    NewBlackPlayer(b, b.whiteStandardLegalMoves, b.blackStandardLegalMoves)
  }

  /** The black player's opponent: the white player of the same board. */
  function GetOpponent(b: Board): (p: Player)
    ensures p.alliance == BlackPlayerOf(b).alliance.Opponent()
    ensures p.activePieces == b.whitePieces
    ensures p.legalMoves == b.whiteStandardLegalMoves && p.opponentLegalMoves == b.blackStandardLegalMoves
    ensures p.legalMoves == BlackPlayerOf(b).opponentLegalMoves && p.opponentLegalMoves == BlackPlayerOf(b).legalMoves
  {
    Player(White, b.whitePieces, b.whiteStandardLegalMoves, b.blackStandardLegalMoves)
  }

  /**
   * On a built board the black player's pieces are black pieces standing on
   * their tiles, its own moves are made by black pieces, and the moves it
   * holds as its opponent's are made by white pieces.
   */
  lemma BlackPlayerSides(b: Board)
    requires BoardValid(b)
    ensures var p := BlackPlayerOf(b);
      forall q :: q in p.activePieces ==>
        q.alliance == Black && 0 <= q.position < NumTiles && b.gameBoard[q.position].GetPiece() == Some(q)
    ensures var p := BlackPlayerOf(b);
      forall m :: m in p.legalMoves ==> m.GetMovedPiece().Some? && m.GetMovedPiece().value.alliance == Black
    ensures var p := BlackPlayerOf(b);
      forall m :: m in p.opponentLegalMoves ==> m.GetMovedPiece().Some? && m.GetMovedPiece().value.alliance == White
  {
    var p := BlackPlayerOf(b);
    assert PositionsMatch(b.gameBoard);
    ActivePiecesAscending(b.gameBoard, Black);
    forall q | q in p.activePieces
      ensures q.alliance == Black && 0 <= q.position < NumTiles && b.gameBoard[q.position].GetPiece() == Some(q)
    {
      ActivePiecesMember(b.gameBoard, Black, q);
    }
    forall m | m in p.legalMoves
      ensures m.GetMovedPiece().Some? && m.GetMovedPiece().value.alliance == Black
    {
      BoardMovesSound(b, Black, m);
    }
    forall m | m in p.opponentLegalMoves
      ensures m.GetMovedPiece().Some? && m.GetMovedPiece().value.alliance == White
    {
      BoardMovesSound(b, White, m);
    }
  }

  /**
   * On a built board the black player's opponent is the white side seen the
   * other way round: its pieces are white pieces standing on their tiles, its
   * own moves are made by white pieces and its opponent's moves by black
   * pieces, and its opponent is again a player of Black.
   */
  lemma OpponentSides(b: Board)
    requires BoardValid(b)
    ensures var o := GetOpponent(b);
      forall q :: q in o.activePieces ==>
        q.alliance == White && 0 <= q.position < NumTiles && b.gameBoard[q.position].GetPiece() == Some(q)
    ensures var o := GetOpponent(b);
      forall m :: m in o.legalMoves ==> m.GetMovedPiece().Some? && m.GetMovedPiece().value.alliance == White
    ensures var o := GetOpponent(b);
      forall m :: m in o.opponentLegalMoves ==> m.GetMovedPiece().Some? && m.GetMovedPiece().value.alliance == Black
    ensures GetOpponent(b).alliance.Opponent() == BlackPlayerOf(b).alliance
  {
    var o := GetOpponent(b);
    assert PositionsMatch(b.gameBoard);
    forall q | q in o.activePieces
      ensures q.alliance == White && 0 <= q.position < NumTiles && b.gameBoard[q.position].GetPiece() == Some(q)
    {
      ActivePiecesMember(b.gameBoard, White, q);
    }
    forall m | m in o.legalMoves
      ensures m.GetMovedPiece().Some? && m.GetMovedPiece().value.alliance == White
    {
      BoardMovesSound(b, White, m);
    }
    forall m | m in o.opponentLegalMoves
      ensures m.GetMovedPiece().Some? && m.GetMovedPiece().value.alliance == Black
    {
      BoardMovesSound(b, Black, m);
    }
  }

  /** Why castling generation fails: the piece on square 0 is cast to a rook but is not one. */
  datatype CastleError = NotARook

  predicate Occupied(b: Board, s: int)
    requires |b.gameBoard| == NumTiles && 0 <= s < NumTiles
  {
    b.gameBoard[s].IsTileOccupied()
  }

  /**
   * Black's king-side castle: the king on its first move and not in check,
   * squares 5 and 6 empty and not attacked, and a rook on its first move on 7.
   */
  predicate KingSideCastleAllowed(b: Board, playerKing: Piece, isInCheck: bool, attackedSquares: set<int>)
    requires |b.gameBoard| == NumTiles
  {
    playerKing.isFirstMove && !isInCheck &&
    !Occupied(b, 5) && !Occupied(b, 6) && Occupied(b, 7) && b.gameBoard[7].pieceOnTile.isFirstMove &&
    5 !in attackedSquares && 6 !in attackedSquares && b.gameBoard[7].pieceOnTile.pieceType.IsRook()
  }

  /**
   * Black's queen-side castle as written: the king on its first move and not
   * in check, squares 1, 2 and 3 empty, and any piece on its first move on 0.
   * No square is tested for attack and the piece on 0 is not tested for type.
   */
  predicate QueenSideCastleAllowed(b: Board, playerKing: Piece, isInCheck: bool)
    requires |b.gameBoard| == NumTiles
  {
    playerKing.isFirstMove && !isInCheck &&
    !Occupied(b, 1) && !Occupied(b, 2) && !Occupied(b, 3) && Occupied(b, 0) && b.gameBoard[0].pieceOnTile.isFirstMove
  }

  /**
   * The castles Black is offered: king to 6 with the rook 7 to 5, then king
   * to 2 with the piece on 0 to 3, the latter built as a king-side castle.
   * Casting a non-rook on 0 fails.
   */
  function KingCastles(b: Board, playerKing: Piece, isInCheck: bool, attackedSquares: set<int>): Result<seq<Move>, CastleError>
    requires |b.gameBoard| == NumTiles
  {
    var kingSide :=
      if KingSideCastleAllowed(b, playerKing, isInCheck, attackedSquares)
      then [KingSideCastleMove(playerKing, 6, b.gameBoard[7].pieceOnTile, 7, 5)]
      else [];
    if QueenSideCastleAllowed(b, playerKing, isInCheck) then
      if b.gameBoard[0].pieceOnTile.pieceType.IsRook()
      then Success(kingSide + [KingSideCastleMove(playerKing, 2, b.gameBoard[0].pieceOnTile, 0, 3)])
      else Failure(NotARook)
    else Success(kingSide)
  }

  /** Builds the castle list under the nested tests, appending as it goes. */
  method CalculateKingCastles(b: Board, playerKing: Piece, isInCheck: bool, attackedSquares: set<int>)
    returns (r: Result<seq<Move>, CastleError>)
    requires |b.gameBoard| == NumTiles
    ensures r == KingCastles(b, playerKing, isInCheck, attackedSquares)
  {
    var kingCastles: seq<Move> := [];
    if playerKing.isFirstMove && !isInCheck {
      ghost var allowed := KingSideCastleAllowed(b, playerKing, isInCheck, attackedSquares);
      if !b.gameBoard[5].IsTileOccupied() && !b.gameBoard[6].IsTileOccupied() {
        var rookTile := b.gameBoard[7];
        if rookTile.IsTileOccupied() && rookTile.pieceOnTile.isFirstMove {
          if 5 !in attackedSquares && 6 !in attackedSquares && rookTile.pieceOnTile.pieceType.IsRook() {
            kingCastles := kingCastles + [KingSideCastleMove(playerKing, 6, rookTile.pieceOnTile, 7, 5)];
          }
        }
      }
      assert kingCastles == if allowed then [KingSideCastleMove(playerKing, 6, b.gameBoard[7].pieceOnTile, 7, 5)] else [];
      if !b.gameBoard[1].IsTileOccupied() && !b.gameBoard[2].IsTileOccupied() && !b.gameBoard[3].IsTileOccupied() {
        var rookTile := b.gameBoard[0];
        if rookTile.IsTileOccupied() && rookTile.pieceOnTile.isFirstMove {
          if !rookTile.pieceOnTile.pieceType.IsRook() {
            return Failure(NotARook);
          }
          kingCastles := kingCastles + [KingSideCastleMove(playerKing, 2, rookTile.pieceOnTile, 0, 3)];
        }
      }
    }
    r := Success(kingCastles);
  }

  /**
   * At most two castles, each a castling move of the given king built as a
   * king-side castle, and none unless the king is on its first move and
   * not in check.
   */
  lemma KingCastlesShape(b: Board, playerKing: Piece, isInCheck: bool, attackedSquares: set<int>)
    requires |b.gameBoard| == NumTiles
    ensures var r := KingCastles(b, playerKing, isInCheck, attackedSquares);
      r.Success? ==>
        && |r.value| <= 2
        && forall m :: m in r.value ==> m.IsCastlingMove() && m.KingSideCastleMove? && m.movedPiece == playerKing
    ensures !playerKing.isFirstMove || isInCheck ==> KingCastles(b, playerKing, isInCheck, attackedSquares) == Success([])
  {
  }

  /**
   * The king-side castle is offered exactly when it is allowed; it moves the
   * king to 6 and the rook on 7 to 5.
   */
  lemma KingSideCastleOffered(b: Board, playerKing: Piece, isInCheck: bool, attackedSquares: set<int>)
    requires |b.gameBoard| == NumTiles
    requires KingCastles(b, playerKing, isInCheck, attackedSquares).Success?
    ensures var ms := KingCastles(b, playerKing, isInCheck, attackedSquares).value;
      (exists m :: m in ms && m.destinationCoordinate == 6) <==> KingSideCastleAllowed(b, playerKing, isInCheck, attackedSquares)
    ensures var ms := KingCastles(b, playerKing, isInCheck, attackedSquares).value;
      forall m :: m in ms && m.destinationCoordinate == 6 ==>
        m.castleRookStart == 7 && m.castleRookDestination == 5 && m.castleRook == b.gameBoard[7].pieceOnTile &&
        m.castleRook.pieceType == Rook
  {
    var ms := KingCastles(b, playerKing, isInCheck, attackedSquares).value;
    if KingSideCastleAllowed(b, playerKing, isInCheck, attackedSquares) {
      assert ms[0].destinationCoordinate == 6;
    }
  }

  /**
   * The queen-side castle is offered exactly when it is allowed (and the
   * piece on 0 is a rook); it moves the king to 2 and the rook on 0 to 3, and
   * prints as a king-side castle.
   */
  lemma QueenSideCastleOffered(b: Board, playerKing: Piece, isInCheck: bool, attackedSquares: set<int>)
    requires |b.gameBoard| == NumTiles
    ensures var r := KingCastles(b, playerKing, isInCheck, attackedSquares);
      r.Failure? <==> QueenSideCastleAllowed(b, playerKing, isInCheck) && !b.gameBoard[0].pieceOnTile.pieceType.IsRook()
    ensures var r := KingCastles(b, playerKing, isInCheck, attackedSquares);
      r.Success? ==> ((exists m :: m in r.value && m.destinationCoordinate == 2) <==> QueenSideCastleAllowed(b, playerKing, isInCheck))
    ensures var r := KingCastles(b, playerKing, isInCheck, attackedSquares);
      r.Success? ==> forall m :: m in r.value && m.destinationCoordinate == 2 ==>
        m.castleRookStart == 0 && m.castleRookDestination == 3 && m.castleRook == b.gameBoard[0].pieceOnTile &&
        ToString(m) == Some("0-0")
  {
    var r := KingCastles(b, playerKing, isInCheck, attackedSquares);
    if r.Success? && QueenSideCastleAllowed(b, playerKing, isInCheck) {
      assert r.value[|r.value| - 1].destinationCoordinate == 2;
    }
  }

  /** Which squares are attacked never changes whether the queen-side castle is offered. */
  lemma QueenSideIgnoresAttacks(b: Board, playerKing: Piece, isInCheck: bool, attacked1: set<int>, attacked2: set<int>)
    requires |b.gameBoard| == NumTiles
    ensures KingCastles(b, playerKing, isInCheck, attacked1).Failure? == KingCastles(b, playerKing, isInCheck, attacked2).Failure?
    ensures var r1 := KingCastles(b, playerKing, isInCheck, attacked1);
      var r2 := KingCastles(b, playerKing, isInCheck, attacked2);
      r1.Success? ==>
        ((exists m :: m in r1.value && m.destinationCoordinate == 2) <==> (exists m :: m in r2.value && m.destinationCoordinate == 2))
  {
    QueenSideCastleOffered(b, playerKing, isInCheck, attacked1);
    QueenSideCastleOffered(b, playerKing, isInCheck, attacked2);
  }
}
