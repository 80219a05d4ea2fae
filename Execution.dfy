/**
 * Executing a move. A new board is built from scratch: every piece of the
 * side to move except the moved one (and, for a castle, except its rook),
 * every piece of the opponent (except the captured pawn of an en-passant
 * capture), then the moved piece on its destination (and the castled rook on
 * its new square). The opponent moves next. A capture on the destination
 * happens because the moved piece is set last and replaces the captured one.
 */
module Execution {
  import opened Wrappers
  import opened Pieces
  import opened Tiles
  import opened Moves
  import opened BoardUtils
  import opened Boards
  import KingPiece
  import KnightPiece
  import PawnPiece
  import BishopPiece
  import RookPiece
  import QueenPiece

  /**
   * Why execution yields no board: the null move, a pawn jump whose piece is
   * not a pawn, or a new board that cannot be built (a side without a king).
   */
  datatype ExecError = NullMoveError | NotAPawn | BuildFailed(cause: BuildError)

  /** The active pieces of the side to move. */
  function CurrentPieces(b: Board): seq<Piece> {
    if b.currentPlayer == White then b.whitePieces else b.blackPieces
  }

  /** The active pieces of the side not to move. */
  function OpponentPieces(b: Board): seq<Piece> {
    if b.currentPlayer == White then b.blackPieces else b.whitePieces
  }

  /** The moved piece as it stands after the move, by the moving piece's own type. */
  function MovePiece(move: Move, defaultFirstMove: bool): (r: Piece)
    requires move.GetMovedPiece().Some?
    ensures r.pieceType == move.GetMovedPiece().value.pieceType
    ensures r.alliance == move.GetMovedPiece().value.alliance
    ensures r.position == move.GetDestinationCoordinate()
  {
    var p := move.GetMovedPiece().value;
    match p.pieceType
    case King => KingPiece.MovePiece(p, move)
    case Knight => KnightPiece.MovePiece(move, defaultFirstMove)
    case Pawn => PawnPiece.MovePiece(move)
    case Bishop => BishopPiece.MovePiece(move)
    case Rook => RookPiece.MovePiece(move, defaultFirstMove)
    case Queen => QueenPiece.MovePiece(move)
  }

  /** The moves execution accepts here: anything but a promotion. */
  predicate Executable(move: Move) {
    !move.PawnPromotion?
  }

  /** Pieces of the side to move that are not copied: the moved piece, and a castle's rook. */
  function CurrentSkip(move: Move): set<Piece>
    requires Executable(move) && !move.NullMove?
  {
    {move.movedPiece} + (if move.IsCastlingMove() then {move.castleRook} else {})
  }

  /** Pieces of the opponent that are not copied: the pawn captured en passant. */
  function OpponentSkip(move: Move): set<Piece>
    requires Executable(move) && !move.NullMove?
  {
    if move.EnPassantMove? then {move.attackedPiece} else {}
  }

  /** Sets every piece of ps not in skip, in order, each under its own square. */
  function PutAll(m: map<int, Piece>, ps: seq<Piece>, skip: set<Piece>): (r: map<int, Piece>)
    requires ConfigValid(m)
    ensures ConfigValid(r)
  {
    if ps == [] then m
    else
      var last := ps[|ps| - 1];
      var init := PutAll(m, ps[..|ps| - 1], skip);
      if last in skip then init else init[last.position := last]
  }

  /** The builder's map after the two copy loops. */
  function Remaining(b: Board, move: Move): (config: map<int, Piece>)
    requires Executable(move) && !move.NullMove?
    ensures ConfigValid(config)
  {
    PutAll(PutAll(map[], CurrentPieces(b), CurrentSkip(move)), OpponentPieces(b), OpponentSkip(move))
  }

  /** The builder's map after the copy loops and the placement of the moved piece(s). */
  function ExecutedConfig(b: Board, move: Move, defaultFirstMove: bool): (config: map<int, Piece>)
    requires Executable(move) && !move.NullMove?
    ensures ConfigValid(config)
  {
    var both := Remaining(b, move);
    var moved := MovePiece(move, defaultFirstMove);
    var placed := both[moved.position := moved];
    if move.IsCastlingMove() then
      placed[move.castleRookDestination := RookPiece.NewRook(move.castleRookDestination, move.castleRook.alliance, defaultFirstMove)]
    else placed
  }

  /** The builder's map after execution still holds a king of each side. */
  predicate KeepsKings(b: Board, move: Move, defaultFirstMove: bool)
    requires Executable(move) && !move.NullMove?
  {
    var config := ExecutedConfig(b, move, defaultFirstMove);
    ConfigHasKing(config, White) && ConfigHasKing(config, Black)
  }

  /**
   * The board a move leads to. The null move fails, and so does a pawn jump
   * whose piece is not a pawn, and so does a move after which a side has no
   * king; otherwise the new tiles are those of the executed map, the opponent
   * is to move and a pawn is capturable en passant exactly after a pawn jump.
   */
  function ExecutedBoard(b: Board, move: Move, defaultFirstMove: bool): (r: Result<Board, ExecError>)
    requires Executable(move)
    ensures r.Failure? <==>
      move.NullMove? || (move.PawnJump? && move.movedPiece.pieceType != Pawn) || !KeepsKings(b, move, defaultFirstMove)
    ensures r.Failure? && !move.NullMove? && !(move.PawnJump? && move.movedPiece.pieceType != Pawn) ==>
      r.error.BuildFailed? && r.error.cause.NoKing?
    ensures r.Success? ==> r.value.gameBoard == GameBoard(ExecutedConfig(b, move, defaultFirstMove))
    ensures r.Success? ==> r.value.currentPlayer == b.currentPlayer.Opponent()
    ensures r.Success? ==> (r.value.enPassantPawn.Some? <==> move.PawnJump?)
    ensures r.Success? && move.PawnJump? ==>
      r.value.enPassantPawn.value.pieceType == Pawn &&
      r.value.enPassantPawn.value.position == move.destinationCoordinate
  {
    if move.NullMove? then Failure(NullMoveError)
    else if move.PawnJump? && move.movedPiece.pieceType != Pawn then Failure(NotAPawn)
    else
      var config := ExecutedConfig(b, move, defaultFirstMove);
      var pawn := if move.PawnJump? then Some(MovePiece(move, defaultFirstMove)) else None;
      var built := BuildBoard(config, Some(b.currentPlayer.Opponent()), pawn);
      if built.Failure? then Failure(BuildFailed(built.error)) else Success(built.value)
  }

  /** Executes a move through a fresh builder, following the overrides of each move class. */
  method Execute(b: Board, move: Move, defaultFirstMove: bool) returns (r: Result<Board, ExecError>)
    requires Executable(move)
    ensures r == ExecutedBoard(b, move, defaultFirstMove)
  {
    if move.NullMove? {
      return Failure(NullMoveError);
    }
    var builder := new Builder();
    var own := CurrentPieces(b);
    for i := 0 to |own|
      invariant builder.Valid()
      invariant builder.boardConfig == PutAll(map[], own[..i], CurrentSkip(move))
      invariant builder.nextMoveMaker == None && builder.enPassantPawn == None
    {
      assert own[..i + 1][..i] == own[..i];
      var piece := own[i];
      if piece != move.movedPiece && !(move.IsCastlingMove() && piece == move.castleRook) {
        builder.SetPiece(piece);
      }
    }
    assert own[..|own|] == own;
    var own' := builder.boardConfig;
    var opponent := OpponentPieces(b);
    for i := 0 to |opponent|
      invariant builder.Valid()
      invariant builder.boardConfig == PutAll(own', opponent[..i], OpponentSkip(move))
      invariant builder.nextMoveMaker == None && builder.enPassantPawn == None
    {
      assert opponent[..i + 1][..i] == opponent[..i];
      var piece := opponent[i];
      if !(move.EnPassantMove? && piece == move.attackedPiece) {
        builder.SetPiece(piece);
      }
    }
    assert opponent[..|opponent|] == opponent;
    if move.PawnJump? && move.movedPiece.pieceType != Pawn {
      return Failure(NotAPawn);
    }
    var moved := MovePiece(move, defaultFirstMove);
    builder.SetPiece(moved);
    if move.IsCastlingMove() {
      builder.SetPiece(RookPiece.NewRook(move.castleRookDestination, move.castleRook.alliance, defaultFirstMove));
    }
    if move.PawnJump? {
      builder.SetEnPassantPawn(Some(moved));
    }
    builder.SetMoveMaker(b.currentPlayer.Opponent());
    var built := builder.Build();
    if built.Failure? {
      return Failure(BuildFailed(built.error));
    }
    r := Success(built.value);
  }

  /**
   * Setting the active pieces of side a, minus skip, on top of m: square k
   * then holds the piece of side a on tile k unless it is skipped, and
   * whatever m held otherwise.
   */
  lemma {:induction false} ScanLookup(m: map<int, Piece>, tiles: seq<Tile>, a: Alliance, skip: set<Piece>, k: int)
    requires ConfigValid(m) && PositionsMatch(tiles)
    ensures Lookup(PutAll(m, ActivePieces(tiles, a), skip), k) ==
      if 0 <= k < |tiles| && HoldsAlly(tiles, k, a) && tiles[k].pieceOnTile !in skip then Some(tiles[k].pieceOnTile)
      else Lookup(m, k)
  {
    if tiles != [] {
      var n := |tiles| - 1;
      var init := tiles[..n];
      assert PositionsMatch(init) by {
        forall i | 0 <= i < |init| && init[i].IsTileOccupied() ensures init[i].pieceOnTile.position == i {
          assert init[i] == tiles[i];
        }
      }
      ScanLookup(m, init, a, skip, k);
      var ps := ActivePieces(tiles, a);
      var t := tiles[n];
      if t.IsTileOccupied() && t.pieceOnTile.alliance == a {
        assert ps[..|ps| - 1] == ActivePieces(init, a);
        assert ps[|ps| - 1] == t.pieceOnTile;
      } else {
        assert ps == ActivePieces(init, a);
      }
      if 0 <= k < n {
        assert init[k] == tiles[k];
      }
    }
  }

  /** A piece survives execution unless its side's copy loop skips it. */
  predicate Survives(b: Board, move: Move, q: Piece)
    requires Executable(move) && !move.NullMove?
  {
    if q.alliance == b.currentPlayer then q !in CurrentSkip(move) else q !in OpponentSkip(move)
  }

  /**
   * Square k after executing a move on a consistent board: a castle's rook
   * on its destination, else the moved piece on its destination, else the
   * old piece on k if it survives, else nothing.
   */
  lemma ExecutedTile(b: Board, move: Move, defaultFirstMove: bool, k: int)
    requires BoardValid(b) && Executable(move) && ExecutedBoard(b, move, defaultFirstMove).Success?
    requires 0 <= k < NumTiles
    ensures var tile := ExecutedBoard(b, move, defaultFirstMove).value.gameBoard[k];
      tile.GetPiece() ==
        if move.IsCastlingMove() && k == move.castleRookDestination then
          Some(RookPiece.NewRook(k, move.castleRook.alliance, defaultFirstMove))
        else if k == move.destinationCoordinate then Some(MovePiece(move, defaultFirstMove))
        else if b.gameBoard[k].IsTileOccupied() && Survives(b, move, b.gameBoard[k].pieceOnTile) then
          Some(b.gameBoard[k].pieceOnTile)
        else None
  {
    RemainingLookup(b, move, k);
  }

  /** After the copy loops, square k holds the old piece on k exactly when that piece survives. */
  lemma RemainingLookup(b: Board, move: Move, k: int)
    requires BoardValid(b) && Executable(move) && !move.NullMove?
    requires 0 <= k < NumTiles
    ensures Lookup(Remaining(b, move), k) ==
      if b.gameBoard[k].IsTileOccupied() && Survives(b, move, b.gameBoard[k].pieceOnTile) then
        Some(b.gameBoard[k].pieceOnTile)
      else None
  {
    var tiles := b.gameBoard;
    assert PositionsMatch(tiles);
    assert CurrentPieces(b) == ActivePieces(tiles, b.currentPlayer);
    assert OpponentPieces(b) == ActivePieces(tiles, b.currentPlayer.Opponent());
    TwoScans(tiles, b.currentPlayer, CurrentSkip(move), OpponentSkip(move), k);
  }

  /** Copying both sides' active pieces, each minus its skip set, keeps exactly the unskipped pieces on their squares. */
  lemma TwoScans(tiles: seq<Tile>, cur: Alliance, currentSkip: set<Piece>, opponentSkip: set<Piece>, k: int)
    requires PositionsMatch(tiles) && 0 <= k < |tiles|
    ensures Lookup(PutAll(PutAll(map[], ActivePieces(tiles, cur), currentSkip), ActivePieces(tiles, cur.Opponent()), opponentSkip), k) ==
      if tiles[k].IsTileOccupied() &&
         (if tiles[k].pieceOnTile.alliance == cur then tiles[k].pieceOnTile !in currentSkip else tiles[k].pieceOnTile !in opponentSkip)
      then Some(tiles[k].pieceOnTile)
      else None
  {
    var own := PutAll(map[], ActivePieces(tiles, cur), currentSkip);
    ScanLookup(map[], tiles, cur, currentSkip, k);
    ScanLookup(own, tiles, cur.Opponent(), opponentSkip, k);
  }

  /** Outside a castle, the executed map holds the moved piece on its destination and the copied pieces elsewhere. */
  lemma ExecutedConfigAt(b: Board, move: Move, defaultFirstMove: bool, k: int)
    requires Executable(move) && !move.NullMove? && !move.IsCastlingMove()
    ensures Lookup(ExecutedConfig(b, move, defaultFirstMove), k) ==
      if k == move.destinationCoordinate then Some(MovePiece(move, defaultFirstMove)) else Lookup(Remaining(b, move), k)
  {
  }

  /** The moved piece, with its own type and side, stands on the destination afterwards. */
  lemma ExecuteMovesPiece(b: Board, move: Move, defaultFirstMove: bool)
    requires BoardValid(b) && Executable(move) && ExecutedBoard(b, move, defaultFirstMove).Success?
    requires 0 <= move.destinationCoordinate < NumTiles
    requires move.IsCastlingMove() ==> move.castleRookDestination != move.destinationCoordinate
    ensures var tile := ExecutedBoard(b, move, defaultFirstMove).value.gameBoard[move.destinationCoordinate];
      && tile.IsTileOccupied()
      && tile.pieceOnTile.pieceType == move.movedPiece.pieceType
      && tile.pieceOnTile.alliance == move.movedPiece.alliance
  {
    ExecutedTile(b, move, defaultFirstMove, move.destinationCoordinate);
  }

  /**
   * A capture: when the destination held a piece of the other side, it holds
   * the mover's piece afterwards, so the captured piece is gone from there.
   */
  lemma ExecuteCaptures(b: Board, move: Move, defaultFirstMove: bool)
    requires BoardValid(b) && Executable(move) && ExecutedBoard(b, move, defaultFirstMove).Success?
    requires 0 <= move.destinationCoordinate < NumTiles
    requires !move.IsCastlingMove()
    requires HoldsEnemy(b.gameBoard, move.destinationCoordinate, move.movedPiece.alliance)
    ensures var nb := ExecutedBoard(b, move, defaultFirstMove).value;
      HoldsAlly(nb.gameBoard, move.destinationCoordinate, move.movedPiece.alliance) &&
      nb.gameBoard[move.destinationCoordinate].pieceOnTile != b.gameBoard[move.destinationCoordinate].pieceOnTile
  {
    ExecutedTile(b, move, defaultFirstMove, move.destinationCoordinate);
  }

  /**
   * The origin square is empty afterwards when the moved piece stood there
   * for the side to move and nothing is placed back onto it.
   */
  lemma ExecuteVacatesOrigin(b: Board, move: Move, defaultFirstMove: bool)
    requires BoardValid(b) && Executable(move) && ExecutedBoard(b, move, defaultFirstMove).Success?
    requires var o := move.movedPiece.position;
      0 <= o < NumTiles && b.gameBoard[o].GetPiece() == Some(move.movedPiece)
    requires move.movedPiece.alliance == b.currentPlayer
    requires move.destinationCoordinate != move.movedPiece.position
    requires move.IsCastlingMove() ==> move.castleRookDestination != move.movedPiece.position
    ensures !ExecutedBoard(b, move, defaultFirstMove).value.gameBoard[move.movedPiece.position].IsTileOccupied()
  {
    ExecutedTile(b, move, defaultFirstMove, move.movedPiece.position);
  }

  /**
   * Every other square keeps its contents: a square that is neither the
   * destination nor a castle's rook destination, and whose piece (if any)
   * is not removed by the move, is unchanged.
   */
  lemma ExecuteKeepsOthers(b: Board, move: Move, defaultFirstMove: bool, k: int)
    requires BoardValid(b) && Executable(move) && ExecutedBoard(b, move, defaultFirstMove).Success?
    requires 0 <= k < NumTiles && k != move.destinationCoordinate
    requires move.IsCastlingMove() ==> k != move.castleRookDestination
    requires b.gameBoard[k].IsTileOccupied() ==> Survives(b, move, b.gameBoard[k].pieceOnTile)
    ensures ExecutedBoard(b, move, defaultFirstMove).value.gameBoard[k].GetPiece() == b.gameBoard[k].GetPiece()
  {
    ExecutedTile(b, move, defaultFirstMove, k);
  }

  /** En passant removes the captured pawn from its own square, which is not the destination. */
  lemma EnPassantRemovesPawn(b: Board, move: Move, defaultFirstMove: bool)
    requires BoardValid(b) && move.EnPassantMove?
    requires var q := move.attackedPiece;
      0 <= q.position < NumTiles && b.gameBoard[q.position].GetPiece() == Some(q) && q.alliance != b.currentPlayer
    requires move.attackedPiece.position != move.destinationCoordinate
    ensures var r := ExecutedBoard(b, move, defaultFirstMove);
      r.Success? ==> !r.value.gameBoard[move.attackedPiece.position].IsTileOccupied()
  {
    if ExecutedBoard(b, move, defaultFirstMove).Success? {
      ExecutedTile(b, move, defaultFirstMove, move.attackedPiece.position);
    }
  }

  /**
   * A castle puts the king on its destination and a rook of the same side on
   * the rook destination, and empties the rook's start square.
   */
  lemma CastleMovesRook(b: Board, move: Move, defaultFirstMove: bool)
    requires BoardValid(b) && move.IsCastlingMove()
    requires 0 <= move.destinationCoordinate < NumTiles && 0 <= move.castleRookDestination < NumTiles
    requires move.castleRookDestination != move.destinationCoordinate
    requires var q := move.castleRook;
      0 <= q.position < NumTiles && b.gameBoard[q.position].GetPiece() == Some(q) && q.alliance == b.currentPlayer
    requires move.castleRook.position != move.destinationCoordinate && move.castleRook.position != move.castleRookDestination
    ensures var r := ExecutedBoard(b, move, defaultFirstMove);
      r.Success? ==>
      && r.value.gameBoard[move.castleRookDestination].GetPiece() ==
           Some(RookPiece.NewRook(move.castleRookDestination, move.castleRook.alliance, defaultFirstMove))
      && r.value.gameBoard[move.destinationCoordinate].GetPiece() == Some(MovePiece(move, defaultFirstMove))
      && !r.value.gameBoard[move.castleRook.position].IsTileOccupied()
  {
    if ExecutedBoard(b, move, defaultFirstMove).Success? {
      ExecutedTile(b, move, defaultFirstMove, move.castleRookDestination);
      ExecutedTile(b, move, defaultFirstMove, move.destinationCoordinate);
      ExecutedTile(b, move, defaultFirstMove, move.castleRook.position);
    }
  }

  /** The board a move leads to is again consistent, with the opponent to move. */
  lemma ExecutedBoardValid(b: Board, move: Move, defaultFirstMove: bool)
    requires Executable(move) && ExecutedBoard(b, move, defaultFirstMove).Success?
    ensures BoardValid(ExecutedBoard(b, move, defaultFirstMove).value)
  {
    var config := ExecutedConfig(b, move, defaultFirstMove);
    var pawn := if move.PawnJump? then Some(MovePiece(move, defaultFirstMove)) else None;
    BuiltBoardValid(config, Some(b.currentPlayer.Opponent()), pawn);
  }

  /** Whether a move leaves from the given square to the given square. */
  predicate Connects(m: Move, currentCoordinate: int, destinationCoordinate: int) {
    m.GetCurrentCoordinate() == currentCoordinate && m.GetDestinationCoordinate() == destinationCoordinate
  }

  /**
   * Looks a move up among all legal moves of the board by its two squares:
   * the first one that matches, or the null move when none does. On a
   * consistent board the null move is never among the legal moves, so the
   * null move comes back exactly when no legal move connects the squares.
   */
  method CreateMove(b: Board, currentCoordinate: int, destinationCoordinate: int) returns (m: Move)
    ensures || (exists i :: 0 <= i < |GetAllLegalMoves(b)| && GetAllLegalMoves(b)[i] == m &&
                 Connects(m, currentCoordinate, destinationCoordinate) &&
                 forall j :: 0 <= j < i ==> !Connects(GetAllLegalMoves(b)[j], currentCoordinate, destinationCoordinate))
            || (m == NullMove && forall x :: x in GetAllLegalMoves(b) ==> !Connects(x, currentCoordinate, destinationCoordinate))
    ensures BoardValid(b) && m == NullMove ==>
      forall x :: x in GetAllLegalMoves(b) ==> !Connects(x, currentCoordinate, destinationCoordinate)
  {
    var all := GetAllLegalMoves(b);
    for i := 0 to |all|
      invariant forall j :: 0 <= j < i ==> !Connects(all[j], currentCoordinate, destinationCoordinate)
    {
      if Connects(all[i], currentCoordinate, destinationCoordinate) {
        if BoardValid(b) {
          LegalMoveIsNotNull(b, i);
        }
        return all[i];
      }
    }
    return NullMove;
  }

  /** No move of a consistent board's lists is the null move: each leaves from a square of the board. */
  lemma LegalMoveIsNotNull(b: Board, i: int)
    requires BoardValid(b) && 0 <= i < |GetAllLegalMoves(b)|
    ensures GetAllLegalMoves(b)[i] != NullMove
  {
    var all := GetAllLegalMoves(b);
    var n := |b.whiteStandardLegalMoves|;
    if i < n {
      assert all[i] == b.whiteStandardLegalMoves[i];
      BoardMovesSound(b, White, all[i]);
    } else {
      assert all[i] == b.blackStandardLegalMoves[i - n];
      BoardMovesSound(b, Black, all[i]);
    }
  }
}
