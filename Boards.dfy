/**
 * The position: 64 tiles built from a square-keyed map of pieces, the
 * pieces of each side found by scanning the tiles, and each side's moves as
 * the concatenation of its pieces' moves.
 */
module Boards {
  import opened Wrappers
  import opened Pieces
  import opened Tiles
  import opened Moves
  import opened BoardUtils
  import KingPiece
  import KnightPiece
  import PawnPiece
  import BishopPiece
  import RookPiece
  import QueenPiece

  /**
   * Building fails when a side has no king (its player cannot establish
   * one), White checked first, or else when no side to move was set (the
   * choice of the current player dereferences it).
   */
  datatype BuildError = NoKing(side: Alliance) | NoMoveMaker

  /**
   * A built board. The two players are represented by their move lists and
   * the side to move; the player objects themselves are not part of this model.
   */
  datatype Board = Board(
    gameBoard: seq<Tile>,
    whitePieces: seq<Piece>,
    blackPieces: seq<Piece>,
    enPassantPawn: Option<Piece>,
    whiteStandardLegalMoves: seq<Move>,
    blackStandardLegalMoves: seq<Move>,
    currentPlayer: Alliance)

  /** A builder map is consistent when every piece is stored under its own square. */
  predicate ConfigValid(config: map<int, Piece>) {
    forall k :: k in config ==> config[k].position == k
  }

  function Lookup(config: map<int, Piece>, k: int): Option<Piece> {
    if k in config then Some(config[k]) else None
  }

  /**
   * The tiles of a board built from the map: tile i has coordinate i and
   * holds exactly the piece stored under key i, or is empty.
   */
  function GameBoard(config: map<int, Piece>): (tiles: seq<Tile>)
    requires ConfigValid(config)
    ensures WellFormedTiles(tiles)
    ensures forall i :: 0 <= i < NumTiles ==>
      tiles[i].GetTileCoordinate() == i && tiles[i].GetPiece() == Lookup(config, i)
  {
    seq(NumTiles, i requires 0 <= i < NumTiles => CreateTile(i, Lookup(config, i)).value)
  }

  method CreateGameBoard(config: map<int, Piece>) returns (gameBoard: seq<Tile>)
    requires ConfigValid(config)
    ensures gameBoard == GameBoard(config)
  {
    var tiles := new Tile[NumTiles](i => EmptyTile(i));
    for i := 0 to NumTiles
      invariant forall k :: 0 <= k < i ==> tiles[k] == GameBoard(config)[k]
    {
      tiles[i] := CreateTile(i, Lookup(config, i)).value;
    }
    gameBoard := tiles[..];
  }

  /** The pieces of side a on the given tiles, in tile order. */
  function ActivePieces(tiles: seq<Tile>, a: Alliance): seq<Piece> {
    if tiles == [] then []
    else
      var t := tiles[|tiles| - 1];
      ActivePieces(tiles[..|tiles| - 1], a) + (if t.IsTileOccupied() && t.pieceOnTile.alliance == a then [t.pieceOnTile] else [])
  }

  method CalculateActivePieces(gameBoard: seq<Tile>, alliance: Alliance) returns (activePieces: seq<Piece>)
    ensures activePieces == ActivePieces(gameBoard, alliance)
  {
    activePieces := [];
    for i := 0 to |gameBoard|
      invariant activePieces == ActivePieces(gameBoard[..i], alliance)
    {
      var tile := gameBoard[i];
      assert gameBoard[..i + 1][..i] == gameBoard[..i];
      if tile.IsTileOccupied() {
        var piece := tile.pieceOnTile;
        if piece.alliance == alliance {
          activePieces := activePieces + [piece];
        }
      }
    }
    assert gameBoard[..|gameBoard|] == gameBoard;
  }

  /** A piece is active for side a exactly when some tile holds it and it belongs to a. */
  lemma {:induction false} ActivePiecesMember(tiles: seq<Tile>, a: Alliance, p: Piece)
    ensures p in ActivePieces(tiles, a) <==>
      p.alliance == a && exists i :: 0 <= i < |tiles| && tiles[i].IsTileOccupied() && tiles[i].pieceOnTile == p
  {
    if tiles != [] {
      var init := tiles[..|tiles| - 1];
      ActivePiecesMember(init, a, p);
      if p.alliance == a && exists i :: 0 <= i < |tiles| && tiles[i].IsTileOccupied() && tiles[i].pieceOnTile == p {
        var i :| 0 <= i < |tiles| && tiles[i].IsTileOccupied() && tiles[i].pieceOnTile == p;
        if i < |tiles| - 1 {
          assert init[i] == tiles[i];
        }
      }
    }
  }

  /** Every occupied tile holds a piece whose position is the tile's index. */
  predicate PositionsMatch(tiles: seq<Tile>) {
    forall i :: 0 <= i < |tiles| && tiles[i].IsTileOccupied() ==> tiles[i].pieceOnTile.position == i
  }

  /**
   * On tiles whose pieces stand on their own squares, the active pieces come
   * in strictly ascending square order and all stand on the scanned tiles.
   */
  lemma {:induction false} ActivePiecesAscending(tiles: seq<Tile>, a: Alliance)
    requires PositionsMatch(tiles)
    ensures forall j :: 0 <= j < |ActivePieces(tiles, a)| ==>
      0 <= ActivePieces(tiles, a)[j].position < |tiles| && ActivePieces(tiles, a)[j].alliance == a
    ensures forall j, k :: 0 <= j < k < |ActivePieces(tiles, a)| ==>
      ActivePieces(tiles, a)[j].position < ActivePieces(tiles, a)[k].position
  {
    if tiles != [] {
      var init := tiles[..|tiles| - 1];
      assert PositionsMatch(init) by {
        forall i | 0 <= i < |init| && init[i].IsTileOccupied() ensures init[i].pieceOnTile.position == i {
          assert init[i] == tiles[i];
        }
      }
      ActivePiecesAscending(init, a);
    }
  }

  /** The squares among the first n tiles that hold a piece of side a. */
  function AllySquares(tiles: seq<Tile>, n: int, a: Alliance): set<int>
    requires 0 <= n <= |tiles|
  {
    set i | 0 <= i < n && HoldsAlly(tiles, i, a)
  }

  /** The number of active pieces equals the number of tiles holding a piece of that side. */
  lemma {:induction false} ActivePiecesCount(tiles: seq<Tile>, a: Alliance)
    ensures |ActivePieces(tiles, a)| == |AllySquares(tiles, |tiles|, a)|
  {
    if tiles != [] {
      var n := |tiles| - 1;
      var init := tiles[..n];
      ActivePiecesCount(init, a);
      assert AllySquares(init, n, a) == AllySquares(tiles, n, a) by {
        forall i | 0 <= i < n ensures HoldsAlly(init, i, a) == HoldsAlly(tiles, i, a) {
          assert init[i] == tiles[i];
        }
      }
      if HoldsAlly(tiles, n, a) {
        assert AllySquares(tiles, n + 1, a) == AllySquares(tiles, n, a) + {n};
      } else {
        assert AllySquares(tiles, n + 1, a) == AllySquares(tiles, n, a);
      }
    }
  }

  /** The moves a piece generates, by its type. */
  function PieceMoves(tiles: seq<Tile>, p: Piece): seq<Move>
    requires WellFormedTiles(tiles) && 0 <= p.position < NumTiles
  {
    match p.pieceType
    case Pawn => PawnPiece.PawnMoves(tiles, p)
    case Knight => KnightPiece.KnightMoves(tiles, p)
    case Bishop => BishopPiece.BishopMoves(tiles, p)
    case Rook => RookPiece.RookMoves(tiles, p)
    case Queen => QueenPiece.QueenMoves(tiles, p)
    case King => KingPiece.KingMoves(tiles, p)
  }

  /** Dispatches to the generator of the piece's class. */
  method CalculatePieceLegalMoves(tiles: seq<Tile>, p: Piece) returns (legalMoves: seq<Move>)
    requires WellFormedTiles(tiles) && 0 <= p.position < NumTiles
    ensures legalMoves == PieceMoves(tiles, p)
  {
    match p.pieceType
    case Pawn => legalMoves := PawnPiece.CalculateLegalMoves(tiles, p);
    case Knight => legalMoves := KnightPiece.CalculateLegalMoves(tiles, p);
    case Bishop => legalMoves := BishopPiece.CalculateLegalMoves(tiles, p);
    case Rook => legalMoves := RookPiece.CalculateLegalMoves(tiles, p);
    case Queen => legalMoves := QueenPiece.CalculateLegalMoves(tiles, p);
    case King => legalMoves := KingPiece.CalculateLegalMoves(tiles, p);
  }

  /**
   * Every generated move is made by the piece from its own square, lands on
   * another square of the board, never on a piece of the mover's side, and
   * is never a castle.
   */
  lemma PieceMovesSound(tiles: seq<Tile>, p: Piece, m: Move)
    requires WellFormedTiles(tiles) && 0 <= p.position < NumTiles
    requires m in PieceMoves(tiles, p)
    ensures m.GetMovedPiece() == Some(p) && m.GetCurrentCoordinate() == p.position
    ensures 0 <= m.GetDestinationCoordinate() < NumTiles && m.GetDestinationCoordinate() != p.position
    ensures !HoldsAlly(tiles, m.GetDestinationCoordinate(), p.alliance) && !m.IsCastlingMove()
  {
    match p.pieceType
    case Pawn => PawnPiece.PawnMovesSound(tiles, p, m);
    case Knight => KnightPiece.KnightMovesSound(tiles, p, m);
    case Bishop => BishopPiece.BishopMovesSound(tiles, p, m);
    case Rook => RookPiece.RookMovesSound(tiles, p, m);
    case Queen => QueenPiece.QueenMovesSound(tiles, p, m);
    case King => KingPiece.KingMovesSound(tiles, p, m);
  }

  predicate AllOnBoard(pieces: seq<Piece>) {
    forall j :: 0 <= j < |pieces| ==> 0 <= pieces[j].position < NumTiles
  }

  /** The moves of the given pieces, piece by piece in list order. */
  function LegalMoves(tiles: seq<Tile>, pieces: seq<Piece>): seq<Move>
    requires WellFormedTiles(tiles) && AllOnBoard(pieces)
  {
    if pieces == [] then []
    else LegalMoves(tiles, pieces[..|pieces| - 1]) + PieceMoves(tiles, pieces[|pieces| - 1])
  }

  method CalculateLegalMoves(tiles: seq<Tile>, pieces: seq<Piece>) returns (legalMoves: seq<Move>)
    requires WellFormedTiles(tiles) && AllOnBoard(pieces)
    ensures legalMoves == LegalMoves(tiles, pieces)
  {
    legalMoves := [];
    for i := 0 to |pieces|
      invariant legalMoves == LegalMoves(tiles, pieces[..i])
    {
      assert pieces[..i + 1][..i] == pieces[..i];
      var pieceMoves := CalculatePieceLegalMoves(tiles, pieces[i]);
      legalMoves := legalMoves + pieceMoves;
    }
    assert pieces[..|pieces|] == pieces;
  }

  /** A move is in a side's list exactly when one of its pieces generates it. */
  lemma {:induction false} LegalMovesMember(tiles: seq<Tile>, pieces: seq<Piece>, m: Move)
    requires WellFormedTiles(tiles) && AllOnBoard(pieces)
    ensures m in LegalMoves(tiles, pieces) <==>
      exists j :: 0 <= j < |pieces| && m in PieceMoves(tiles, pieces[j])
  {
    if pieces != [] {
      var init := pieces[..|pieces| - 1];
      LegalMovesMember(tiles, init, m);
      if m in LegalMoves(tiles, pieces) && !(m in LegalMoves(tiles, init)) {
        assert m in PieceMoves(tiles, pieces[|pieces| - 1]);
      }
      if j :| 0 <= j < |pieces| && m in PieceMoves(tiles, pieces[j]) {
        if j < |pieces| - 1 {
          assert init[j] == pieces[j];
        }
      }
    }
  }

  /** Some piece of the list is a king. */
  predicate HasKing(pieces: seq<Piece>) {
    exists j :: 0 <= j < |pieces| && pieces[j].pieceType == King
  }

  /** The map holds a king of side a on a square of the board. */
  predicate ConfigHasKing(config: map<int, Piece>, a: Alliance) {
    exists k :: k in config && 0 <= k < NumTiles && config[k].alliance == a && config[k].pieceType == King
  }

  /** A side's active pieces include a king exactly when the map holds a king of that side on the board. */
  lemma KingOnBoard(config: map<int, Piece>, a: Alliance)
    requires ConfigValid(config)
    ensures HasKing(ActivePieces(GameBoard(config), a)) <==> ConfigHasKing(config, a)
  {
    var tiles := GameBoard(config);
    var pieces := ActivePieces(tiles, a);
    if HasKing(pieces) {
      var j :| 0 <= j < |pieces| && pieces[j].pieceType == King;
      ActivePiecesMember(tiles, a, pieces[j]);
      var i :| 0 <= i < |tiles| && tiles[i].IsTileOccupied() && tiles[i].pieceOnTile == pieces[j];
      assert i in config && config[i] == pieces[j];
    }
    if ConfigHasKing(config, a) {
      var k :| k in config && 0 <= k < NumTiles && config[k].alliance == a && config[k].pieceType == King;
      assert tiles[k].IsTileOccupied() && tiles[k].pieceOnTile == config[k];
      ActivePiecesMember(tiles, a, config[k]);
      var j :| 0 <= j < |pieces| && pieces[j] == config[k];
    }
  }

  /**
   * The board the builder's state describes. It fails with NoKing(White)
   * when the map holds no white king, else with NoKing(Black) when it holds
   * no black king, else with NoMoveMaker when no side to move was set.
   */
  function BuildBoard(config: map<int, Piece>, nextMoveMaker: Option<Alliance>, enPassantPawn: Option<Piece>): (r: Result<Board, BuildError>)
    requires ConfigValid(config)
    ensures r.Success? <==> ConfigHasKing(config, White) && ConfigHasKing(config, Black) && nextMoveMaker.Some?
    ensures r == Failure(NoKing(White)) <==> !ConfigHasKing(config, White)
    ensures r == Failure(NoKing(Black)) <==> ConfigHasKing(config, White) && !ConfigHasKing(config, Black)
    ensures r.Success? ==> r.value.gameBoard == GameBoard(config) && r.value.currentPlayer == nextMoveMaker.value
    ensures r.Success? ==> r.value.enPassantPawn == enPassantPawn
  {
    var tiles := GameBoard(config);
    var whitePieces := ActivePieces(tiles, White);
    var blackPieces := ActivePieces(tiles, Black);
    KingOnBoard(config, White);
    KingOnBoard(config, Black);
    if !HasKing(whitePieces) then Failure(NoKing(White))
    else if !HasKing(blackPieces) then Failure(NoKing(Black))
    else if nextMoveMaker.None? then Failure(NoMoveMaker)
    else
      ActivePiecesAscending(tiles, White);
      ActivePiecesAscending(tiles, Black);
      Success(Board(tiles, whitePieces, blackPieces, enPassantPawn,
                    LegalMoves(tiles, whitePieces), LegalMoves(tiles, blackPieces), nextMoveMaker.value))
  }

  /**
   * A map without any king is refused for White first: the white player is
   * constructed before the black one.
   */
  lemma KinglessBoardRejected(config: map<int, Piece>, nextMoveMaker: Option<Alliance>, enPassantPawn: Option<Piece>)
    requires ConfigValid(config)
    requires forall k :: k in config ==> config[k].pieceType != King
    ensures BuildBoard(config, nextMoveMaker, enPassantPawn) == Failure(NoKing(White))
  {
  }

  /** The invariants every built board satisfies. */
  predicate BoardValid(b: Board) {
    WellFormedTiles(b.gameBoard) &&
    b.whitePieces == ActivePieces(b.gameBoard, White) && b.blackPieces == ActivePieces(b.gameBoard, Black) &&
    AllOnBoard(b.whitePieces) && AllOnBoard(b.blackPieces) &&
    b.whiteStandardLegalMoves == LegalMoves(b.gameBoard, b.whitePieces) &&
    b.blackStandardLegalMoves == LegalMoves(b.gameBoard, b.blackPieces)
  }

  /**
   * A built board is consistent: its piece lists are the tile scans, and
   * every move in a side's list is made by a piece of that side standing on
   * its origin tile, onto another square not holding a piece of that side.
   */
  lemma BuiltBoardValid(config: map<int, Piece>, nextMoveMaker: Option<Alliance>, enPassantPawn: Option<Piece>)
    requires ConfigValid(config) && BuildBoard(config, nextMoveMaker, enPassantPawn).Success?
    ensures BoardValid(BuildBoard(config, nextMoveMaker, enPassantPawn).value)
  {
    var tiles := GameBoard(config);
    ActivePiecesAscending(tiles, White);
    ActivePiecesAscending(tiles, Black);
  }

  /** Every move of a side's list on a valid board is a move of one of that side's pieces, from its own tile. */
  lemma BoardMovesSound(b: Board, a: Alliance, m: Move)
    requires BoardValid(b)
    requires m in (if a == White then b.whiteStandardLegalMoves else b.blackStandardLegalMoves)
    ensures m.GetMovedPiece().Some? && m.GetMovedPiece().value.alliance == a
    ensures 0 <= m.GetCurrentCoordinate() < NumTiles && HoldsAlly(b.gameBoard, m.GetCurrentCoordinate(), a)
    ensures b.gameBoard[m.GetCurrentCoordinate()].pieceOnTile == m.GetMovedPiece().value
    ensures 0 <= m.GetDestinationCoordinate() < NumTiles && m.GetDestinationCoordinate() != m.GetCurrentCoordinate()
    ensures !HoldsAlly(b.gameBoard, m.GetDestinationCoordinate(), a) && !m.IsCastlingMove()
  {
    var pieces := if a == White then b.whitePieces else b.blackPieces;
    LegalMovesMember(b.gameBoard, pieces, m);
    var j :| 0 <= j < |pieces| && m in PieceMoves(b.gameBoard, pieces[j]);
    var p := pieces[j];
    PieceMovesSound(b.gameBoard, p, m);
    assert p in ActivePieces(b.gameBoard, a);
    ActivePiecesMember(b.gameBoard, a, p);
  }

  /** All moves on the board: White's list followed by Black's. */
  function GetAllLegalMoves(b: Board): (ms: seq<Move>)
    ensures |ms| == |b.whiteStandardLegalMoves| + |b.blackStandardLegalMoves|
    ensures ms[..|b.whiteStandardLegalMoves|] == b.whiteStandardLegalMoves
    ensures ms[|b.whiteStandardLegalMoves|..] == b.blackStandardLegalMoves
  {
    b.whiteStandardLegalMoves + b.blackStandardLegalMoves
  }

  /**
   * The builder: a square-keyed map of pieces, the side to move and the
   * en-passant pawn, each filled in by its setter before the board is built.
   */
  class Builder {
    var boardConfig: map<int, Piece>
    var nextMoveMaker: Option<Alliance>
    var enPassantPawn: Option<Piece>

    /** Every piece is stored under its own square; setPiece keeps it so. */
    predicate Valid()
      reads this
    {
      ConfigValid(boardConfig)
    }

    constructor()
      ensures Valid()
      ensures boardConfig == map[] && nextMoveMaker == None && enPassantPawn == None
    {
      boardConfig := map[];
      nextMoveMaker := None;
      enPassantPawn := None;
    }

    /** Stores the piece under its own square, replacing whatever was stored there. */
    method SetPiece(piece: Piece)
      requires Valid()
      modifies this
      ensures Valid()
      ensures boardConfig == old(boardConfig)[piece.position := piece]
      ensures nextMoveMaker == old(nextMoveMaker) && enPassantPawn == old(enPassantPawn)
    {
      boardConfig := boardConfig[piece.position := piece];
    }

    method SetMoveMaker(moveMaker: Alliance)
      modifies this
      ensures nextMoveMaker == Some(moveMaker)
      ensures boardConfig == old(boardConfig) && enPassantPawn == old(enPassantPawn)
    {
      nextMoveMaker := Some(moveMaker);
    }

    method SetEnPassantPawn(pawn: Option<Piece>)
      modifies this
      ensures enPassantPawn == pawn
      ensures boardConfig == old(boardConfig) && nextMoveMaker == old(nextMoveMaker)
    {
      enPassantPawn := pawn;
    }

    /**
     * Builds the board: the tiles from the map, each side's pieces by a tile
     * scan, each side's moves from its pieces, and the side to move.
     */
    method Build() returns (r: Result<Board, BuildError>)
      requires Valid()
      ensures r == BuildBoard(boardConfig, nextMoveMaker, enPassantPawn)
    {
      var gameBoard := CreateGameBoard(boardConfig);
      var whitePieces := CalculateActivePieces(gameBoard, White);
      var blackPieces := CalculateActivePieces(gameBoard, Black);
      ActivePiecesAscending(gameBoard, White);
      ActivePiecesAscending(gameBoard, Black);
      var whiteStandardLegalMoves := CalculateLegalMoves(gameBoard, whitePieces);
      var blackStandardLegalMoves := CalculateLegalMoves(gameBoard, blackPieces);
      KingOnBoard(boardConfig, White);
      KingOnBoard(boardConfig, Black);
      var whiteKing := EstablishKing(whitePieces);
      if whiteKing.None? {
        return Failure(NoKing(White));
      }
      var blackKing := EstablishKing(blackPieces);
      if blackKing.None? {
        return Failure(NoKing(Black));
      }
      if nextMoveMaker.None? {
        return Failure(NoMoveMaker);
      }
      r := Success(Board(gameBoard, whitePieces, blackPieces, enPassantPawn,
                         whiteStandardLegalMoves, blackStandardLegalMoves, nextMoveMaker.value));
    }
  }

  /** The first king among a player's active pieces, which that player's construction requires. */
  method EstablishKing(activePieces: seq<Piece>) returns (king: Option<Piece>)
    ensures king.Some? <==> HasKing(activePieces)
    ensures king.Some? ==> king.value.pieceType == King
    ensures king.Some? ==>
      exists j :: 0 <= j < |activePieces| && activePieces[j] == king.value && (forall i :: 0 <= i < j ==> activePieces[i].pieceType != King)
  {
    for j := 0 to |activePieces|
      invariant forall i :: 0 <= i < j ==> activePieces[i].pieceType != King
    {
      if activePieces[j].pieceType == King {
        return Some(activePieces[j]);
      }
    }
    return None;
  }

  /** The back-rank order from the a-file to the h-file. */
  const BackRank: seq<PieceType> := [Rook, Knight, Bishop, Queen, King, Bishop, Knight, Rook]

  /**
   * A back-rank piece as the starting position constructs it: rooks and
   * knights through the three-argument constructor (first-move flag
   * defaultFirstMove), the king with both castling rights set to castleCapable.
   */
  function BackRankPiece(position: int, a: Alliance, defaultFirstMove: bool, castleCapable: bool): (p: Piece)
    ensures p.pieceType == BackRank[File(position)] && p.position == position && p.alliance == a
  {
    match BackRank[File(position)]
    case Rook => RookPiece.NewRook(position, a, defaultFirstMove)
    case Knight => KnightPiece.NewKnight(position, a, defaultFirstMove)
    case Bishop => BishopPiece.NewBishop(position, a)
    case Queen => QueenPiece.NewQueen(position, a)
    case King => KingPiece.NewKing(position, a, castleCapable, castleCapable)
    case Pawn => PawnPiece.NewPawn(position, a)
  }

  /** The eight pawns of side a on the row starting at square start. */
  function PawnRow(start: int, a: Alliance): (config: map<int, Piece>)
    ensures ConfigValid(config)
    ensures forall k :: k in config <==> start <= k < start + 8
  {
    map k | start <= k < start + 8 :: PawnPiece.NewPawn(k, a)
  }

  /** The back rank of side a on the row starting at square start. */
  function BackRow(start: int, a: Alliance, defaultFirstMove: bool, castleCapable: bool): (config: map<int, Piece>)
    ensures ConfigValid(config)
    ensures forall k :: k in config <==> start <= k < start + 8
  {
    map k | start <= k < start + 8 :: BackRankPiece(k, a, defaultFirstMove, castleCapable)
  }

  /**
   * The starting position: Black's back rank on 0..7 and pawns on 8..15,
   * White's pawns on 48..55 and back rank on 56..63.
   */
  function StandardConfig(defaultFirstMove: bool, castleCapable: bool): (config: map<int, Piece>)
    ensures ConfigValid(config)
  {
    map[] + PawnRow(8, Black) + BackRow(0, Black, defaultFirstMove, castleCapable) +
    PawnRow(48, White) + BackRow(56, White, defaultFirstMove, castleCapable)
  }

  /** Setting the eight pawns of a row one by one adds that row to the map. */
  lemma PawnRowUpdates(m: map<int, Piece>, start: int, a: Alliance)
    ensures m[start := PawnPiece.NewPawn(start, a)][start + 1 := PawnPiece.NewPawn(start + 1, a)]
             [start + 2 := PawnPiece.NewPawn(start + 2, a)][start + 3 := PawnPiece.NewPawn(start + 3, a)]
             [start + 4 := PawnPiece.NewPawn(start + 4, a)][start + 5 := PawnPiece.NewPawn(start + 5, a)]
             [start + 6 := PawnPiece.NewPawn(start + 6, a)][start + 7 := PawnPiece.NewPawn(start + 7, a)]
            == m + PawnRow(start, a)
  {
  }

  /** Setting the back rank in the order rooks, knights, bishops, queen, king adds that row to the map. */
  lemma BackRowUpdates(m: map<int, Piece>, start: int, a: Alliance, defaultFirstMove: bool, castleCapable: bool)
    requires start == 0 || start == 56
    ensures m[start := RookPiece.NewRook(start, a, defaultFirstMove)][start + 7 := RookPiece.NewRook(start + 7, a, defaultFirstMove)]
             [start + 1 := KnightPiece.NewKnight(start + 1, a, defaultFirstMove)][start + 6 := KnightPiece.NewKnight(start + 6, a, defaultFirstMove)]
             [start + 2 := BishopPiece.NewBishop(start + 2, a)][start + 5 := BishopPiece.NewBishop(start + 5, a)]
             [start + 3 := QueenPiece.NewQueen(start + 3, a)][start + 4 := KingPiece.NewKing(start + 4, a, castleCapable, castleCapable)]
            == m + BackRow(start, a, defaultFirstMove, castleCapable)
  {
    BackRowAt(start, a, defaultFirstMove, castleCapable);
    BackOrderUpdates(m, BackRow(start, a, defaultFirstMove, castleCapable), start);
  }

  /** Writing the eight entries of a row in the order 0, 7, 1, 6, 2, 5, 3, 4 adds the row to the map. */
  lemma BackOrderUpdates(m: map<int, Piece>, r: map<int, Piece>, start: int)
    requires forall k :: k in r <==> start <= k < start + 8
    ensures m[start := r[start]][start + 7 := r[start + 7]][start + 1 := r[start + 1]][start + 6 := r[start + 6]]
             [start + 2 := r[start + 2]][start + 5 := r[start + 5]][start + 3 := r[start + 3]][start + 4 := r[start + 4]]
            == m + r
  {
    var lhs := m[start := r[start]][start + 7 := r[start + 7]][start + 1 := r[start + 1]][start + 6 := r[start + 6]]
             [start + 2 := r[start + 2]][start + 5 := r[start + 5]][start + 3 := r[start + 3]][start + 4 := r[start + 4]];
    forall k
      ensures k in lhs <==> k in m + r
      ensures k in lhs ==> lhs[k] == (m + r)[k]
    {
      assert k in r <==> start <= k < start + 8;
    }
  }

  /** The eight squares of a back row hold rook, knight, bishop, queen, king, bishop, knight, rook. */
  lemma BackRowAt(start: int, a: Alliance, defaultFirstMove: bool, castleCapable: bool)
    requires start == 0 || start == 56
    ensures var r := BackRow(start, a, defaultFirstMove, castleCapable);
      && r[start] == RookPiece.NewRook(start, a, defaultFirstMove)
      && r[start + 1] == KnightPiece.NewKnight(start + 1, a, defaultFirstMove)
      && r[start + 2] == BishopPiece.NewBishop(start + 2, a)
      && r[start + 3] == QueenPiece.NewQueen(start + 3, a)
      && r[start + 4] == KingPiece.NewKing(start + 4, a, castleCapable, castleCapable)
      && r[start + 5] == BishopPiece.NewBishop(start + 5, a)
      && r[start + 6] == KnightPiece.NewKnight(start + 6, a, defaultFirstMove)
      && r[start + 7] == RookPiece.NewRook(start + 7, a, defaultFirstMove)
  {
    BackRowSquare(start, 0, a, defaultFirstMove, castleCapable);
    BackRowSquare(start, 1, a, defaultFirstMove, castleCapable);
    BackRowSquare(start, 2, a, defaultFirstMove, castleCapable);
    BackRowSquare(start, 3, a, defaultFirstMove, castleCapable);
    BackRowSquare(start, 4, a, defaultFirstMove, castleCapable);
    BackRowSquare(start, 5, a, defaultFirstMove, castleCapable);
    BackRowSquare(start, 6, a, defaultFirstMove, castleCapable);
    BackRowSquare(start, 7, a, defaultFirstMove, castleCapable);
    BackRankPieceByFile(start, a, defaultFirstMove, castleCapable);
    BackRankPieceByFile(start + 1, a, defaultFirstMove, castleCapable);
    BackRankPieceByFile(start + 2, a, defaultFirstMove, castleCapable);
    BackRankPieceByFile(start + 3, a, defaultFirstMove, castleCapable);
    BackRankPieceByFile(start + 4, a, defaultFirstMove, castleCapable);
    BackRankPieceByFile(start + 5, a, defaultFirstMove, castleCapable);
    BackRankPieceByFile(start + 6, a, defaultFirstMove, castleCapable);
    BackRankPieceByFile(start + 7, a, defaultFirstMove, castleCapable);
  }

  /** Square `start + f` of a back rank holds the back-rank piece of file `f`. */
  lemma BackRowSquare(start: int, f: int, a: Alliance, defaultFirstMove: bool, castleCapable: bool)
    requires start == 0 || start == 56
    requires 0 <= f < 8
    ensures start + f in BackRow(start, a, defaultFirstMove, castleCapable)
    ensures BackRow(start, a, defaultFirstMove, castleCapable)[start + f] == BackRankPiece(start + f, a, defaultFirstMove, castleCapable)
    ensures File(start + f) == f
  {
  }

  /** The back-rank piece of each file: rook, knight, bishop, queen, king, bishop, knight, rook. */
  lemma BackRankPieceByFile(position: int, a: Alliance, defaultFirstMove: bool, castleCapable: bool)
    ensures var p := BackRankPiece(position, a, defaultFirstMove, castleCapable);
      && (File(position) == 0 || File(position) == 7 ==> p == RookPiece.NewRook(position, a, defaultFirstMove))
      && (File(position) == 1 || File(position) == 6 ==> p == KnightPiece.NewKnight(position, a, defaultFirstMove))
      && (File(position) == 2 || File(position) == 5 ==> p == BishopPiece.NewBishop(position, a))
      && (File(position) == 3 ==> p == QueenPiece.NewQueen(position, a))
      && (File(position) == 4 ==> p == KingPiece.NewKing(position, a, castleCapable, castleCapable))
  {
  }

  /** Sets the 32 pieces of the starting position, White to move, and builds. */
  method CreateStandardBoard(defaultFirstMove: bool, castleCapable: bool) returns (board: Result<Board, BuildError>)
    ensures board.Success?
    ensures board == BuildBoard(StandardConfig(defaultFirstMove, castleCapable), Some(White), None)
  {
    var builder := new Builder();
    builder.SetPiece(PawnPiece.NewPawn(8, Black));
    builder.SetPiece(PawnPiece.NewPawn(9, Black));
    builder.SetPiece(PawnPiece.NewPawn(10, Black));
    builder.SetPiece(PawnPiece.NewPawn(11, Black));
    builder.SetPiece(PawnPiece.NewPawn(12, Black));
    builder.SetPiece(PawnPiece.NewPawn(13, Black));
    builder.SetPiece(PawnPiece.NewPawn(14, Black));
    builder.SetPiece(PawnPiece.NewPawn(15, Black));
    PawnRowUpdates(map[], 8, Black);
    builder.SetPiece(RookPiece.NewRook(0, Black, defaultFirstMove));
    builder.SetPiece(RookPiece.NewRook(7, Black, defaultFirstMove));
    builder.SetPiece(KnightPiece.NewKnight(1, Black, defaultFirstMove));
    builder.SetPiece(KnightPiece.NewKnight(6, Black, defaultFirstMove));
    builder.SetPiece(BishopPiece.NewBishop(2, Black));
    builder.SetPiece(BishopPiece.NewBishop(5, Black));
    builder.SetPiece(QueenPiece.NewQueen(3, Black));
    builder.SetPiece(KingPiece.NewKing(4, Black, castleCapable, castleCapable));
    BackRowUpdates(map[] + PawnRow(8, Black), 0, Black, defaultFirstMove, castleCapable);
    builder.SetPiece(PawnPiece.NewPawn(48, White));
    builder.SetPiece(PawnPiece.NewPawn(49, White));
    builder.SetPiece(PawnPiece.NewPawn(50, White));
    builder.SetPiece(PawnPiece.NewPawn(51, White));
    builder.SetPiece(PawnPiece.NewPawn(52, White));
    builder.SetPiece(PawnPiece.NewPawn(53, White));
    builder.SetPiece(PawnPiece.NewPawn(54, White));
    builder.SetPiece(PawnPiece.NewPawn(55, White));
    PawnRowUpdates(map[] + PawnRow(8, Black) + BackRow(0, Black, defaultFirstMove, castleCapable), 48, White);
    builder.SetPiece(RookPiece.NewRook(56, White, defaultFirstMove));
    builder.SetPiece(RookPiece.NewRook(63, White, defaultFirstMove));
    builder.SetPiece(KnightPiece.NewKnight(57, White, defaultFirstMove));
    builder.SetPiece(KnightPiece.NewKnight(62, White, defaultFirstMove));
    builder.SetPiece(BishopPiece.NewBishop(58, White));
    builder.SetPiece(BishopPiece.NewBishop(61, White));
    builder.SetPiece(QueenPiece.NewQueen(59, White));
    builder.SetPiece(KingPiece.NewKing(60, White, castleCapable, castleCapable));
    BackRowUpdates(map[] + PawnRow(8, Black) + BackRow(0, Black, defaultFirstMove, castleCapable) + PawnRow(48, White),
                   56, White, defaultFirstMove, castleCapable);
    builder.SetMoveMaker(White);
    board := builder.Build();
    StandardBuilds(defaultFirstMove, castleCapable);
  }

  /** The starting position, White to move, builds. */
  lemma StandardBuilds(defaultFirstMove: bool, castleCapable: bool)
    ensures BuildBoard(StandardConfig(defaultFirstMove, castleCapable), Some(White), None).Success?
  {
    StandardHasKings(defaultFirstMove, castleCapable);
  }

  /** The starting position holds a black king on e8 (square 4) and a white king on e1 (square 60). */
  lemma StandardHasKings(defaultFirstMove: bool, castleCapable: bool)
    ensures var config := StandardConfig(defaultFirstMove, castleCapable);
      && 4 in config && config[4].pieceType == King && config[4].alliance == Black
      && 60 in config && config[60].pieceType == King && config[60].alliance == White
    ensures ConfigHasKing(StandardConfig(defaultFirstMove, castleCapable), White)
    ensures ConfigHasKing(StandardConfig(defaultFirstMove, castleCapable), Black)
  {
    StandardConfigLayout(defaultFirstMove, castleCapable);
    var config := StandardConfig(defaultFirstMove, castleCapable);
    assert File(4) == 4 && File(60) == 4;
    assert config[4].pieceType == King && config[60].pieceType == King;
  }

  /**
   * The starting position occupies exactly squares 0..15 (Black) and 48..63
   * (White); ranks 2 and 7 are pawns and the back ranks follow BackRank.
   */
  lemma StandardConfigLayout(defaultFirstMove: bool, castleCapable: bool)
    ensures var config := StandardConfig(defaultFirstMove, castleCapable);
      forall k :: k in config <==> (0 <= k < 16 || 48 <= k < NumTiles)
    ensures var config := StandardConfig(defaultFirstMove, castleCapable);
      forall k :: k in config ==>
        config[k].alliance == (if k < 16 then Black else White) &&
        config[k].pieceType == (if 8 <= k < 56 then Pawn else BackRank[File(k)])
  {
  }

  /** The integers lo .. hi-1, as a set. */
  function Interval(lo: int, hi: int): (r: set<int>)
    ensures forall i :: i in r <==> lo <= i < hi
    decreases hi - lo
  {
    if hi <= lo then {} else Interval(lo, hi - 1) + {hi - 1}
  }

  /** The interval lo .. hi-1 has hi - lo elements. */
  lemma {:induction false} IntervalSize(lo: int, hi: int)
    requires lo <= hi
    ensures |Interval(lo, hi)| == hi - lo
    decreases hi - lo
  {
    if lo < hi {
      IntervalSize(lo, hi - 1);
      assert hi - 1 !in Interval(lo, hi - 1);
    }
  }

  /** On the standard board's tiles Black holds 0..15, ranks 3 to 6 are empty and White holds 48..63. */
  lemma StandardTiles(defaultFirstMove: bool, castleCapable: bool)
    ensures var tiles := GameBoard(StandardConfig(defaultFirstMove, castleCapable));
      && (forall i :: 0 <= i < 16 ==> HoldsAlly(tiles, i, Black))
      && (forall i :: 16 <= i < 48 ==> !tiles[i].IsTileOccupied())
      && (forall i :: 48 <= i < NumTiles ==> HoldsAlly(tiles, i, White))
  {
    StandardConfigLayout(defaultFirstMove, castleCapable);
  }

  /**
   * The standard board: Black holds squares 0..15, White holds 48..63, the
   * middle four ranks are empty, each side has sixteen active pieces, White
   * moves first and no pawn is capturable en passant.
   */
  lemma StandardBoardLayout(defaultFirstMove: bool, castleCapable: bool)
    ensures BuildBoard(StandardConfig(defaultFirstMove, castleCapable), Some(White), None).Success?
    ensures var b := BuildBoard(StandardConfig(defaultFirstMove, castleCapable), Some(White), None).value;
      && (forall i :: 0 <= i < 16 ==> HoldsAlly(b.gameBoard, i, Black))
      && (forall i :: 16 <= i < 48 ==> !b.gameBoard[i].IsTileOccupied())
      && (forall i :: 48 <= i < NumTiles ==> HoldsAlly(b.gameBoard, i, White))
      && |b.whitePieces| == 16 && |b.blackPieces| == 16
      && b.currentPlayer == White && b.enPassantPawn == None
  {
    var config := StandardConfig(defaultFirstMove, castleCapable);
    StandardBuilds(defaultFirstMove, castleCapable);
    BuiltBoardValid(config, Some(White), None);
    StandardTiles(defaultFirstMove, castleCapable);
    HalvesCount(GameBoard(config));
  }

  /** Tiles holding Black on 0..15 and White on 48..63 only give each side sixteen active pieces. */
  lemma HalvesCount(tiles: seq<Tile>)
    requires |tiles| == NumTiles
    requires forall i :: 0 <= i < 16 ==> HoldsAlly(tiles, i, Black)
    requires forall i :: 16 <= i < 48 ==> !tiles[i].IsTileOccupied()
    requires forall i :: 48 <= i < NumTiles ==> HoldsAlly(tiles, i, White)
    ensures |ActivePieces(tiles, White)| == 16 && |ActivePieces(tiles, Black)| == 16
  {
    forall i | 0 <= i < |tiles|
      ensures HoldsAlly(tiles, i, White) <==> 48 <= i < NumTiles
      ensures HoldsAlly(tiles, i, Black) <==> 0 <= i < 16
    {
      if i < 16 {
        assert HoldsAlly(tiles, i, Black);
      } else if i < 48 {
        assert !tiles[i].IsTileOccupied();
      } else {
        assert HoldsAlly(tiles, i, White);
      }
    }
    ActivePiecesInBlock(tiles, White, 48, NumTiles);
    ActivePiecesInBlock(tiles, Black, 0, 16);
  }

  /** When side a holds exactly the squares lo .. hi-1, it has hi - lo active pieces. */
  lemma ActivePiecesInBlock(tiles: seq<Tile>, a: Alliance, lo: int, hi: int)
    requires 0 <= lo <= hi <= |tiles|
    requires forall i :: 0 <= i < |tiles| ==> (HoldsAlly(tiles, i, a) <==> lo <= i < hi)
    ensures |ActivePieces(tiles, a)| == hi - lo
  {
    ActivePiecesCount(tiles, a);
    assert AllySquares(tiles, |tiles|, a) == Interval(lo, hi);
    IntervalSize(lo, hi);
  }
}
