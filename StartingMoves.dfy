/**
 * The moves available in two fixed positions: the standard starting
 * position, where each side has twenty quiet moves (sixteen pawn moves and
 * four knight moves), and the position with only the two kings and the two
 * e-pawns, where each side has six.
 */
module StartingMoves {
  import opened Wrappers
  import opened Pieces
  import opened Tiles
  import opened Moves
  import opened BoardUtils
  import opened Generation
  import opened Sliding
  import opened Boards
  import KingPiece
  import KnightPiece
  import PawnPiece
  import BishopPiece
  import RookPiece
  import QueenPiece
  import Execution

  /** A move that neither captures nor castles. */
  predicate Quiet(m: Move) {
    !m.IsAttack() && !m.IsCastlingMove()
  }

  /** The piece the starting position puts on square i (0..15 and 48..63). */
  predicate StartingPiece(p: Piece, i: int)
    requires 0 <= i < NumTiles
  {
    p.position == i &&
    p.alliance == (if i < 16 then Black else White) &&
    p.pieceType == (if 8 <= i < 56 then Pawn else BackRank[File(i)]) &&
    (p.pieceType == Pawn ==> p.isFirstMove)
  }

  /** Tiles laid out as the starting position: two full ranks per side and four empty ranks between. */
  predicate StartingTiles(tiles: seq<Tile>) {
    WellFormedTiles(tiles) &&
    (forall i :: 16 <= i < 48 ==> !tiles[i].IsTileOccupied()) &&
    (forall i :: 0 <= i < 16 ==> tiles[i].IsTileOccupied() && StartingPiece(tiles[i].pieceOnTile, i)) &&
    (forall i :: 48 <= i < NumTiles ==> tiles[i].IsTileOccupied() && StartingPiece(tiles[i].pieceOnTile, i))
  }

  /** The moves the piece on square i has in the starting position. */
  function StartingMoveCount(i: int): nat {
    if 8 <= i < 16 || 48 <= i < 56 then 2
    else if i == 1 || i == 6 || i == 57 || i == 62 then 2
    else 0
  }

  /** The moves of the pieces on squares lo .. lo+n-1 added up. */
  function StartingMoveTotal(lo: int, n: nat): nat {
    if n == 0 then 0 else StartingMoveTotal(lo, n - 1) + StartingMoveCount(lo + n - 1)
  }

  /** Eight steps of a table, one by one. */
  lemma LeapsUnfold(tiles: seq<Tile>, p: Piece, offs: seq<int>, c: int)
    requires WellFormedTiles(tiles) && 0 <= c < NumTiles && |offs| == 8
    ensures Leaps(tiles, p, offs, c) ==
      Leap(tiles, p, offs[0], c) + Leap(tiles, p, offs[1], c) + Leap(tiles, p, offs[2], c) + Leap(tiles, p, offs[3], c) +
      Leap(tiles, p, offs[4], c) + Leap(tiles, p, offs[5], c) + Leap(tiles, p, offs[6], c) + Leap(tiles, p, offs[7], c)
  {
    var o1, o2, o3, o4 := offs[..1], offs[..2], offs[..3], offs[..4];
    var o5, o6, o7 := offs[..5], offs[..6], offs[..7];
    assert o1[..0] == [] && o2[..1] == o1 && o3[..2] == o2 && o4[..3] == o3;
    assert o5[..4] == o4 && o6[..5] == o5 && o7[..6] == o6 && offs[..7] == o7;
    assert Leaps(tiles, p, o1, c) == Leap(tiles, p, offs[0], c);
    assert Leaps(tiles, p, o2, c) == Leaps(tiles, p, o1, c) + Leap(tiles, p, offs[1], c);
    assert Leaps(tiles, p, o3, c) == Leaps(tiles, p, o2, c) + Leap(tiles, p, offs[2], c);
    assert Leaps(tiles, p, o4, c) == Leaps(tiles, p, o3, c) + Leap(tiles, p, offs[3], c);
    assert Leaps(tiles, p, o5, c) == Leaps(tiles, p, o4, c) + Leap(tiles, p, offs[4], c);
    assert Leaps(tiles, p, o6, c) == Leaps(tiles, p, o5, c) + Leap(tiles, p, offs[5], c);
    assert Leaps(tiles, p, o7, c) == Leaps(tiles, p, o6, c) + Leap(tiles, p, offs[6], c);
  }

  /**
   * From a piece on its own back rank of the starting position, every unit
   * step leaves the board, crosses an edge, or lands on a piece of its side.
   */
  lemma BackRankBlocked(tiles: seq<Tile>, p: Piece, offset: int, c: int)
    requires StartingTiles(tiles) && IsUnitOffset(offset)
    requires (p.alliance == White && 56 <= c < NumTiles) || (p.alliance == Black && 0 <= c < 8)
    ensures Leap(tiles, p, offset, c) == []
    ensures Ray(tiles, p, offset, c) == []
  {
    UnitOffsetDeltas(offset);
    OffsetStep(c, offset);
    if !Wraps(c, offset) && IsValidTileCoordinate(c + offset) {
      var d := c + offset;
      assert p.alliance == White ==> 48 <= d;
      assert p.alliance == Black ==> d < 16;
      assert HoldsAlly(tiles, d, p.alliance);
    }
  }

  /** A pawn on its start rank in the starting position has its push and its jump, in that order. */
  lemma StartingPawnMoves(tiles: seq<Tile>, p: Piece)
    requires StartingTiles(tiles) && (8 <= p.position < 16 || 48 <= p.position < 56)
    requires StartingPiece(p, p.position)
    ensures var dir := p.alliance.Direction();
      PawnPiece.PawnMoves(tiles, p) == [MajorMove(p, p.position + dir * 8), PawnJump(p, p.position + dir * 16)]
  {
    PawnPiece.PawnMovesUnfold(tiles, p);
    MaskMeaning(p.position);
    assert PawnPiece.PawnCandidate(tiles, p, 7) == [];
    assert PawnPiece.PawnCandidate(tiles, p, 9) == [];
  }

  /** A knight of the starting position has two quiet moves, both forward. */
  lemma StartingKnightMoves(tiles: seq<Tile>, p: Piece)
    requires StartingTiles(tiles) && p.position in {1, 6, 57, 62} && StartingPiece(p, p.position)
    ensures |KnightPiece.KnightMoves(tiles, p)| == 2
    ensures forall m :: m in KnightPiece.KnightMoves(tiles, p) ==> m.MajorMove?
  {
    LeapsUnfold(tiles, p, KnightPiece.CandidateMoveCoordinates, p.position);
  }

  /**
   * Every piece of the starting position has exactly the moves counted by
   * StartingMoveCount, and none of them captures or castles.
   */
  lemma StartingPieceMoves(tiles: seq<Tile>, p: Piece)
    requires StartingTiles(tiles) && (0 <= p.position < 16 || 48 <= p.position < NumTiles)
    requires StartingPiece(p, p.position)
    ensures |PieceMoves(tiles, p)| == StartingMoveCount(p.position)
    ensures forall m :: m in PieceMoves(tiles, p) ==> Quiet(m)
  {
    var c := p.position;
    if 8 <= c < 56 {
      StartingPawnMoves(tiles, p);
    } else {
      match p.pieceType
      case Knight =>
        assert c in {1, 6, 57, 62};
        StartingKnightMoves(tiles, p);
      case Rook =>
        RookPiece.RookMovesUnfold(tiles, p);
        BackRankBlocked(tiles, p, -8, c);
        BackRankBlocked(tiles, p, -1, c);
        BackRankBlocked(tiles, p, 1, c);
        BackRankBlocked(tiles, p, 8, c);
      case Bishop =>
        BishopPiece.BishopMovesUnfold(tiles, p);
        BackRankBlocked(tiles, p, -9, c);
        BackRankBlocked(tiles, p, -7, c);
        BackRankBlocked(tiles, p, 7, c);
        BackRankBlocked(tiles, p, 9, c);
      case Queen =>
        QueenPiece.QueenMovesUnfold(tiles, p);
        forall o | IsUnitOffset(o) ensures Ray(tiles, p, o, c) == [] {
          BackRankBlocked(tiles, p, o, c);
        }
      case King =>
        LeapsUnfold(tiles, p, KingPiece.CandidateMoveCoordinates, c);
        forall o | IsUnitOffset(o) ensures Leap(tiles, p, o, c) == [] {
          BackRankBlocked(tiles, p, o, c);
        }
      case Pawn =>
        assert false;
    }
  }

  /** The pieces on squares lo .. hi-1, in square order. */
  function PiecesOn(tiles: seq<Tile>, lo: int, hi: int): (ps: seq<Piece>)
    requires 0 <= lo <= hi <= |tiles|
    requires forall i :: lo <= i < hi ==> tiles[i].OccupiedTile?
    ensures |ps| == hi - lo && forall j :: 0 <= j < hi - lo ==> ps[j] == tiles[lo + j].pieceOnTile
  {
    seq(hi - lo, j requires 0 <= j < hi - lo => tiles[lo + j].pieceOnTile)
  }

  /** Scanning one more tile appends its piece exactly when it holds a piece of side a. */
  lemma ActivePiecesStep(tiles: seq<Tile>, a: Alliance, n: int)
    requires 0 <= n < |tiles|
    ensures ActivePieces(tiles[..n + 1], a) ==
      ActivePieces(tiles[..n], a) + (if HoldsAlly(tiles, n, a) then [tiles[n].pieceOnTile] else [])
  {
    assert tiles[..n + 1][..n] == tiles[..n];
  }

  /** Scanning tiles without a piece of side a adds nothing. */
  lemma {:induction false} ActivePiecesSkip(tiles: seq<Tile>, a: Alliance, lo: int, hi: int)
    requires 0 <= lo <= hi <= |tiles|
    requires forall i :: lo <= i < hi ==> !HoldsAlly(tiles, i, a)
    ensures ActivePieces(tiles[..hi], a) == ActivePieces(tiles[..lo], a)
    decreases hi - lo
  {
    if lo < hi {
      ActivePiecesStep(tiles, a, hi - 1);
      ActivePiecesSkip(tiles, a, lo, hi - 1);
    }
  }

  /** Scanning tiles that all hold pieces of side a appends those pieces in order. */
  lemma {:induction false} ActivePiecesBlock(tiles: seq<Tile>, a: Alliance, lo: int, hi: int)
    requires 0 <= lo <= hi <= |tiles|
    requires forall i :: lo <= i < hi ==> tiles[i].OccupiedTile? && tiles[i].pieceOnTile.alliance == a
    ensures ActivePieces(tiles[..hi], a) == ActivePieces(tiles[..lo], a) + PiecesOn(tiles, lo, hi)
    decreases hi - lo
  {
    if lo < hi {
      ActivePiecesStep(tiles, a, hi - 1);
      ActivePiecesBlock(tiles, a, lo, hi - 1);
      assert PiecesOn(tiles, lo, hi) == PiecesOn(tiles, lo, hi - 1) + [tiles[hi - 1].pieceOnTile];
    }
  }

  /**
   * The moves of a side's first n pieces in the starting position (lo = 0 for
   * Black, 48 for White) are quiet and number StartingMoveTotal(lo, n).
   */
  lemma {:induction false} StartingLegalMoves(tiles: seq<Tile>, lo: int, n: nat)
    requires StartingTiles(tiles) && (lo == 0 || lo == 48) && n <= 16
    ensures AllOnBoard(PiecesOn(tiles, lo, lo + n))
    ensures |LegalMoves(tiles, PiecesOn(tiles, lo, lo + n))| == StartingMoveTotal(lo, n)
    ensures forall m :: m in LegalMoves(tiles, PiecesOn(tiles, lo, lo + n)) ==> Quiet(m)
  {
    var ps := PiecesOn(tiles, lo, lo + n);
    assert AllOnBoard(ps);
    if n > 0 {
      StartingLegalMoves(tiles, lo, n - 1);
      assert ps[..n - 1] == PiecesOn(tiles, lo, lo + n - 1);
      var last := tiles[lo + n - 1].pieceOnTile;
      StartingPieceMoves(tiles, last);
      assert LegalMoves(tiles, ps) == LegalMoves(tiles, ps[..n - 1]) + PieceMoves(tiles, last);
    }
  }

  /** In the starting position each side holds sixteen pieces, whose moves are quiet and number twenty. */
  lemma StartingSides(tiles: seq<Tile>)
    requires StartingTiles(tiles)
    ensures ActivePieces(tiles, White) == PiecesOn(tiles, 48, NumTiles)
    ensures ActivePieces(tiles, Black) == PiecesOn(tiles, 0, 16)
  {
    assert tiles[..NumTiles] == tiles && tiles[..0] == [];
    ActivePiecesSkip(tiles, White, 0, 48);
    ActivePiecesBlock(tiles, White, 48, NumTiles);
    ActivePiecesBlock(tiles, Black, 0, 16);
    ActivePiecesSkip(tiles, Black, 16, NumTiles);
  }

  /** In the starting position each side's moves are quiet and number twenty. */
  lemma StartingSideMoves(tiles: seq<Tile>)
    requires StartingTiles(tiles)
    ensures AllOnBoard(ActivePieces(tiles, White)) && AllOnBoard(ActivePieces(tiles, Black))
    ensures |LegalMoves(tiles, ActivePieces(tiles, White))| == 20
    ensures |LegalMoves(tiles, ActivePieces(tiles, Black))| == 20
    ensures forall m :: m in LegalMoves(tiles, ActivePieces(tiles, White)) ==> Quiet(m)
    ensures forall m :: m in LegalMoves(tiles, ActivePieces(tiles, Black)) ==> Quiet(m)
  {
    StartingSides(tiles);
    StartingLegalMoves(tiles, 48, 16);
    StartingLegalMoves(tiles, 0, 16);
    StartingTotals();
  }

  /** Both sides' counts add up to twenty: sixteen pawn moves and four knight moves. */
  lemma StartingTotals()
    ensures StartingMoveTotal(48, 16) == 20 && StartingMoveTotal(0, 16) == 20
  {
    assert StartingMoveTotal(48, 8) == 16;
    assert StartingMoveTotal(48, 12) == 18;
    assert StartingMoveTotal(0, 4) == 2;
    assert StartingMoveTotal(0, 8) == 4;
    assert StartingMoveTotal(0, 12) == 12;
  }

  /** The pawns of the standard board are the pawns the pawn constructor builds. */
  lemma StandardPawns(defaultFirstMove: bool, castleCapable: bool)
    ensures var config := StandardConfig(defaultFirstMove, castleCapable);
      forall k :: 8 <= k < 16 ==> k in config && config[k] == PawnPiece.NewPawn(k, Black)
    ensures var config := StandardConfig(defaultFirstMove, castleCapable);
      forall k :: 48 <= k < 56 ==> k in config && config[k] == PawnPiece.NewPawn(k, White)
  {
  }

  /** The tiles of the standard board are laid out as the starting position. */
  lemma StandardStartingTiles(defaultFirstMove: bool, castleCapable: bool)
    ensures StartingTiles(GameBoard(StandardConfig(defaultFirstMove, castleCapable)))
  {
    var config := StandardConfig(defaultFirstMove, castleCapable);
    var tiles := GameBoard(config);
    StandardConfigLayout(defaultFirstMove, castleCapable);
    StandardPawns(defaultFirstMove, castleCapable);
    forall i | 0 <= i < 16 || 48 <= i < NumTiles
      ensures tiles[i].IsTileOccupied() && StartingPiece(tiles[i].pieceOnTile, i)
    {
      assert i in config;
      assert tiles[i].GetPiece() == Some(config[i]);
    }
    forall i | 16 <= i < 48 ensures !tiles[i].IsTileOccupied() {
      assert i !in config;
      assert tiles[i].GetPiece() == None;
    }
  }

  /**
   * On the standard board each side has twenty moves, forty in all, and no
   * move captures or castles.
   */
  lemma StandardBoardMoves(defaultFirstMove: bool, castleCapable: bool)
    ensures BuildBoard(StandardConfig(defaultFirstMove, castleCapable), Some(White), None).Success?
    ensures var b := BuildBoard(StandardConfig(defaultFirstMove, castleCapable), Some(White), None).value;
      && |b.whiteStandardLegalMoves| == 20 && |b.blackStandardLegalMoves| == 20
      && |GetAllLegalMoves(b)| == 40
      && forall m :: m in GetAllLegalMoves(b) ==> Quiet(m)
  {
    var config := StandardConfig(defaultFirstMove, castleCapable);
    var tiles := GameBoard(config);
    StandardBuilds(defaultFirstMove, castleCapable);
    StandardStartingTiles(defaultFirstMove, castleCapable);
    StartingSideMoves(tiles);
    var b := BuildBoard(config, Some(White), None).value;
    assert b.gameBoard == tiles;
    assert b.whiteStandardLegalMoves == LegalMoves(tiles, ActivePieces(tiles, White));
    assert b.blackStandardLegalMoves == LegalMoves(tiles, ActivePieces(tiles, Black));
  }

  /** The kings-and-pawns position: kings on e8 and e1, pawns on e7 and e2, White to move. */
  function PlainKingConfig(): (config: map<int, Piece>)
    ensures ConfigValid(config) && config.Keys == {4, 12, 52, 60}
  {
    map[4 := KingPiece.NewKing(4, Black, false, false), 12 := PawnPiece.NewPawn(12, Black),
        52 := PawnPiece.NewPawn(52, White), 60 := KingPiece.NewKing(60, White, false, false)]
  }

  /** Only the four squares of the position hold a piece. */
  lemma PlainKingTiles()
    ensures var tiles := GameBoard(PlainKingConfig());
      forall i :: 0 <= i < NumTiles ==> (tiles[i].IsTileOccupied() <==> i in {4, 12, 52, 60})
  {
    var config := PlainKingConfig();
    var tiles := GameBoard(config);
    forall i | 0 <= i < NumTiles ensures tiles[i].IsTileOccupied() <==> i in {4, 12, 52, 60} {
      assert tiles[i].GetPiece() == Lookup(config, i);
    }
  }

  /** White's piece list in the kings-and-pawns position: the pawn, then the king. */
  lemma PlainKingWhiteSide()
    ensures ActivePieces(GameBoard(PlainKingConfig()), White) ==
      [PawnPiece.NewPawn(52, White), KingPiece.NewKing(60, White, false, false)]
  {
    var config := PlainKingConfig();
    var tiles := GameBoard(config);
    PlainKingTiles();
    assert tiles[4].GetPiece() == Lookup(config, 4) && tiles[12].GetPiece() == Lookup(config, 12);
    assert tiles[52].GetPiece() == Lookup(config, 52) && tiles[60].GetPiece() == Lookup(config, 60);
    assert tiles[..NumTiles] == tiles && tiles[..0] == [];
    ActivePiecesSkip(tiles, White, 0, 52);
    ActivePiecesStep(tiles, White, 52);
    ActivePiecesSkip(tiles, White, 53, 60);
    ActivePiecesStep(tiles, White, 60);
    ActivePiecesSkip(tiles, White, 61, NumTiles);
  }

  /** Black's piece list in the kings-and-pawns position: the king, then the pawn. */
  lemma PlainKingBlackSide()
    ensures ActivePieces(GameBoard(PlainKingConfig()), Black) ==
      [KingPiece.NewKing(4, Black, false, false), PawnPiece.NewPawn(12, Black)]
  {
    var config := PlainKingConfig();
    var tiles := GameBoard(config);
    PlainKingTiles();
    assert tiles[4].GetPiece() == Lookup(config, 4) && tiles[12].GetPiece() == Lookup(config, 12);
    assert tiles[52].GetPiece() == Lookup(config, 52) && tiles[60].GetPiece() == Lookup(config, 60);
    assert tiles[..NumTiles] == tiles && tiles[..0] == [];
    ActivePiecesSkip(tiles, Black, 0, 4);
    ActivePiecesStep(tiles, Black, 4);
    ActivePiecesSkip(tiles, Black, 5, 12);
    ActivePiecesStep(tiles, Black, 12);
    ActivePiecesSkip(tiles, Black, 13, NumTiles);
  }

  /** White's king on e1 steps to d2, f2, d1 and f1; its own pawn blocks e2. */
  lemma PlainKingWhiteKing()
    ensures var k := KingPiece.NewKing(60, White, false, false);
      KingPiece.KingMoves(GameBoard(PlainKingConfig()), k) == [MajorMove(k, 51), MajorMove(k, 53), MajorMove(k, 59), MajorMove(k, 61)]
  {
    var tiles := GameBoard(PlainKingConfig());
    var k := KingPiece.NewKing(60, White, false, false);
    PlainKingTiles();
    assert tiles[52].GetPiece() == Lookup(PlainKingConfig(), 52);
    LeapsUnfold(tiles, k, KingPiece.CandidateMoveCoordinates, 60);
  }

  /** Black's king on e8 steps to d8, f8, d7 and f7; its own pawn blocks e7. */
  lemma PlainKingBlackKing()
    ensures var k := KingPiece.NewKing(4, Black, false, false);
      KingPiece.KingMoves(GameBoard(PlainKingConfig()), k) == [MajorMove(k, 3), MajorMove(k, 5), MajorMove(k, 11), MajorMove(k, 13)]
  {
    var tiles := GameBoard(PlainKingConfig());
    var k := KingPiece.NewKing(4, Black, false, false);
    PlainKingTiles();
    assert tiles[12].GetPiece() == Lookup(PlainKingConfig(), 12);
    LeapsUnfold(tiles, k, KingPiece.CandidateMoveCoordinates, 4);
  }

  /** Each e-pawn has its push and its jump and nothing to capture. */
  lemma PlainKingPawns()
    ensures var p := PawnPiece.NewPawn(52, White);
      PawnPiece.PawnMoves(GameBoard(PlainKingConfig()), p) == [MajorMove(p, 44), PawnJump(p, 36)]
    ensures var p := PawnPiece.NewPawn(12, Black);
      PawnPiece.PawnMoves(GameBoard(PlainKingConfig()), p) == [MajorMove(p, 20), PawnJump(p, 28)]
  {
    var tiles := GameBoard(PlainKingConfig());
    PlainKingTiles();
    var w := PawnPiece.NewPawn(52, White);
    var b := PawnPiece.NewPawn(12, Black);
    PawnPiece.PawnMovesUnfold(tiles, w);
    PawnPiece.PawnMovesUnfold(tiles, b);
    MaskMeaning(52);
    MaskMeaning(12);
  }

  /** The kings-and-pawns position builds: each side has its king. */
  lemma PlainKingBuilds()
    ensures BuildBoard(PlainKingConfig(), Some(White), None).Success?
  {
    var config := PlainKingConfig();
    assert config[60].pieceType == King && config[60].alliance == White;
    assert config[4].pieceType == King && config[4].alliance == Black;
  }

  /** The kings-and-pawns board is consistent, White is to move, and the kings stand on e1 and e8. */
  lemma PlainKingBoardFacts()
    ensures BoardValid(PlainKingBoard()) && PlainKingBoard().currentPlayer == White
    ensures PlainKingBoard().gameBoard[60].GetPiece() == Some(KingPiece.NewKing(60, White, false, false))
    ensures PlainKingBoard().gameBoard[4].GetPiece() == Some(KingPiece.NewKing(4, Black, false, false))
  {
    PlainKingBuilds();
    BuiltBoardValid(PlainKingConfig(), Some(White), None);
    assert PlainKingBoard().gameBoard == GameBoard(PlainKingConfig());
  }

  /** The board of the kings-and-pawns position. */
  function PlainKingBoard(): Board {
    PlainKingBuilds();
    BuildBoard(PlainKingConfig(), Some(White), None).value
  }

  /** The moves of a two-piece list: the first piece's, then the second's. */
  lemma LegalMovesOfTwo(tiles: seq<Tile>, x: Piece, y: Piece)
    requires WellFormedTiles(tiles) && 0 <= x.position < NumTiles && 0 <= y.position < NumTiles
    ensures LegalMoves(tiles, [x, y]) == PieceMoves(tiles, x) + PieceMoves(tiles, y)
  {
    assert [x, y][..1] == [x] && [x][..0] == [];
    assert LegalMoves(tiles, [x]) == PieceMoves(tiles, x);
  }

  /** White's list: the pawn's push and jump, then the king's four steps. */
  lemma PlainKingWhiteList()
    ensures var wp, wk := PawnPiece.NewPawn(52, White), KingPiece.NewKing(60, White, false, false);
      LegalMoves(GameBoard(PlainKingConfig()), [wp, wk]) ==
        [MajorMove(wp, 44), PawnJump(wp, 36), MajorMove(wk, 51), MajorMove(wk, 53), MajorMove(wk, 59), MajorMove(wk, 61)]
  {
    var tiles := GameBoard(PlainKingConfig());
    var wp, wk := PawnPiece.NewPawn(52, White), KingPiece.NewKing(60, White, false, false);
    PlainKingWhiteKing();
    PlainKingPawns();
    LegalMovesOfTwo(tiles, wp, wk);
    assert PieceMoves(tiles, wp) == PawnPiece.PawnMoves(tiles, wp);
    assert PieceMoves(tiles, wk) == KingPiece.KingMoves(tiles, wk);
  }

  /** Black's list: the king's four steps, then the pawn's push and jump. */
  lemma PlainKingBlackList()
    ensures var bk, bp := KingPiece.NewKing(4, Black, false, false), PawnPiece.NewPawn(12, Black);
      LegalMoves(GameBoard(PlainKingConfig()), [bk, bp]) ==
        [MajorMove(bk, 3), MajorMove(bk, 5), MajorMove(bk, 11), MajorMove(bk, 13), MajorMove(bp, 20), PawnJump(bp, 28)]
  {
    var tiles := GameBoard(PlainKingConfig());
    var bk, bp := KingPiece.NewKing(4, Black, false, false), PawnPiece.NewPawn(12, Black);
    PlainKingBlackKing();
    PlainKingPawns();
    LegalMovesOfTwo(tiles, bk, bp);
    assert PieceMoves(tiles, bk) == KingPiece.KingMoves(tiles, bk);
    assert PieceMoves(tiles, bp) == PawnPiece.PawnMoves(tiles, bp);
  }

  /**
   * In the kings-and-pawns position each side has six moves: White's pawn
   * push and jump then its king's four steps, Black's king's four steps then
   * its pawn push and jump.
   */
  lemma PlainKingMoves()
    ensures var b := PlainKingBoard();
      var wp, wk := PawnPiece.NewPawn(52, White), KingPiece.NewKing(60, White, false, false);
      b.whiteStandardLegalMoves ==
        [MajorMove(wp, 44), PawnJump(wp, 36), MajorMove(wk, 51), MajorMove(wk, 53), MajorMove(wk, 59), MajorMove(wk, 61)]
    ensures var b := PlainKingBoard();
      var bk, bp := KingPiece.NewKing(4, Black, false, false), PawnPiece.NewPawn(12, Black);
      b.blackStandardLegalMoves ==
        [MajorMove(bk, 3), MajorMove(bk, 5), MajorMove(bk, 11), MajorMove(bk, 13), MajorMove(bp, 20), PawnJump(bp, 28)]
    ensures |PlainKingBoard().whiteStandardLegalMoves| == 6 && |PlainKingBoard().blackStandardLegalMoves| == 6
  {
    var b := PlainKingBoard();
    PlainKingBuilds();
    BuiltBoardValid(PlainKingConfig(), Some(White), None);
    assert b.gameBoard == GameBoard(PlainKingConfig());
    PlainKingWhiteSide();
    PlainKingBlackSide();
    PlainKingWhiteList();
    PlainKingBlackList();
  }

  /** In the two six-move lists, the king's step to f1 is the only move from e1 to f1. */
  lemma OnlyStepConnects(white: seq<Move>, black: seq<Move>)
    requires var wp, wk := PawnPiece.NewPawn(52, White), KingPiece.NewKing(60, White, false, false);
      white == [MajorMove(wp, 44), PawnJump(wp, 36), MajorMove(wk, 51), MajorMove(wk, 53), MajorMove(wk, 59), MajorMove(wk, 61)]
    requires var bk, bp := KingPiece.NewKing(4, Black, false, false), PawnPiece.NewPawn(12, Black);
      black == [MajorMove(bk, 3), MajorMove(bk, 5), MajorMove(bk, 11), MajorMove(bk, 13), MajorMove(bp, 20), PawnJump(bp, 28)]
    ensures var step := MajorMove(KingPiece.NewKing(60, White, false, false), 61);
      && step in white + black
      && (forall m :: m in white + black && Execution.Connects(m, 60, 61) ==> m == step)
  {
    assert (white + black)[5] == white[5];
  }

  /**
   * Looking up e1 to f1 on that board finds exactly the king's step: no
   * other move of either side leaves e1 for f1.
   */
  lemma PlainKingLookupE1F1()
    ensures var b := PlainKingBoard();
      var step := MajorMove(KingPiece.NewKing(60, White, false, false), 61);
      && step in GetAllLegalMoves(b)
      && (forall m :: m in GetAllLegalMoves(b) && Execution.Connects(m, 60, 61) ==> m == step)
  {
    var b := PlainKingBoard();
    PlainKingMoves();
    OnlyStepConnects(b.whiteStandardLegalMoves, b.blackStandardLegalMoves);
  }

  /** Executing the king's step leaves e1 empty, puts the white king on f1 and gives Black the move. */
  lemma PlainKingExecuteE1F1(defaultFirstMove: bool)
    ensures var step := MajorMove(KingPiece.NewKing(60, White, false, false), 61);
      var r := Execution.ExecutedBoard(PlainKingBoard(), step, defaultFirstMove);
      && r.Success? && r.value.currentPlayer == Black
      && !r.value.gameBoard[60].IsTileOccupied()
      && r.value.gameBoard[61].IsTileOccupied()
      && r.value.gameBoard[61].pieceOnTile.pieceType == King
      && r.value.gameBoard[61].pieceOnTile.alliance == White
  {
    var b := PlainKingBoard();
    var step := MajorMove(KingPiece.NewKing(60, White, false, false), 61);
    PlainKingBoardFacts();
    PlainKingStepKeepsKings(defaultFirstMove);
    Execution.ExecuteMovesPiece(b, step, defaultFirstMove);
    Execution.ExecuteVacatesOrigin(b, step, defaultFirstMove);
  }

  /** After the e1-f1 step the white king stands on f1 and the black king still on e8, so the new board builds. */
  lemma PlainKingStepKeepsKings(defaultFirstMove: bool)
    ensures var step := MajorMove(KingPiece.NewKing(60, White, false, false), 61);
      Execution.ExecutedBoard(PlainKingBoard(), step, defaultFirstMove).Success?
  {
    var step := MajorMove(KingPiece.NewKing(60, White, false, false), 61);
    var config := Execution.ExecutedConfig(PlainKingBoard(), step, defaultFirstMove);
    PlainKingStepConfig(defaultFirstMove);
    assert ConfigHasKing(config, White) by {
      assert 61 in config && config[61].pieceType == King && config[61].alliance == White;
    }
    assert ConfigHasKing(config, Black) by {
      assert 4 in config && config[4].pieceType == King && config[4].alliance == Black;
    }
  }

  /** The builder's map after the e1-f1 step holds the white king on f1 and the black king on e8. */
  lemma PlainKingStepConfig(defaultFirstMove: bool)
    ensures var step := MajorMove(KingPiece.NewKing(60, White, false, false), 61);
      var config := Execution.ExecutedConfig(PlainKingBoard(), step, defaultFirstMove);
      && 61 in config && config[61].pieceType == King && config[61].alliance == White
      && 4 in config && config[4].pieceType == King && config[4].alliance == Black
  {
    var b := PlainKingBoard();
    var step := MajorMove(KingPiece.NewKing(60, White, false, false), 61);
    PlainKingBoardFacts();
    Execution.RemainingLookup(b, step, 4);
    Execution.ExecutedConfigAt(b, step, defaultFirstMove, 4);
    Execution.ExecutedConfigAt(b, step, defaultFirstMove, 61);
  }
}
