/** A square of the board: empty, or holding exactly one piece. */
module Tiles {
  import opened Wrappers
  import opened Pieces
  import BoardUtils

  datatype Tile = EmptyTile(tileCoordinate: int) | OccupiedTile(tileCoordinate: int, pieceOnTile: Piece) {

    predicate IsTileOccupied() { OccupiedTile? }

    function GetPiece(): (p: Option<Piece>)
      ensures p.Some? <==> IsTileOccupied()
    {
      if OccupiedTile? then Some(pieceOnTile) else None
    }

    function GetTileCoordinate(): int { tileCoordinate }

    /** "-" for an empty square, the piece letter for White, the lower-case letter for Black. */
    function ToString(): (s: string)
      ensures !IsTileOccupied() ==> s == "-"
      ensures IsTileOccupied() && pieceOnTile.alliance.IsWhite() ==> s == pieceOnTile.pieceType.Letter()
      ensures IsTileOccupied() && pieceOnTile.alliance.IsBlack() ==> s == LowerCase(pieceOnTile.pieceType.Letter())
      ensures |s| == 1
    {
      match this
      case EmptyTile(_) => "-"
      case OccupiedTile(_, p) =>
        if p.alliance.IsBlack() then LowerCase(p.pieceType.Letter()) else p.pieceType.Letter()
    }
  }

  /**
   * The tiles of a built board: 64 of them, tile i has coordinate i, and a
   * piece on tile i has position i.
   */
  predicate WellFormedTiles(tiles: seq<Tile>) {
    |tiles| == BoardUtils.NumTiles &&
    forall i :: 0 <= i < |tiles| ==>
      tiles[i].tileCoordinate == i && (tiles[i].OccupiedTile? ==> tiles[i].pieceOnTile.position == i)
  }

  /** Square s holds a piece of side a. */
  predicate HoldsAlly(tiles: seq<Tile>, s: int, a: Alliance)
    requires 0 <= s < |tiles|
  {
    tiles[s].IsTileOccupied() && tiles[s].pieceOnTile.alliance == a
  }

  /** Square s holds a piece of the side opposing a. */
  predicate HoldsEnemy(tiles: seq<Tile>, s: int, a: Alliance)
    requires 0 <= s < |tiles|
  {
    tiles[s].IsTileOccupied() && tiles[s].pieceOnTile.alliance != a
  }

  function LowerChar(c: char): (d: char)
    ensures 'A' <= c <= 'Z' ==> 'a' <= d <= 'z'
    ensures !('A' <= c <= 'Z') ==> d == c
  {
    if 'A' <= c <= 'Z' then (c as int - 'A' as int + 'a' as int) as char else c
  }

  function LowerCase(s: string): (t: string)
    ensures |t| == |s|
    ensures forall i :: 0 <= i < |s| ==> t[i] == LowerChar(s[i])
  {
    seq(|s|, i requires 0 <= i < |s| => LowerChar(s[i]))
  }

  /** The 64 canonical empty squares, keyed by coordinate. */
  function EmptyTilesCache(): (cache: map<int, Tile>)
    ensures forall i :: i in cache <==> 0 <= i < BoardUtils.NumTiles
  {
    map i | 0 <= i < BoardUtils.NumTiles :: EmptyTile(i)
  }

  /** Fills the cache of empty squares once. */
  method CreateAllPossibleEmptyTiles() returns (emptyTileMap: map<int, Tile>)
    ensures emptyTileMap.Keys == EmptyTilesCache().Keys
    ensures forall i :: i in emptyTileMap ==> emptyTileMap[i] == EmptyTile(i)
  {
    emptyTileMap := map[];
    for i := 0 to BoardUtils.NumTiles
      invariant forall k :: k in emptyTileMap <==> 0 <= k < i
      invariant forall k :: k in emptyTileMap ==> emptyTileMap[k] == EmptyTile(k)
    {
      emptyTileMap := emptyTileMap[i := EmptyTile(i)];
    }
  }

  /**
   * A square holding the given piece, or the cached empty square. The cache
   * has no entry off the board, so an empty square there is missing (None).
   */
  function CreateTile(tileCoordinate: int, piece: Option<Piece>): (t: Option<Tile>)
    ensures piece.Some? ==> t.Some? && t.value.IsTileOccupied() && t.value.GetPiece() == piece
    ensures piece.None? ==> (t.Some? <==> 0 <= tileCoordinate < BoardUtils.NumTiles)
    ensures piece.None? && t.Some? ==> !t.value.IsTileOccupied() && t.value.GetPiece() == None
    ensures t.Some? ==> t.value.GetTileCoordinate() == tileCoordinate
  {
    if piece.Some? then Some(OccupiedTile(tileCoordinate, piece.value))
    else if tileCoordinate in EmptyTilesCache() then Some(EmptyTilesCache()[tileCoordinate])
    else None
  }
}
