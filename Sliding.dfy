/**
 * The sliding rule shared by the bishop, the rook and the queen: from the
 * piece's square, step repeatedly by one unit offset; every empty square is a
 * quiet move, the first occupied square ends the ray and is a capture when it
 * holds an enemy piece. A step that would cross from the a-file to the h-file
 * (or back) ends the ray as well.
 */
module Sliding {
  import opened Wrappers
  import opened Pieces
  import opened Tiles
  import opened Moves
  import opened BoardUtils
  import opened Generation

  /** The eight unit directions: one row and/or one file. */
  predicate IsUnitOffset(offset: int) {
    offset in {-9, -8, -7, -1, 1, 7, 8, 9}
  }

  /** The moves of one ray that starts at square c, in the order they are found. */
  function Ray(tiles: seq<Tile>, p: Piece, offset: int, c: int): seq<Move>
    requires WellFormedTiles(tiles) && 0 <= c < NumTiles && IsUnitOffset(offset)
    decreases if offset > 0 then NumTiles - c else c
  {
    if Wraps(c, offset) then []
    else
      var n := c + offset;
      if !IsValidTileCoordinate(n) then []
      else if !tiles[n].IsTileOccupied() then [MajorMove(p, n)] + Ray(tiles, p, offset, n)
      else if tiles[n].pieceOnTile.alliance != p.alliance then [Capture(p, n, tiles[n].pieceOnTile)]
      else []
  }

  /** s lies beyond o in the direction of the offset. */
  predicate OnRay(o: int, offset: int, s: int) {
    s != o &&
    Sign(File(s) - File(o)) == Df(offset) && Sign(Row(s) - Row(o)) == Dr(offset) &&
    (Df(offset) != 0 && Dr(offset) != 0 ==> Abs(File(s) - File(o)) == Abs(Row(s) - Row(o)))
  }

  /**
   * Walking one square at a time from o toward d (one file and/or one row per
   * step), every square strictly before d is empty.
   */
  ghost predicate PathClear(tiles: seq<Tile>, o: int, d: int)
    requires WellFormedTiles(tiles) && 0 <= o < NumTiles && 0 <= d < NumTiles
    decreases Dist(o, d)
  {
    Dist(o, d) <= 1 ||
    var f := File(o) + Sign(File(d) - File(o));
    var r := Row(o) + Sign(Row(d) - Row(o));
    FileRowSquare(f, r);
    var s := Square(f, r);
    !tiles[s].IsTileOccupied() && PathClear(tiles, s, d)
  }

  lemma UnitOffsetDeltas(offset: int)
    requires IsUnitOffset(offset)
    ensures -1 <= Df(offset) <= 1 && -1 <= Dr(offset) <= 1 && (Df(offset) != 0 || Dr(offset) != 0)
    ensures offset == 8 * Dr(offset) + Df(offset)
  {
  }

  /** The first step of a ray, and how a target beyond it relates to that step. */
  lemma {:induction false} FirstStep(o: int, offset: int, s: int)
    requires 0 <= o < NumTiles && 0 <= s < NumTiles && IsUnitOffset(offset) && OnRay(o, offset, s)
    ensures !Wraps(o, offset) && 0 <= o + offset < NumTiles
    ensures File(o + offset) == File(o) + Df(offset) && Row(o + offset) == Row(o) + Dr(offset)
    ensures Dist(o, s) == 1 ==> s == o + offset
    ensures Dist(o, s) > 1 ==> OnRay(o + offset, offset, s) && Dist(o + offset, s) == Dist(o, s) - 1
    ensures Sign(File(s) - File(o)) == Df(offset) && Sign(Row(s) - Row(o)) == Dr(offset)
  {
    UnitOffsetDeltas(offset);
    SquareFileRow(o);
    SquareFileRow(s);
    OffsetStep(o, offset);
    if Dist(o, s) == 1 {
      FileRowSquare(File(s), Row(s));
    }
  }

  /** A square beyond the first step of a ray, over a clear path, is beyond the start over a clear path. */
  lemma {:induction false} ExtendBack(tiles: seq<Tile>, offset: int, c: int, d: int)
    requires WellFormedTiles(tiles) && 0 <= c < NumTiles && IsUnitOffset(offset) && 0 <= d < NumTiles
    requires !Wraps(c, offset) && 0 <= c + offset < NumTiles && !tiles[c + offset].IsTileOccupied()
    requires OnRay(c + offset, offset, d) && PathClear(tiles, c + offset, d)
    ensures OnRay(c, offset, d) && PathClear(tiles, c, d)
  {
    UnitOffsetDeltas(offset);
    var n := c + offset;
    OffsetStep(c, offset);
    SquareFileRow(c);
    SquareFileRow(d);
    assert File(n) == File(c) + Df(offset) && Row(n) == Row(c) + Dr(offset);
    assert Sign(File(d) - File(c)) == Df(offset) && Sign(Row(d) - Row(c)) == Dr(offset);
    assert Dist(c, d) > 1;
    FileRowSquare(File(c) + Df(offset), Row(c) + Dr(offset));
    assert Square(File(c) + Sign(File(d) - File(c)), Row(c) + Sign(Row(d) - Row(c))) == n;
  }

  /**
   * Every move of a ray is by the piece, onto a square beyond the start in
   * the ray's direction with a clear path, and is either a quiet move onto
   * an empty square or a capture of the enemy piece standing there.
   */
  lemma {:induction false} RaySound(tiles: seq<Tile>, p: Piece, offset: int, c: int, m: Move)
    requires WellFormedTiles(tiles) && 0 <= c < NumTiles && IsUnitOffset(offset)
    requires m in Ray(tiles, p, offset, c)
    ensures m.GetMovedPiece() == Some(p)
    ensures var d := m.GetDestinationCoordinate();
      0 <= d < NumTiles && OnRay(c, offset, d) && PathClear(tiles, c, d) &&
      ((m == MajorMove(p, d) && !tiles[d].IsTileOccupied()) ||
       (HoldsEnemy(tiles, d, p.alliance) && m == Capture(p, d, tiles[d].pieceOnTile)))
    decreases if offset > 0 then NumTiles - c else c
  {
    UnitOffsetDeltas(offset);
    var n := c + offset;
    OffsetStep(c, offset);
    var d := m.GetDestinationCoordinate();
    if m == Ray(tiles, p, offset, c)[0] {
      SquareFileRow(c);
      assert d == n;
      assert Dist(c, d) == 1;
    } else {
      assert m in Ray(tiles, p, offset, n);
      RaySound(tiles, p, offset, n, m);
      ExtendBack(tiles, offset, c, d);
    }
  }

  /**
   * Every square beyond the start in the ray's direction, reached over a
   * clear path and not holding a piece of the mover's side, is a destination
   * of the ray: the ray stops only at the edge or at the first occupied square.
   */
  lemma {:induction false} RayComplete(tiles: seq<Tile>, p: Piece, offset: int, c: int, s: int)
    requires WellFormedTiles(tiles) && 0 <= c < NumTiles && IsUnitOffset(offset) && 0 <= s < NumTiles
    requires OnRay(c, offset, s) && PathClear(tiles, c, s) && !HoldsAlly(tiles, s, p.alliance)
    ensures exists m :: m in Ray(tiles, p, offset, c) && m.GetDestinationCoordinate() == s
    decreases Dist(c, s)
  {
    FirstStep(c, offset, s);
    var n := c + offset;
    var ray := Ray(tiles, p, offset, c);
    if Dist(c, s) == 1 {
      assert ray[0].GetDestinationCoordinate() == s;
    } else {
      FileRowSquare(File(c) + Df(offset), Row(c) + Dr(offset));
      assert !tiles[n].IsTileOccupied() && PathClear(tiles, n, s);
      RayComplete(tiles, p, offset, n, s);
      var m :| m in Ray(tiles, p, offset, n) && m.GetDestinationCoordinate() == s;
      assert m in ray;
    }
  }

  /** A ray never runs past the edge it heads for, so it has at most 7 moves. */
  lemma {:induction false} RayLength(tiles: seq<Tile>, p: Piece, offset: int, c: int)
    requires WellFormedTiles(tiles) && 0 <= c < NumTiles && IsUnitOffset(offset)
    ensures Df(offset) > 0 ==> |Ray(tiles, p, offset, c)| <= 7 - File(c)
    ensures Df(offset) < 0 ==> |Ray(tiles, p, offset, c)| <= File(c)
    ensures Dr(offset) > 0 ==> |Ray(tiles, p, offset, c)| <= 7 - Row(c)
    ensures Dr(offset) < 0 ==> |Ray(tiles, p, offset, c)| <= Row(c)
    ensures |Ray(tiles, p, offset, c)| <= 7
    decreases if offset > 0 then NumTiles - c else c
  {
    UnitOffsetDeltas(offset);
    SquareFileRow(c);
    var n := c + offset;
    if !Wraps(c, offset) && IsValidTileCoordinate(n) && !tiles[n].IsTileOccupied() {
      OffsetStep(c, offset);
      RayLength(tiles, p, offset, n);
    }
  }

  /** The four diagonal rays from a square hold at most 13 moves together. */
  lemma DiagonalRaysLength(tiles: seq<Tile>, p: Piece, c: int)
    requires WellFormedTiles(tiles) && 0 <= c < NumTiles
    ensures |Ray(tiles, p, -9, c)| + |Ray(tiles, p, -7, c)| + |Ray(tiles, p, 7, c)| + |Ray(tiles, p, 9, c)| <= 13
  {
    RayLength(tiles, p, -9, c);
    RayLength(tiles, p, -7, c);
    RayLength(tiles, p, 7, c);
    RayLength(tiles, p, 9, c);
    SquareFileRow(c);
  }

  /** The four rays along a file and a rank from a square hold at most 14 moves together. */
  lemma OrthogonalRaysLength(tiles: seq<Tile>, p: Piece, c: int)
    requires WellFormedTiles(tiles) && 0 <= c < NumTiles
    ensures |Ray(tiles, p, -8, c)| + |Ray(tiles, p, -1, c)| + |Ray(tiles, p, 1, c)| + |Ray(tiles, p, 8, c)| <= 14
  {
    RayLength(tiles, p, -8, c);
    RayLength(tiles, p, -1, c);
    RayLength(tiles, p, 1, c);
    RayLength(tiles, p, 8, c);
    SquareFileRow(c);
  }

  /** The rays in every direction of a table, in table order. */
  function Rays(tiles: seq<Tile>, p: Piece, offsets: seq<int>, c: int): seq<Move>
    requires WellFormedTiles(tiles) && 0 <= c < NumTiles
    requires forall j :: 0 <= j < |offsets| ==> IsUnitOffset(offsets[j])
  {
    if offsets == [] then []
    else Rays(tiles, p, offsets[..|offsets| - 1], c) + Ray(tiles, p, offsets[|offsets| - 1], c)
  }

  /** A move is among the rays of a table exactly when the ray of one entry makes it. */
  lemma {:induction false} RaysMember(tiles: seq<Tile>, p: Piece, offsets: seq<int>, c: int, m: Move)
    requires WellFormedTiles(tiles) && 0 <= c < NumTiles
    requires forall j :: 0 <= j < |offsets| ==> IsUnitOffset(offsets[j])
    ensures m in Rays(tiles, p, offsets, c) <==>
      exists j :: 0 <= j < |offsets| && m in Ray(tiles, p, offsets[j], c)
  {
    if offsets != [] {
      var init := offsets[..|offsets| - 1];
      RaysMember(tiles, p, init, c, m);
      if m in Rays(tiles, p, offsets, c) && !(m in Rays(tiles, p, init, c)) {
        assert m in Ray(tiles, p, offsets[|offsets| - 1], c);
      }
      if j :| 0 <= j < |offsets| && m in Ray(tiles, p, offsets[j], c) {
        if j < |offsets| - 1 {
          assert init[j] == offsets[j];
        }
      }
    }
  }

  /** The rays of two tables one after the other are the rays of the joined table. */
  lemma {:induction false} RaysAppend(tiles: seq<Tile>, p: Piece, xs: seq<int>, ys: seq<int>, c: int)
    requires WellFormedTiles(tiles) && 0 <= c < NumTiles
    requires forall j :: 0 <= j < |xs| ==> IsUnitOffset(xs[j])
    requires forall j :: 0 <= j < |ys| ==> IsUnitOffset(ys[j])
    ensures forall j :: 0 <= j < |xs + ys| ==> IsUnitOffset((xs + ys)[j])
    ensures Rays(tiles, p, xs + ys, c) == Rays(tiles, p, xs, c) + Rays(tiles, p, ys, c)
    decreases |ys|
  {
    assert forall j :: 0 <= j < |xs + ys| ==> IsUnitOffset((xs + ys)[j]) by {
      forall j | 0 <= j < |xs + ys| ensures IsUnitOffset((xs + ys)[j]) {
        if j >= |xs| { assert (xs + ys)[j] == ys[j - |xs|]; }
      }
    }
    if ys == [] {
      assert xs + ys == xs;
    } else {
      var init := ys[..|ys| - 1];
      assert (xs + ys)[..|xs + ys| - 1] == xs + init;
      RaysAppend(tiles, p, xs, init, c);
    }
  }

  /** The rays of a two-entry table, one after the other. */
  lemma RaysOfTwo(tiles: seq<Tile>, p: Piece, a: int, b: int, sq: int)
    requires WellFormedTiles(tiles) && 0 <= sq < NumTiles && IsUnitOffset(a) && IsUnitOffset(b)
    ensures Rays(tiles, p, [a, b], sq) == Ray(tiles, p, a, sq) + Ray(tiles, p, b, sq)
  {
    assert [a, b][..1] == [a] && [a][..0] == [];
    assert Rays(tiles, p, [a], sq) == Ray(tiles, p, a, sq);
  }

  /** The rays of a four-entry table, one after the other. */
  lemma RaysOfFour(tiles: seq<Tile>, p: Piece, a: int, b: int, c: int, d: int, sq: int)
    requires WellFormedTiles(tiles) && 0 <= sq < NumTiles
    requires IsUnitOffset(a) && IsUnitOffset(b) && IsUnitOffset(c) && IsUnitOffset(d)
    ensures Rays(tiles, p, [a, b, c, d], sq) ==
      Ray(tiles, p, a, sq) + Ray(tiles, p, b, sq) + Ray(tiles, p, c, sq) + Ray(tiles, p, d, sq)
  {
    RaysOfTwo(tiles, p, a, b, sq);
    RaysOfTwo(tiles, p, c, d, sq);
    RaysAppend(tiles, p, [a, b], [c, d], sq);
    assert [a, b] + [c, d] == [a, b, c, d];
  }


  /** A square on a diagonal ray is on a diagonal; one on a file or rank ray shares the file or the rank. */
  lemma OnRayShape(o: int, offset: int, s: int)
    requires IsUnitOffset(offset) && OnRay(o, offset, s)
    ensures Df(offset) != 0 && Dr(offset) != 0 ==> Diagonal(o, s)
    ensures Df(offset) == 0 || Dr(offset) == 0 ==> Orthogonal(o, s)
  {
  }

  /** The unit direction from o toward s, for s on a diagonal, file or rank through o. */
  function Direction(o: int, s: int): int {
    8 * Sign(Row(s) - Row(o)) + Sign(File(s) - File(o))
  }

  /** Every square on a diagonal, file or rank through o lies on the ray from o in its direction. */
  lemma RayDirection(o: int, s: int)
    requires Diagonal(o, s) || Orthogonal(o, s)
    ensures IsUnitOffset(Direction(o, s)) && OnRay(o, Direction(o, s), s)
    ensures Diagonal(o, s) ==> Direction(o, s) in {-9, -7, 7, 9}
    ensures Orthogonal(o, s) ==> Direction(o, s) in {-8, -1, 1, 8}
  {
  }
}
