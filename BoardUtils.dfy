/**
 * Board geometry and notation: the 64 squares are numbered row by row from
 * the top-left corner, so square 0 is a8, square 7 is h8 and square 63 is h1.
 * Column masks and rank masks are boolean tables over the squares.
 */
module BoardUtils {
  import opened Wrappers

  const NumTiles: int := 64
  const NumTilesPerRow: int := 8

  /** The file of a square: 0 is the a-file, 7 the h-file. */
  function File(i: int): int { i % NumTilesPerRow }

  /** The row of a square counted from the top: row 0 is rank 8, row 7 is rank 1. */
  function Row(i: int): int { i / NumTilesPerRow }

  /** The square on a given file and row. */
  function Square(f: int, r: int): int { NumTilesPerRow * r + f }

  predicate OnBoard(f: int, r: int) { 0 <= f < 8 && 0 <= r < 8 }

  lemma SquareFileRow(i: int)
    requires 0 <= i < NumTiles
    ensures OnBoard(File(i), Row(i)) && Square(File(i), Row(i)) == i
  {
  }

  lemma FileRowSquare(f: int, r: int)
    requires OnBoard(f, r)
    ensures 0 <= Square(f, r) < NumTiles && File(Square(f, r)) == f && Row(Square(f, r)) == r
  {
  }

  function Abs(x: int): int { if x < 0 then -x else x }

  function Sign(x: int): int { if x < 0 then -1 else if x > 0 then 1 else 0 }

  /** The number of king steps between two squares. */
  function Dist(a: int, b: int): int {
    var df := Abs(File(b) - File(a));
    var dr := Abs(Row(b) - Row(a));
    if df < dr then dr else df
  }

  /**
   * The file change of an offset: an offset is 8 times its row change plus
   * its file change, for file changes between -2 and 2.
   */
  function Df(offset: int): int { (offset + 2) % NumTilesPerRow - 2 }

  /** The row change of an offset, as for Df. */
  function Dr(offset: int): int { (offset + 2) / NumTilesPerRow }

  /**
   * Adding an offset to a square is moving by its file and row changes; the
   * result keeps that meaning exactly when the target file and row are on the board.
   */
  lemma OffsetStep(c: int, offset: int)
    requires 0 <= c < NumTiles
    ensures c + offset == Square(File(c) + Df(offset), Row(c) + Dr(offset))
    ensures OnBoard(File(c) + Df(offset), Row(c) + Dr(offset)) ==>
      0 <= c + offset < NumTiles && File(c + offset) == File(c) + Df(offset) && Row(c + offset) == Row(c) + Dr(offset)
    ensures 0 <= File(c) + Df(offset) < 8 ==>
      (OnBoard(File(c) + Df(offset), Row(c) + Dr(offset)) <==> 0 <= c + offset < NumTiles)
  {
    if OnBoard(File(c) + Df(offset), Row(c) + Dr(offset)) {
      FileRowSquare(File(c) + Df(offset), Row(c) + Dr(offset));
    }
  }

  /** One king step: at most one file and one row away, and not the same square. */
  predicate KingStep(a: int, b: int) {
    a != b && Abs(File(b) - File(a)) <= 1 && Abs(Row(b) - Row(a)) <= 1
  }

  /** A knight jump: two files and one row, or one file and two rows. */
  predicate KnightJump(a: int, b: int) {
    var df := Abs(File(b) - File(a));
    var dr := Abs(Row(b) - Row(a));
    (df == 1 && dr == 2) || (df == 2 && dr == 1)
  }

  /** b lies on a diagonal through a. */
  predicate Diagonal(a: int, b: int) {
    a != b && Abs(File(b) - File(a)) == Abs(Row(b) - Row(a))
  }

  /** b shares a's file or a's row. */
  predicate Orthogonal(a: int, b: int) {
    a != b && (File(b) == File(a) || Row(b) == Row(a))
  }

  /** The value of the column mask for column c: true exactly on the squares of that file. */
  function ColumnMask(c: int): seq<bool> { seq(NumTiles, i => i % NumTilesPerRow == c) }

  /** The value of the row mask started at square r: true from r up to the end of r's row. */
  function RowMask(r: int): seq<bool> { seq(NumTiles, i => r <= i && i / NumTilesPerRow == r / NumTilesPerRow) }

  /** Fills a fresh table with a do-while loop that steps down the column. */
  method InitColumn(columnNumber: int) returns (column: array<bool>)
    requires 0 <= columnNumber < NumTilesPerRow
    ensures column.Length == NumTiles
    ensures forall i :: 0 <= i < NumTiles ==> (column[i] <==> i % NumTilesPerRow == columnNumber)
  {
    column := new bool[NumTiles](_ => false);
    var n := columnNumber;
    while true
      invariant columnNumber <= n < NumTiles && n % NumTilesPerRow == columnNumber
      invariant forall i :: 0 <= i < NumTiles ==> (column[i] <==> i % NumTilesPerRow == columnNumber && i < n)
      decreases NumTiles - n
    {
      column[n] := true;
      n := n + NumTilesPerRow;
      if n >= NumTiles {
        break;
      }
    }
  }

  /** Fills a fresh table with a do-while loop that walks to the end of the row. */
  method InitRow(rowNumber: int) returns (row: array<bool>)
    requires 0 <= rowNumber < NumTiles
    ensures row.Length == NumTiles
    ensures forall i :: 0 <= i < NumTiles ==> (row[i] <==> rowNumber <= i && i / NumTilesPerRow == rowNumber / NumTilesPerRow)
  {
    row := new bool[NumTiles](_ => false);
    var n := rowNumber;
    while true
      invariant rowNumber <= n < NumTiles && n / NumTilesPerRow == rowNumber / NumTilesPerRow
      invariant forall i :: 0 <= i < NumTiles ==> (row[i] <==> rowNumber <= i < n)
      decreases NumTiles - n
    {
      row[n] := true;
      n := n + 1;
      if n % NumTilesPerRow == 0 {
        break;
      }
    }
  }

  lemma {:induction false} InitRowOnRankStart(r: int, i: int)
    requires 0 <= r < NumTiles && r % NumTilesPerRow == 0 && 0 <= i < NumTiles
    ensures RowMask(r)[i] <==> r <= i < r + NumTilesPerRow
  {
  }

  const FirstColumn: seq<bool> := ColumnMask(0)
  const SecondColumn: seq<bool> := ColumnMask(1)
  const ThirdColumn: seq<bool> := ColumnMask(2)
  const FourthColumn: seq<bool> := ColumnMask(3)
  const FifthColumn: seq<bool> := ColumnMask(4)
  const SixthColumn: seq<bool> := ColumnMask(5)
  const SeventhColumn: seq<bool> := ColumnMask(6)
  const EighthColumn: seq<bool> := ColumnMask(7)

  const EighthRank: seq<bool> := RowMask(0)
  const SeventhRank: seq<bool> := RowMask(8)
  const SixthRank: seq<bool> := RowMask(16)
  const FifthRank: seq<bool> := RowMask(24)
  const FourthRank: seq<bool> := RowMask(32)
  const ThirdRank: seq<bool> := RowMask(40)
  const SecondRank: seq<bool> := RowMask(48)
  const FirstRank: seq<bool> := RowMask(56)

  /** The eight column masks from the a-file to the h-file. */
  const Columns: seq<seq<bool>> :=
    [FirstColumn, SecondColumn, ThirdColumn, FourthColumn, FifthColumn, SixthColumn, SeventhColumn, EighthColumn]

  /** The eight rank masks from the top row (rank 8) to the bottom row (rank 1). */
  const Ranks: seq<seq<bool>> :=
    [EighthRank, SeventhRank, SixthRank, FifthRank, FourthRank, ThirdRank, SecondRank, FirstRank]

  /** Every square lies in exactly one column mask and exactly one rank mask. */
  lemma MasksPartitionBoard(i: int)
    requires 0 <= i < NumTiles
    ensures forall c :: 0 <= c < 8 ==> (Columns[c][i] <==> c == File(i))
    ensures forall r :: 0 <= r < 8 ==> (Ranks[r][i] <==> r == Row(i))
  {
  }

  /** The named masks that the pieces consult, tied to the file and row of a square. */
  lemma MaskMeaning(i: int)
    requires 0 <= i < NumTiles
    ensures FirstColumn[i] <==> File(i) == 0
    ensures SecondColumn[i] <==> File(i) == 1
    ensures SeventhColumn[i] <==> File(i) == 6
    ensures EighthColumn[i] <==> File(i) == 7
    ensures SeventhRank[i] <==> 8 <= i < 16
    ensures SecondRank[i] <==> 48 <= i < 56
    ensures EighthRank[i] <==> 0 <= i < 8
    ensures FirstRank[i] <==> 56 <= i < 64
  {
  }

  function IsValidTileCoordinate(coordinate: int): (valid: bool)
    ensures valid <==> 0 <= coordinate < NumTiles
  {
    coordinate >= 0 && coordinate < NumTiles
  }

  const FileLetters: string := "abcdefgh"
  const RankDigits: string := "87654321"

  /**
   * The algebraic name of every square, in square order: a file letter
   * followed by a rank digit.
   */
  function InitAlgebraicNotation(): (names: seq<string>)
    ensures |names| == NumTiles
  {
    seq(NumTiles, i requires 0 <= i < NumTiles => [FileLetters[File(i)], RankDigits[Row(i)]])
  }

  const AlgebraicNotation: seq<string> := InitAlgebraicNotation()

  lemma {:induction false} NamesDistinct(i: int, j: int)
    requires 0 <= i < NumTiles && 0 <= j < NumTiles
    requires InitAlgebraicNotation()[i] == InitAlgebraicNotation()[j]
    ensures i == j
  {
    var names := InitAlgebraicNotation();
    assert names[i][0] == names[j][0] && names[i][1] == names[j][1];
    assert File(i) == File(j) by {
      assert FileLetters[File(i)] == FileLetters[File(j)];
    }
    assert Row(i) == Row(j) by {
      assert RankDigits[Row(i)] == RankDigits[Row(j)];
    }
    SquareFileRow(i);
    SquareFileRow(j);
  }

  /** The inverse table, from an algebraic name to its square. */
  function InitPositionToCoordinateMap(): (m: map<string, int>)
    ensures m.Keys == set i | 0 <= i < NumTiles :: InitAlgebraicNotation()[i]
  {
    var names := InitAlgebraicNotation();
    assert forall i, j :: 0 <= i < NumTiles && 0 <= j < NumTiles && names[i] == names[j] ==> i == j by {
      forall i, j | 0 <= i < NumTiles && 0 <= j < NumTiles && names[i] == names[j] ensures i == j {
        NamesDistinct(i, j);
      }
    }
    map i | 0 <= i < NumTiles :: names[i] := i
  }

  const PositionToCoordinate: map<string, int> := InitPositionToCoordinateMap()

  /**
   * Looks a name up: only the 64 names resolve, each to the square it names.
   * Any other string gives None, where the source fails (it unboxes a null).
   */
  function GetCoordinateAtPosition(position: string): (r: Option<int>)
    ensures r.Some? <==> exists i :: 0 <= i < NumTiles && AlgebraicNotation[i] == position
    ensures r.Some? ==> 0 <= r.value < NumTiles && AlgebraicNotation[r.value] == position
  {
    if position in PositionToCoordinate then
      LookupValue(position);
      Some(PositionToCoordinate[position])
    else None
  }

  /** Every name in the inverse table maps to the square that bears it. */
  lemma LookupValue(position: string)
    requires position in PositionToCoordinate
    ensures 0 <= PositionToCoordinate[position] < NumTiles
    ensures AlgebraicNotation[PositionToCoordinate[position]] == position
  {
    var i :| 0 <= i < NumTiles && InitAlgebraicNotation()[i] == position;
    LookupName(i);
  }

  /**
   * Names a square: its file letter then its rank digit. Outside 0..63 it
   * gives None, where the source fails (the list index is out of range).
   */
  function GetPositionAtCoordinate(coordinate: int): (r: Option<string>)
    ensures r.Some? <==> 0 <= coordinate < NumTiles
    ensures r.Some? ==> r.value == [FileLetters[File(coordinate)], RankDigits[Row(coordinate)]]
  {
    if 0 <= coordinate < |AlgebraicNotation| then Some(AlgebraicNotation[coordinate]) else None
  }

  lemma {:induction false} LookupName(i: int)
    requires 0 <= i < NumTiles
    ensures AlgebraicNotation[i] in PositionToCoordinate
    ensures PositionToCoordinate[AlgebraicNotation[i]] == i
  {
    var names := InitAlgebraicNotation();
    var m := InitPositionToCoordinateMap();
    assert names[i] in m.Keys;
    var k := m[names[i]];
    assert exists j :: 0 <= j < NumTiles && names[j] == names[i] && k == j;
    var j :| 0 <= j < NumTiles && names[j] == names[i] && k == j;
    NamesDistinct(i, j);
  }

  /** Naming a square and looking the name up gives the square back. */
  lemma {:induction false} CoordinateRoundTrip(i: int)
    requires 0 <= i < NumTiles
    ensures GetPositionAtCoordinate(i).Some?
    ensures GetCoordinateAtPosition(GetPositionAtCoordinate(i).value) == Some(i)
  {
    LookupName(i);
  }

  /** Looking a name up and naming the square gives the name back; only the 64 names resolve. */
  lemma {:induction false} PositionRoundTrip(s: string)
    ensures GetCoordinateAtPosition(s).Some? <==> exists i :: 0 <= i < NumTiles && AlgebraicNotation[i] == s
    ensures GetCoordinateAtPosition(s).Some? ==>
      var c := GetCoordinateAtPosition(s).value;
      0 <= c < NumTiles && GetPositionAtCoordinate(c) == Some(s)
  {
    if s in PositionToCoordinate {
      var i :| 0 <= i < NumTiles && InitAlgebraicNotation()[i] == s;
      LookupName(i);
    }
  }

  /** The first row is a8 to h8, and e1, f1 are squares 60 and 61. */
  lemma NotationExamples()
    ensures GetPositionAtCoordinate(0) == Some("a8") && GetPositionAtCoordinate(1) == Some("b8")
    ensures GetPositionAtCoordinate(2) == Some("c8") && GetPositionAtCoordinate(3) == Some("d8")
    ensures GetPositionAtCoordinate(4) == Some("e8") && GetPositionAtCoordinate(5) == Some("f8")
    ensures GetPositionAtCoordinate(6) == Some("g8") && GetPositionAtCoordinate(7) == Some("h8")
    ensures GetCoordinateAtPosition("e1") == Some(60) && GetCoordinateAtPosition("f1") == Some(61)
    ensures GetPositionAtCoordinate(63) == Some("h1") && GetPositionAtCoordinate(64) == None
  {
    LookupName(60);
    LookupName(61);
    assert AlgebraicNotation[60] == "e1";
    assert AlgebraicNotation[61] == "f1";
  }
}
