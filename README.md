# Java-Chess engine core in Dafny

This project models the engine of a small Java chess program:

- the 64-square board, numbered 0 (a8) to 63 (h1);
- the per-square tiles and the board builder;
- the move generators of the six piece classes;
- the move class hierarchy with its execution and equality rules;
- the move lookup by origin and destination;
- the black player's castle generation;
- the standard board evaluator;
- the depth-bounded minimax search.

Each Java class becomes one module:

- `Tiles`, `Moves`, `Boards` and `Execution` cover the board package;
- `KingPiece`, `KnightPiece`, `PawnPiece`, `BishopPiece`, `RookPiece` and `QueenPiece` cover the pieces;
- `BlackPlayer`, `Evaluator` and `MinMax` cover the player package.

`BoardUtils` holds the geometry. `Generation` and `Sliding` hold what the piece classes share.

Each piece's move generation has the following parts:

- a **method** with the source's loops (`CalculateLegalMoves`, and `CalculateRay` for the inner loop of a sliding piece), proved equal to a specification function;
- **soundness** and **completeness** lemmas that describe the destinations in chess terms: king step, knight jump, diagonal or orthogonal with a clear path, pawn push, pawn jump or pawn capture;
- a bound on the number of moves.

The board builder is a Dafny `class` whose methods update its map.

The two positions of the board tests are proved outright:

- the standard position has 20 quiet moves per side;
- in the kings-and-pawns position each side has exactly six moves, and the e1-f1 king step is found and executed.

A board can only be built when each side has a king, as the player constructors demand, so the tests' invalid board without kings is refused.

## Model

| member | source | states |
|---|---|---|
| BoardUtils.InitColumn | src/com/chess/engine/board/BoardUtils.java:42-52 | the do-while loop marks exactly the squares of the given file |
| BoardUtils.InitRow | src/com/chess/engine/board/BoardUtils.java:54-62 | the do-while loop marks the squares from the start square to the end of its row |
| BoardUtils.InitRowOnRankStart | src/com/chess/engine/board/BoardUtils.java:23-30 | a row mask started on a rank's first square marks exactly that rank |
| BoardUtils.MasksPartitionBoard | src/com/chess/engine/board/BoardUtils.java:11-30 | every square is in exactly one file mask and exactly one rank mask |
| BoardUtils.MaskMeaning | src/com/chess/engine/board/BoardUtils.java:11-30 | the named masks that the pieces consult are the a, b, g and h files and ranks 8, 7, 2 and 1 |
| BoardUtils.SquareFileRow | src/com/chess/engine/board/BoardUtils.java:34-35 | every square is the square of its own file and row |
| BoardUtils.FileRowSquare | src/com/chess/engine/board/BoardUtils.java:34-35 | a file and row on the board give a square whose file and row they are |
| BoardUtils.OffsetStep | src/com/chess/engine/board/BoardUtils.java:34-35 | adding an offset moves by its file and row changes whenever the target is on the board |
| BoardUtils.IsValidTileCoordinate | src/com/chess/engine/board/BoardUtils.java:69-73 | a coordinate is valid exactly when it is in 0..63 |
| BoardUtils.InitAlgebraicNotation | src/com/chess/engine/board/BoardUtils.java:38 | the name table has one entry per square |
| BoardUtils.NamesDistinct | src/com/chess/engine/board/BoardUtils.java:38 | no two squares share a name |
| BoardUtils.InitPositionToCoordinateMap | src/com/chess/engine/board/BoardUtils.java:39 | the inverse table is keyed by exactly the 64 names |
| BoardUtils.LookupValue | src/com/chess/engine/board/BoardUtils.java:39 | every name in the inverse table maps to the square that bears it |
| BoardUtils.GetCoordinateAtPosition | src/com/chess/engine/board/BoardUtils.java:76-79 | exactly the 64 names resolve, each to a square 0..63 that bears that name |
| BoardUtils.GetPositionAtCoordinate | src/com/chess/engine/board/BoardUtils.java:81-84 | exactly the squares 0..63 have a name, their file letter followed by their rank digit |
| BoardUtils.LookupName | src/com/chess/engine/board/BoardUtils.java:39 | the inverse table maps each square's name back to that square |
| BoardUtils.CoordinateRoundTrip | src/com/chess/engine/board/BoardUtils.java:76-84 | naming a square and looking the name up gives the square back |
| BoardUtils.PositionRoundTrip | src/com/chess/engine/board/BoardUtils.java:76-84 | a name resolves exactly when it is one of the 64 names, and naming the result gives the name back |
| BoardUtils.NotationExamples | src/com/chess/tests/BoardTest.java:230-237 | squares 0..7 are a8..h8, e1 and f1 are 60 and 61, and 64 has no name |
| Tiles.Tile.GetPiece | src/com/chess/engine/board/Tile.java:59-64 | a tile reports a piece exactly when it is occupied |
| Tiles.Tile.ToString | src/com/chess/engine/board/Tile.java:76-84 | an empty tile prints "-", a White piece its letter and a Black piece its lower-case letter, always one character |
| Tiles.LowerCase | src/com/chess/engine/board/Tile.java:78-79 | lower-casing keeps the length and lowers exactly the capital letters |
| Tiles.EmptyTilesCache | src/com/chess/engine/board/Tile.java:12 | the cache has an entry for exactly the 64 squares |
| Tiles.CreateAllPossibleEmptyTiles | src/com/chess/engine/board/Tile.java:15-22 | the loop fills the cache with the empty tile of each square 0..63 |
| Tiles.CreateTile | src/com/chess/engine/board/Tile.java:24-26 | a piece gives an occupied tile holding it; no piece gives the cached empty tile, which is missing off the board |
| Moves.Move.GetAttackedPiece | src/com/chess/engine/board/Move.java:77-79 | a move reports an attacked piece exactly when it is an attack |
| Moves.MoveCoordinates | src/com/chess/engine/board/Move.java:60-103 | the origin is the moved piece's square, or -1 when there is none; the null move's destination is 65; a promotion reports the squares of the move it decorates |
| Moves.MoveKinds | src/com/chess/engine/board/Move.java:69-75 | a move is an attack exactly when it is of an attack class or promotes an attack, and then it has a moved and an attacked piece; exactly the two castle classes castle, and no move does both |
| Moves.ToString | src/com/chess/engine/board/Move.java:117-444 | the text is missing exactly for the classes without an override of their own (the plain attack and the null move) and where a named square is off the board; a promotion prints "", the castles "0-0" and "0-0-0" |
| Moves.MoveText | src/com/chess/engine/board/Move.java:117-281 | every other printed move ends with the destination's name, which looks the destination up again; a piece move puts the piece's letter before it, a pawn push or jump prints the name alone, a pawn capture prints the origin's file letter and "x" before it |
| Moves.Equals | src/com/chess/engine/board/Move.java:42-54 | equality follows each class's override |
| Moves.EqualsImpliesSameEndpoints | src/com/chess/engine/board/Move.java:42-54 | equal moves share origin, destination and moved piece |
| Moves.PawnJumpEqualityIsOneSided | src/com/chess/engine/board/Move.java:250-282 | a pawn jump has no equality override, so it equals the quiet move with the same squares, but not the other way round |
| Moves.NullMoveEqualsOnlyItself | src/com/chess/engine/board/Move.java:449-463 | the null move (origin -1) equals no move whose origin is a real square, in either direction |
| Moves.PawnCaptureText | src/com/chess/engine/board/Move.java:209-213 | a pawn capture prints four characters with "x" second |
| Moves.ToStringExamples | src/com/chess/engine/board/Move.java:117-120 | the printed forms are "Nf3", "exd5", "0-0" and "0-0-0" |
| Generation.Capture | src/com/chess/engine/pieces/King.java:82 | every piece's capture is an attack on the given piece, never en passant or a castle |
| Generation.Leap | src/com/chess/engine/pieces/King.java:63-86 | one offset yields at most one move |
| Generation.LeapSound | src/com/chess/engine/pieces/King.java:63-86 | a step lands on the board by exactly the offset's file and row changes, onto an empty square or capturing an enemy piece |
| Generation.LeapComplete | src/com/chess/engine/pieces/King.java:63-86 | a step onto the board, not across an edge and not onto an own piece, is made |
| Generation.LeapsMember | src/com/chess/engine/pieces/Knight.java:30-55 | a move is generated exactly when one table entry yields it |
| Generation.LeapsLength | src/com/chess/engine/pieces/Knight.java:30-55 | a table of n offsets yields at most n moves |
| KingPiece.NewKing | src/com/chess/engine/pieces/King.java:26-34 | a king that has not moved, with the given castling rights |
| KingPiece.NewKingWithFlags | src/com/chess/engine/pieces/King.java:36-45 | a king with every flag as given |
| KingPiece.ExclusionsAreWraps | src/com/chess/engine/pieces/King.java:96-104 | the two column exclusions rule out exactly the king steps across an edge |
| KingPiece.CalculateLegalMoves | src/com/chess/engine/pieces/King.java:59-88 | the loop over the offsets produces the king's move list |
| KingPiece.KingMovesSound | src/com/chess/engine/pieces/King.java:59-88 | every king move is a king step onto the board, never a castle, and is a MajorMove onto an empty square or a MajorAttackMove on an enemy piece |
| KingPiece.KingMovesComplete | src/com/chess/engine/pieces/King.java:59-88 | every king step onto a square without an own piece is generated |
| KingPiece.KingMovesCount | src/com/chess/engine/pieces/King.java:21 | at most eight king moves |
| KingPiece.MovePiece | src/com/chess/engine/pieces/King.java:90-94 | the moved king stands on the destination and is no longer on its first move; it is castled exactly after a castle, and both castling rights are gone |
| KnightPiece.NewKnight | src/com/chess/engine/pieces/Knight.java:22-24 | a knight of the given square and side |
| KnightPiece.ExclusionsAreWraps | src/com/chess/engine/pieces/Knight.java:64-80 | the four column exclusions rule out exactly the jumps across an edge |
| KnightPiece.CalculateLegalMoves | src/com/chess/engine/pieces/Knight.java:26-57 | the loop over the offsets produces the knight's move list |
| KnightPiece.KnightMovesSound | src/com/chess/engine/pieces/Knight.java:26-57 | every knight move is a true knight jump onto the board, a MajorMove onto an empty square or an AttackMove on an enemy piece |
| KnightPiece.KnightMovesComplete | src/com/chess/engine/pieces/Knight.java:26-57 | every knight jump onto a square without an own piece is generated |
| KnightPiece.KnightMovesCount | src/com/chess/engine/pieces/Knight.java:20 | at most eight knight moves |
| KnightPiece.MovePiece | src/com/chess/engine/pieces/Knight.java:59-62 | the moved knight stands on the destination with the mover's side |
| PawnPiece.NewPawn | src/com/chess/engine/pieces/Pawn.java:21-23 | a pawn that has not moved |
| PawnPiece.PawnCandidate | src/com/chess/engine/pieces/Pawn.java:33-87 | one table entry yields at most one move |
| PawnPiece.CalculateLegalMoves | src/com/chess/engine/pieces/Pawn.java:29-89 | the loop over the offsets produces the pawn's move list |
| PawnPiece.PawnMovesForMember | src/com/chess/engine/pieces/Pawn.java:33-87 | a move is generated exactly when one table entry yields it |
| PawnPiece.PawnMovesUnfold | src/com/chess/engine/pieces/Pawn.java:19 | the pawn's moves are those of entries 7, 8, 9 and 16 in order |
| PawnPiece.PawnCandidateSound | src/com/chess/engine/pieces/Pawn.java:33-87 | each entry yields a push, a first-move jump from the start rank over an empty square, or a forward diagonal capture |
| PawnPiece.PawnMovesSound | src/com/chess/engine/pieces/Pawn.java:29-89 | every pawn move is a push onto an empty square, a jump from the start rank on the first move over and onto empty squares, or a capture one diagonal step forward; never en passant or a promotion |
| PawnPiece.PawnMovesComplete | src/com/chess/engine/pieces/Pawn.java:29-89 | the push, the jump and each forward diagonal capture are generated whenever their conditions hold |
| PawnPiece.PawnOnLastRankHasNoMoves | src/com/chess/engine/pieces/Pawn.java:34-38 | a pawn on the far rank of its side has no moves |
| PawnPiece.PawnMovesCount | src/com/chess/engine/pieces/Pawn.java:19 | at most four pawn moves |
| PawnPiece.MovePiece | src/com/chess/engine/pieces/Pawn.java:91-94 | the moved pawn stands on the destination with the mover's side |
| Sliding.UnitOffsetDeltas | src/com/chess/engine/pieces/Queen.java:21 | each sliding direction changes file and row by at most one, and not both by zero |
| Sliding.FirstStep | src/com/chess/engine/pieces/Queen.java:38-65 | a target beyond the start lies beyond the first step, one king step nearer |
| Sliding.ExtendBack | src/com/chess/engine/pieces/Queen.java:38-65 | a clear path from the first step over an empty square is a clear path from the start |
| Sliding.RaySound | src/com/chess/engine/pieces/Queen.java:38-65 | every move of a ray lies beyond the start in its direction over a clear path, onto an empty square or capturing an enemy piece |
| Sliding.RayComplete | src/com/chess/engine/pieces/Queen.java:38-65 | every square beyond the start in the ray's direction, over a clear path and without an own piece, is a destination |
| Sliding.RayLength | src/com/chess/engine/pieces/Queen.java:38-65 | a ray never runs past the edge it heads for, so it has at most 7 moves |
| Sliding.DiagonalRaysLength | src/com/chess/engine/pieces/Bishop.java:22 | the four diagonal rays hold at most 13 moves together |
| Sliding.OrthogonalRaysLength | src/com/chess/engine/pieces/Rook.java:18 | the four file and rank rays hold at most 14 moves together |
| Sliding.RaysMember | src/com/chess/engine/pieces/Queen.java:37-66 | a move is generated exactly when the ray of one table entry makes it |
| Sliding.RaysAppend | src/com/chess/engine/pieces/Queen.java:37-66 | the rays of two tables in turn are the rays of the joined table |
| Sliding.OnRayShape | src/com/chess/engine/pieces/Queen.java:21 | a square on a diagonal ray is on a diagonal; one on a file or rank ray shares the file or rank |
| Sliding.RayDirection | src/com/chess/engine/pieces/Queen.java:21 | every square on a diagonal, file or rank lies on the ray of one table direction |
| BishopPiece.NewBishop | src/com/chess/engine/pieces/Bishop.java:24-27 | a bishop that has not moved |
| BishopPiece.ExclusionsAreWraps | src/com/chess/engine/pieces/Bishop.java:74-80 | the two exclusions stop exactly the steps across an edge |
| BishopPiece.CalculateLegalMoves | src/com/chess/engine/pieces/Bishop.java:34-67 | the loop over the offsets produces the bishop's four rays in table order |
| BishopPiece.CalculateRay | src/com/chess/engine/pieces/Bishop.java:39-64 | the inner loop produces exactly one ray |
| BishopPiece.BishopMovesUnfold | src/com/chess/engine/pieces/Bishop.java:22 | the bishop's moves are its four rays in table order |
| BishopPiece.BishopMovesSound | src/com/chess/engine/pieces/Bishop.java:34-67 | every bishop move is on a diagonal over a clear path, a MajorMove onto an empty square or a MajorAttackMove on an enemy piece |
| BishopPiece.BishopMovesComplete | src/com/chess/engine/pieces/Bishop.java:34-67 | every diagonal square reached over a clear path and without an own piece is generated |
| BishopPiece.BishopMovesCount | src/com/chess/engine/pieces/Bishop.java:34-67 | each ray has at most 7 moves, and all four at most 13 |
| BishopPiece.MovePiece | src/com/chess/engine/pieces/Bishop.java:69-72 | the moved bishop stands on the destination with the mover's side |
| RookPiece.NewRook | src/com/chess/engine/pieces/Rook.java:20-23 | a rook of the given square and side |
| RookPiece.ExclusionsAreWraps | src/com/chess/engine/pieces/Rook.java:66-72 | the two exclusions stop exactly the steps across an edge |
| RookPiece.CalculateLegalMoves | src/com/chess/engine/pieces/Rook.java:25-59 | the loop over the offsets produces the rook's four rays in table order |
| RookPiece.CalculateRay | src/com/chess/engine/pieces/Rook.java:30-57 | the inner loop produces exactly one ray |
| RookPiece.RookMovesUnfold | src/com/chess/engine/pieces/Rook.java:18 | the rook's moves are its four rays in table order |
| RookPiece.RookMovesSound | src/com/chess/engine/pieces/Rook.java:25-59 | every rook move is on its file or rank over a clear path, a MajorMove onto an empty square or an AttackMove on an enemy piece |
| RookPiece.RookMovesComplete | src/com/chess/engine/pieces/Rook.java:25-59 | every file or rank square reached over a clear path and without an own piece is generated |
| RookPiece.RookMovesCount | src/com/chess/engine/pieces/Rook.java:25-59 | each ray has at most 7 moves, and all four at most 14 |
| RookPiece.MovePiece | src/com/chess/engine/pieces/Rook.java:61-64 | the moved rook stands on the destination with the mover's side |
| QueenPiece.NewQueen | src/com/chess/engine/pieces/Queen.java:23-26 | a queen that has not moved |
| QueenPiece.ExclusionsAreWraps | src/com/chess/engine/pieces/Queen.java:74-82 | the two exclusions stop exactly the steps across an edge |
| QueenPiece.CalculateLegalMoves | src/com/chess/engine/pieces/Queen.java:33-67 | the loop over the offsets produces the queen's eight rays in table order |
| QueenPiece.CalculateRay | src/com/chess/engine/pieces/Queen.java:38-65 | the inner loop produces exactly one ray |
| QueenPiece.QueenMovesUnfold | src/com/chess/engine/pieces/Queen.java:21 | the queen's moves are its eight rays in table order |
| QueenPiece.QueenMovesSound | src/com/chess/engine/pieces/Queen.java:33-67 | every queen move is on a file, rank or diagonal over a clear path, a MajorMove onto an empty square or a MajorAttackMove on an enemy piece |
| QueenPiece.QueenMovesComplete | src/com/chess/engine/pieces/Queen.java:33-67 | every file, rank or diagonal square reached over a clear path and without an own piece is generated |
| QueenPiece.QueenMovesCount | src/com/chess/engine/pieces/Queen.java:33-67 | each ray has at most 7 moves, and all eight at most 27 |
| QueenPiece.MovePiece | src/com/chess/engine/pieces/Queen.java:69-72 | the moved queen stands on the destination with the mover's side |
| Boards.GameBoard | src/com/chess/engine/board/Board.java:120-129 | tile i has coordinate i and holds exactly the piece stored under i |
| Boards.CreateGameBoard | src/com/chess/engine/board/Board.java:120-129 | the loop builds the 64 tiles from the builder's map |
| Boards.CalculateActivePieces | src/com/chess/engine/board/Board.java:98-113 | the tile scan collects the side's pieces |
| Boards.ActivePiecesMember | src/com/chess/engine/board/Board.java:98-113 | a piece is active exactly when some tile holds it and it belongs to the side |
| Boards.ActivePiecesAscending | src/com/chess/engine/board/Board.java:98-113 | active pieces come in strictly ascending square order |
| Boards.ActivePiecesCount | src/com/chess/engine/board/Board.java:98-113 | the number of active pieces is the number of squares the side holds |
| Boards.ActivePiecesInBlock | src/com/chess/engine/board/Board.java:98-113 | a side holding exactly the squares lo..hi-1 has hi-lo active pieces |
| Boards.CalculatePieceLegalMoves | src/com/chess/engine/board/Board.java:90 | each piece's moves come from its own class's generator |
| Boards.PieceMovesSound | src/com/chess/engine/board/Board.java:87-96 | every generated move is by the piece from its own square, onto another square of the board without an own piece, and never a castle |
| Boards.CalculateLegalMoves | src/com/chess/engine/board/Board.java:87-96 | the loop concatenates the pieces' moves in list order |
| Boards.LegalMovesMember | src/com/chess/engine/board/Board.java:87-96 | a move is in a side's list exactly when one of its pieces generates it |
| Boards.KingOnBoard | src/com/chess/engine/board/Board.java:31-42 | a side's active pieces include a king exactly when the map holds a king of that side on the board |
| Boards.BuildBoard | src/com/chess/engine/board/Board.java:28-46 | building fails with NoKing(White) when the map holds no white king, else with NoKing(Black) when it holds no black king, else with NoMoveMaker when no side to move was set; otherwise it succeeds with the tiles from the map, that side to move and the en-passant pawn given |
| Boards.KinglessBoardRejected | src/com/chess/tests/BoardTest.java:181-224 | a map without any king is refused, for White first, because the white player is constructed first |
| Boards.BuiltBoardValid | src/com/chess/engine/board/Board.java:28-46 | a built board's piece lists are the tile scans and its move lists are those pieces' moves |
| Boards.BoardMovesSound | src/com/chess/engine/board/Board.java:37-38 | every move of a side's list is by a piece of that side from its own tile, onto another square without an own piece, and never a castle |
| Boards.GetAllLegalMoves | src/com/chess/engine/board/Board.java:186-188 | all moves are White's list followed by Black's |
| Boards.Builder.constructor | src/com/chess/engine/board/Board.java:197-200 | a new builder has an empty map and neither side to move nor en-passant pawn |
| Boards.Builder.SetPiece | src/com/chess/engine/board/Board.java:202-205 | the piece is stored under its own square and nothing else changes |
| Boards.Builder.SetMoveMaker | src/com/chess/engine/board/Board.java:207-210 | the side to move is set and nothing else changes |
| Boards.Builder.SetEnPassantPawn | src/com/chess/engine/board/Board.java:216-218 | the en-passant pawn is set and nothing else changes |
| Boards.Builder.Build | src/com/chess/engine/board/Board.java:212-214 | building gives the board of the builder's state |
| Boards.EstablishKing | src/com/chess/engine/board/Board.java:40-42 | the scan finds the first king among a side's active pieces, and finds none exactly when that side has no king |
| Boards.BackRankPiece | src/com/chess/engine/board/Board.java:144-154 | a back-rank piece has the type of its file, its own square and its side |
| Boards.PawnRow | src/com/chess/engine/board/Board.java:135-142 | a pawn row holds exactly eight squares, each piece under its own square |
| Boards.BackRow | src/com/chess/engine/board/Board.java:144-154 | a back row holds exactly eight squares, each piece under its own square |
| Boards.PawnRowUpdates | src/com/chess/engine/board/Board.java:135-142 | setting eight pawns one by one adds the pawn row |
| Boards.BackRowUpdates | src/com/chess/engine/board/Board.java:144-154 | setting the back rank piece by piece adds the back row |
| Boards.BackRowAt | src/com/chess/engine/board/Board.java:144-154 | the back row holds rook, knight, bishop, queen, king, bishop, knight, rook |
| Boards.CreateStandardBoard | src/com/chess/engine/board/Board.java:131-184 | the 32 settings and the build give the standard board, White to move |
| Boards.StandardHasKings | src/com/chess/engine/board/Board.java:154-176 | the starting position holds the black king on e8 (square 4) and the white king on e1 (square 60) |
| Boards.StandardBuilds | src/com/chess/engine/board/Board.java:131-184 | the starting position with White to move builds |
| Boards.StandardConfigLayout | src/com/chess/engine/board/Board.java:131-184 | the starting position fills exactly 0..15 (Black) and 48..63 (White), pawns on ranks 7 and 2 and the back ranks in order |
| Boards.IntervalSize | src/com/chess/engine/board/Board.java:131-184 | the interval lo..hi-1 has hi-lo squares |
| Boards.StandardTiles | src/com/chess/engine/board/Board.java:131-184 | on the standard board Black holds 0..15, ranks 3 to 6 are empty and White holds 48..63 |
| Boards.StandardBoardLayout | src/com/chess/engine/board/Board.java:131-184 | the standard board builds and has 16 pieces per side, empty middle ranks, White to move and no en-passant pawn |
| Boards.HalvesCount | src/com/chess/engine/board/Board.java:98-113 | tiles holding Black on 0..15 and White on 48..63 only give each side sixteen active pieces |
| Execution.MovePiece | src/com/chess/engine/board/Move.java:94 | the moved piece keeps its type and side and stands on the destination |
| Execution.PutAll | src/com/chess/engine/board/Move.java:85-93 | setting pieces one by one keeps every piece under its own square |
| Execution.Remaining | src/com/chess/engine/board/Move.java:85-93 | the map after the copy loops is consistent |
| Execution.ExecutedConfig | src/com/chess/engine/board/Move.java:82-99 | the map after placing the moved piece is consistent |
| Execution.ExecutedBoard | src/com/chess/engine/board/Move.java:82-99 | executing fails exactly for the null move, a pawn jump of a non-pawn, and a move after which a side has no king (the build fails); otherwise the tiles are those of the executed map, the opponent is to move and a pawn is capturable en passant exactly after a pawn jump, on its destination |
| Execution.Execute | src/com/chess/engine/board/Move.java:82-99 | the builder loops produce the executed board, and a failed build is passed on |
| Execution.ScanLookup | src/com/chess/engine/board/Move.java:85-93 | after a copy loop a square holds the side's piece there unless it is skipped, else what it held before |
| Execution.ExecutedTile | src/com/chess/engine/board/Move.java:82-99 | each square afterwards holds the castle rook, the moved piece, its surviving old piece, or nothing |
| Execution.TwoScans | src/com/chess/engine/board/Move.java:85-93 | copying both sides' active pieces, each minus its skip set, keeps exactly the unskipped pieces on their squares |
| Execution.ExecutedConfigAt | src/com/chess/engine/board/Move.java:85-94 | outside a castle the executed map holds the moved piece on its destination and the copied pieces elsewhere |
| Execution.RemainingLookup | src/com/chess/engine/board/Move.java:85-93 | after the copy loops a square holds its old piece exactly when that piece survives |
| Execution.ExecuteMovesPiece | src/com/chess/engine/board/Move.java:94 | the moved piece, with its type and side, stands on the destination |
| Execution.ExecuteCaptures | src/com/chess/engine/board/Move.java:91-94 | after a capture the destination holds the mover's piece, not the captured one |
| Execution.ExecuteVacatesOrigin | src/com/chess/engine/board/Move.java:85-90 | when the moved piece belongs to the side to move and stands on its origin, the destination differs from the origin, and for a castle the rook's destination differs from the origin too, the origin is empty afterwards |
| Execution.ExecuteKeepsOthers | src/com/chess/engine/board/Move.java:85-93 | every other square keeps its contents |
| Execution.EnPassantRemovesPawn | src/com/chess/engine/board/Move.java:229-246 | when the new board builds, en passant has removed the captured pawn from its own square |
| Execution.CastleMovesRook | src/com/chess/engine/board/Move.java:367-384 | when the new board builds, a castle has put the king on its destination and a rook on the rook destination, and emptied the rook's start |
| Execution.ExecutedBoardValid | src/com/chess/engine/board/Move.java:98 | the executed board is again consistent |
| Execution.CreateMove | src/com/chess/engine/board/Move.java:478-487 | the lookup returns the first legal move with the given origin and destination, or the null move when there is none; on a consistent board the null move comes back exactly when no legal move connects the squares |
| Execution.LegalMoveIsNotNull | src/com/chess/engine/board/Move.java:459-462 | no move in a consistent board's lists is the null move, whose origin -1 is off the board |
| BlackPlayer.NewBlackPlayer | src/com/chess/engine/player/BlackPlayer.java:16-20 | the black player keeps Black's list as its own and White's as its opponent's |
| BlackPlayer.GetOpponent | src/com/chess/engine/player/BlackPlayer.java:32-35 | the opponent is the board's white player: it plays White, holds the white pieces, and its own and opponent's move lists are the black player's two lists swapped |
| BlackPlayer.BlackPlayerSides | src/com/chess/engine/player/BlackPlayer.java:22-25 | the black player's pieces are black pieces on their tiles, its moves are by black pieces, and its opponent's are by white pieces |
| BlackPlayer.OpponentSides | src/com/chess/engine/player/BlackPlayer.java:32-35 | on a built board the opponent's pieces are white pieces on their tiles, its own moves are by white pieces, its opponent's by black pieces, and its opponent is Black again |
| BlackPlayer.CalculateKingCastles | src/com/chess/engine/player/BlackPlayer.java:37-72 | the nested tests produce the castle list, or fail when the piece on a8 is not a rook |
| BlackPlayer.KingCastlesShape | src/com/chess/engine/player/BlackPlayer.java:37-72 | at most two castles, all by the given king and built as king-side castles, and none unless the king is on its first move and not in check |
| BlackPlayer.KingSideCastleOffered | src/com/chess/engine/player/BlackPlayer.java:37-72 | the king-side castle is offered exactly when f8 and g8 are empty and not attacked and an unmoved rook stands on h8; it moves the rook from h8 to f8 |
| BlackPlayer.QueenSideCastleOffered | src/com/chess/engine/player/BlackPlayer.java:37-72 | the queen-side castle is offered exactly when b8, c8 and d8 are empty and an unmoved piece stands on a8; it moves that piece to d8 and prints "0-0" |
| BlackPlayer.QueenSideIgnoresAttacks | src/com/chess/engine/player/BlackPlayer.java:37-72 | attacked squares never change whether the queen-side castle is offered |
| Evaluator.SumAppend | src/com/chess/engine/player/ai/StandardBoardEvaluator.java:69-76 | the sum of joined lists is the sum of the sums |
| Evaluator.SumNonnegative | src/com/chess/engine/player/ai/StandardBoardEvaluator.java:69-76 | nonnegative values have a nonnegative sum that bounds each of them |
| Evaluator.PieceValue | src/com/chess/engine/player/ai/StandardBoardEvaluator.java:69-76 | the loop adds up the values of the active pieces |
| Evaluator.Castled | src/com/chess/engine/player/ai/StandardBoardEvaluator.java:31-37 | 60 exactly when the player has castled, else 0 |
| Evaluator.Check | src/com/chess/engine/player/ai/StandardBoardEvaluator.java:39-45 | 50 exactly when the opponent is in check, else 0 |
| Evaluator.DepthFactor | src/com/chess/engine/player/ai/StandardBoardEvaluator.java:55-61 | 1 at depth 0 and 100 per ply otherwise, never 0 |
| Evaluator.DepthFactorIncreasing | src/com/chess/engine/player/ai/StandardBoardEvaluator.java:55-61 | from depth 1 on, the factor grows strictly with depth |
| Evaluator.CheckMate | src/com/chess/engine/player/ai/StandardBoardEvaluator.java:47-53 | nonzero exactly when the opponent is mated, and then 10000 times the depth factor |
| Evaluator.Evaluate | src/com/chess/engine/player/ai/StandardBoardEvaluator.java:15-18 | the value favours White exactly when White's score is higher, and sides with equal status score 0 |
| Evaluator.EvaluateAntisymmetric | src/com/chess/engine/player/ai/StandardBoardEvaluator.java:15-18 | swapping the sides negates the value, and equal sides score 0 |
| Evaluator.ScoreBonuses | src/com/chess/engine/player/ai/StandardBoardEvaluator.java:20-29 | check, castling and mate each add exactly their bonus |
| Evaluator.ScoreMobility | src/com/chess/engine/player/ai/StandardBoardEvaluator.java:63-67 | one more legal move adds one point |
| Evaluator.ScoreMaterial | src/com/chess/engine/player/ai/StandardBoardEvaluator.java:69-76 | one more piece adds its value |
| MinMax.Min | src/com/chess/engine/player/ai/minMax.java:66-85 | the loop returns the minimising value of the board |
| MinMax.Max | src/com/chess/engine/player/ai/minMax.java:88-107 | the loop returns the maximising value of the board |
| MinMax.LowestOverSpec | src/com/chess/engine/player/ai/minMax.java:74-83 | the lowest value bounds every done move's value from below and is one of them, or the greatest int when none is done |
| MinMax.HighestOverSpec | src/com/chess/engine/player/ai/minMax.java:96-105 | the highest value bounds every done move's value from above and is one of them, or the least int when none is done |
| MinMax.MaxValueSpec | src/com/chess/engine/player/ai/minMax.java:88-107 | at a leaf the value is the evaluation; elsewhere it is the greatest Min value of the done moves, or the least int |
| MinMax.MinValueSpec | src/com/chess/engine/player/ai/minMax.java:66-85 | at a leaf the value is the evaluation; elsewhere it is the least Max value of the done moves, or the greatest int |
| MinMax.Execute | src/com/chess/engine/player/ai/minMax.java:24-63 | no move exactly when no move is done; otherwise the last done move of best value for the side to move |
| StartingMoves.BackRankBlocked | src/com/chess/engine/board/Board.java:131-184 | from a back rank of the starting position no unit step or ray leads anywhere |
| StartingMoves.StartingPawnMoves | src/com/chess/engine/pieces/Pawn.java:29-89 | each starting pawn has its push and its jump, in that order |
| StartingMoves.StartingKnightMoves | src/com/chess/engine/pieces/Knight.java:26-57 | each starting knight has two quiet moves |
| StartingMoves.StartingPieceMoves | src/com/chess/tests/BoardTest.java:52-55 | every starting piece has its counted number of moves, none capturing or castling |
| StartingMoves.ActivePiecesBlock | src/com/chess/engine/board/Board.java:98-113 | scanning tiles that all hold pieces of the side appends those pieces in order |
| StartingMoves.ActivePiecesSkip | src/com/chess/engine/board/Board.java:98-113 | scanning tiles without a piece of the side adds nothing |
| StartingMoves.StartingLegalMoves | src/com/chess/engine/board/Board.java:87-96 | the moves of a side's first n starting pieces are quiet and add up to their counts |
| StartingMoves.StartingSides | src/com/chess/engine/board/Board.java:98-113 | in the starting position White's pieces are those on 48..63 and Black's those on 0..15 |
| StartingMoves.StartingSideMoves | src/com/chess/tests/BoardTest.java:37-38 | in the starting position each side has 20 moves, all quiet |
| StartingMoves.StartingTotals | src/com/chess/tests/BoardTest.java:37-38 | each side's counts add up to 20 |
| StartingMoves.StandardPawns | src/com/chess/engine/board/Board.java:135-142 | the standard board's pawns are the ones the pawn constructor builds |
| StartingMoves.StandardStartingTiles | src/com/chess/engine/board/Board.java:131-184 | the standard board's tiles are laid out as the starting position |
| StartingMoves.StandardBoardMoves | src/com/chess/tests/BoardTest.java:35-58 | the standard board builds and has 20 moves per side and 40 in all, none capturing or castling |
| StartingMoves.PlainKingConfig | src/com/chess/tests/BoardTest.java:73-79 | the kings-and-pawns position holds exactly e8, e7, e2 and e1 |
| StartingMoves.PlainKingBuilds | src/com/chess/tests/BoardTest.java:73-82 | the kings-and-pawns position holds a king of each side, so it builds |
| StartingMoves.PlainKingBoardFacts | src/com/chess/tests/BoardTest.java:73-82 | the built board is consistent, White is to move and the kings stand on e1 and e8 |
| StartingMoves.PlainKingTiles | src/com/chess/tests/BoardTest.java:73-79 | only those four squares hold a piece |
| StartingMoves.PlainKingWhiteSide | src/com/chess/tests/BoardTest.java:73-79 | White's pieces are the e2 pawn, then the e1 king |
| StartingMoves.PlainKingBlackSide | src/com/chess/tests/BoardTest.java:73-79 | Black's pieces are the e8 king, then the e7 pawn |
| StartingMoves.PlainKingWhiteKing | src/com/chess/tests/BoardTest.java:85 | the e1 king steps to d2, f2, d1 and f1 |
| StartingMoves.PlainKingBlackKing | src/com/chess/tests/BoardTest.java:86 | the e8 king steps to d8, f8, d7 and f7 |
| StartingMoves.PlainKingPawns | src/com/chess/tests/BoardTest.java:85-86 | each e-pawn has its push and its jump |
| StartingMoves.PlainKingWhiteList | src/com/chess/tests/BoardTest.java:85 | White's list is the pawn's two moves, then the king's four |
| StartingMoves.PlainKingBlackList | src/com/chess/tests/BoardTest.java:86 | Black's list is the king's four moves, then the pawn's two |
| StartingMoves.PlainKingMoves | src/com/chess/tests/BoardTest.java:71-86 | each side of the built board has exactly those six moves |
| StartingMoves.OnlyStepConnects | src/com/chess/tests/BoardTest.java:95-96 | in the two lists the king's step is the only move from e1 to f1 |
| StartingMoves.PlainKingLookupE1F1 | src/com/chess/tests/BoardTest.java:95-96 | looking up e1 to f1 finds exactly the king's step |
| StartingMoves.PlainKingStepConfig | src/com/chess/tests/BoardTest.java:98-105 | after the e1-f1 step the builder's map holds the white king on f1 and the black king on e8 |
| StartingMoves.PlainKingStepKeepsKings | src/com/chess/tests/BoardTest.java:98-105 | both kings remain after the e1-f1 step, so the new board builds |
| StartingMoves.PlainKingExecuteE1F1 | src/com/chess/tests/BoardTest.java:98-105 | executing the step leaves e1 empty, puts the white king on f1 and gives Black the move |

## Left out

- The GUI, the tests' printing, `hashCode`, `Board.toString`, and the search's timing and printing are output only.
- `Piece`, `Alliance`, `Player`, `WhitePlayer` and `MoveTransition` are not part of this model. Pieces are modelled as a datatype with value equality. The player questions the evaluator and the search ask are inputs:
  - in check, checkmate and stalemate;
  - castled;
  - the attacks on a square;
  - the king.
- The player's merging of castle moves into its legal moves, and the legality filter of `makeMove`, live in `Player.java`. That file is not part of this model. A player's list is the board's standard list, and the search takes "done" as an input.
- The first-move flag that the three-argument piece constructor gives rooks and knights is in `Piece.java`, which is not part of this model. It is the parameter `defaultFirstMove`. The king's castling rights on the standard board are the parameter `castleCapable`.
- The tables `ALGEBRAIC_NOTATION` and `POSITION_TO_COORDINATE` are filled by initialisers that `BoardUtils.java` does not contain. They are defined by Appendix C of the FIDE Laws of Chess, squares a8..h1 in order.
- `PawnPromotion.execute` calls a method that the source does not define, so execution excludes promotions (`Executable`).
- The en-passant pawn is kept as `Option<Piece>`. Its Java type `Pawn` is not enforced.
- Execution.Execute: a null move fails with `NullMoveError` instead of throwing. A pawn jump whose moved piece is not a pawn fails with `NotAPawn` instead of a cast exception. A new board without a king fails with `BuildFailed(NoKing(side))` instead of the exception the player's construction throws.
- Execution.ExecutedBoard: a Java move keeps the board it was generated on (`Move.java:13`), and `execute` copies the pieces of that board. The model's move does not store a board; execution takes the board as the argument `b`. So the lemmas hold for whatever board is passed, and using the move's own board is the caller's duty.
- Boards.BuildBoard: of the ways the player constructors can fail, only a side without a king is modelled. The constructors live in `Player.java`, which is not part of this model. Their other failure is the cast in the castle generation: BlackPlayer.CalculateKingCastles fails when the piece on a8 is not a rook. That failure is not passed on to the build.
- Boards.BuildBoard: the king a player establishes is not stored in the board. Only its existence decides whether the build succeeds (EstablishKing).
- BoardUtils.GetCoordinateAtPosition: returns `None` for a string that is not one of the 64 names. The source unboxes a null there and throws.
- BoardUtils.GetPositionAtCoordinate: returns `None` outside 0..63. The source's list index is out of range there and throws.
- Moves.ToString: returns `None` for the plain attack move and the null move. Neither class overrides `toString`, so its text is the identity-based default of `Object`, which values cannot express. It also returns `None` where a square to be named is off the board, where the source throws.
- Tiles.CreateTile: returns `None` for an empty tile off the board, where the source's cache lookup returns a null tile.
- MinMax.Execute: returns `None` where the source dereferences a null best move. The model adds `requires searchDepth >= 1` to `Execute`, `MoveValue` and `LastBest`; the source stores any depth (minMax.java:12-15) and never checks it. With a search depth below 1 the source calls `min`/`max` with a negative depth, and those stop only at a checkmate or stalemate (minMax.java:66-70, 88-92), so the search runs until the game ends or does not terminate. The model excludes that case, and excludes a negative depth in `min`/`max` by `requires depth >= 0` for the same reason.
- Evaluator: Java `int` overflow in the scores is not modelled; values are unbounded integers. The search's own values are 32-bit (`int32`).
- Evaluator.Mobility and Evaluator.ScorePlayer state no contract of their own. Their meaning is stated by ScoreMobility, ScoreBonuses and ScoreMaterial.
- The identity of the cached empty tiles (the same object for a square every time) is not observable on values.
- The inner loop of each sliding piece is its own method (`CalculateRay`). The outer loop appends one ray per offset, which is the order the source produces.
