/**
 * Depth-bounded minimax over an abstract game. White maximises and Black
 * minimises; a node is a leaf at depth 0 or when the side to move is
 * checkmated or stalemated, and is then scored by the evaluator. Only moves
 * whose transition is done are searched. Values are Java ints, so the
 * sentinels are the least and greatest 32-bit integers.
 */
module MinMax {
  import opened Wrappers

  newtype int32 = x: int | -0x8000_0000 <= x < 0x8000_0000

  const IntMin: int32 := -0x8000_0000
  const IntMax: int32 := 0x7fff_ffff

  /** What making a move yields: whether it is done, and the board it leads to. */
  datatype Transition<B> = Transition(isDone: bool, toBoard: B)

  /**
   * The game the search runs on: the current player's legal moves, making a
   * move, whether White is to move, the two end-of-game tests, and the
   * evaluator applied to a board at a remaining depth.
   */
  datatype Game<!B, !M> = Game(
    legalMoves: B -> seq<M>,
    makeMove: (B, M) -> Transition<B>,
    isWhite: B -> bool,
    isInCheckMate: B -> bool,
    isInStaleMate: B -> bool,
    evaluate: (B, int) -> int32)

  /** The game is over for the side to move. */
  predicate IsEndGameScenario<B, M>(g: Game<B, M>, b: B) {
    g.isInCheckMate(b) || g.isInStaleMate(b)
  }

  /** The minimising player's value of a board searched to the given depth. */
  function MinValue<B, M>(g: Game<B, M>, b: B, depth: int): int32
    requires depth >= 0
    decreases depth, 1
  {
    if depth == 0 || IsEndGameScenario(g, b) then g.evaluate(b, depth)
    else LowestOver(g, b, g.legalMoves(b), depth)
  }

  /** The maximising player's value of a board searched to the given depth. */
  function MaxValue<B, M>(g: Game<B, M>, b: B, depth: int): int32
    requires depth >= 0
    decreases depth, 1
  {
    if depth == 0 || IsEndGameScenario(g, b) then g.evaluate(b, depth)
    else HighestOver(g, b, g.legalMoves(b), depth)
  }

  /** The least MaxValue one ply down over the done moves of ms, starting from the greatest int. */
  function LowestOver<B, M>(g: Game<B, M>, b: B, ms: seq<M>, depth: int): int32
    requires depth >= 1
    decreases depth, 0, |ms|
  {
    if ms == [] then IntMax
    else
      var lowest := LowestOver(g, b, ms[..|ms| - 1], depth);
      var t := g.makeMove(b, ms[|ms| - 1]);
      if t.isDone then
        var currentValue := MaxValue(g, t.toBoard, depth - 1);
        if currentValue <= lowest then currentValue else lowest
      else lowest
  }

  /** The greatest MinValue one ply down over the done moves of ms, starting from the least int. */
  function HighestOver<B, M>(g: Game<B, M>, b: B, ms: seq<M>, depth: int): int32
    requires depth >= 1
    decreases depth, 0, |ms|
  {
    if ms == [] then IntMin
    else
      var highest := HighestOver(g, b, ms[..|ms| - 1], depth);
      var t := g.makeMove(b, ms[|ms| - 1]);
      if t.isDone then
        var currentValue := MinValue(g, t.toBoard, depth - 1);
        if currentValue >= highest then currentValue else highest
      else highest
  }

  /** Searches the minimising side's moves, keeping the lowest value seen. */
  method Min<B, M>(g: Game<B, M>, b: B, depth: int) returns (r: int32)
    requires depth >= 0
    ensures r == MinValue(g, b, depth)
    decreases depth, 1
  {
    if depth == 0 || IsEndGameScenario(g, b) {
      return g.evaluate(b, depth);
    }
    var lowestSeenValue := IntMax;
    var moves := g.legalMoves(b);
    for i := 0 to |moves|
      invariant lowestSeenValue == LowestOver(g, b, moves[..i], depth)
    {
      assert moves[..i + 1][..i] == moves[..i];
      var moveTransition := g.makeMove(b, moves[i]);
      if moveTransition.isDone {
        var currentValue := Max(g, moveTransition.toBoard, depth - 1);
        if currentValue <= lowestSeenValue {
          lowestSeenValue := currentValue;
        }
      }
    }
    assert moves[..|moves|] == moves;
    r := lowestSeenValue;
  }

  /** Searches the maximising side's moves, keeping the highest value seen. */
  method Max<B, M>(g: Game<B, M>, b: B, depth: int) returns (r: int32)
    requires depth >= 0
    ensures r == MaxValue(g, b, depth)
    decreases depth, 1
  {
    if depth == 0 || IsEndGameScenario(g, b) {
      return g.evaluate(b, depth);
    }
    var highestSeenValue := IntMin;
    var moves := g.legalMoves(b);
    for i := 0 to |moves|
      invariant highestSeenValue == HighestOver(g, b, moves[..i], depth)
    {
      assert moves[..i + 1][..i] == moves[..i];
      var moveTransition := g.makeMove(b, moves[i]);
      if moveTransition.isDone {
        var currentValue := Min(g, moveTransition.toBoard, depth - 1);
        if currentValue >= highestSeenValue {
          highestSeenValue := currentValue;
        }
      }
    }
    assert moves[..|moves|] == moves;
    r := highestSeenValue;
  }

  /** Whether making move m on b is done. */
  predicate Done<B, M>(g: Game<B, M>, b: B, m: M) {
    g.makeMove(b, m).isDone
  }

  /**
   * The lowest value is at most every done move's value one ply down, and
   * is either one of them or the greatest int; with no done move it is the
   * greatest int.
   */
  lemma {:induction false} LowestOverSpec<B, M>(g: Game<B, M>, b: B, ms: seq<M>, depth: int)
    requires depth >= 1
    ensures forall i :: 0 <= i < |ms| && Done(g, b, ms[i]) ==>
      LowestOver(g, b, ms, depth) <= MaxValue(g, g.makeMove(b, ms[i]).toBoard, depth - 1)
    ensures LowestOver(g, b, ms, depth) == IntMax ||
      exists i :: 0 <= i < |ms| && Done(g, b, ms[i]) &&
        LowestOver(g, b, ms, depth) == MaxValue(g, g.makeMove(b, ms[i]).toBoard, depth - 1)
    ensures (forall i :: 0 <= i < |ms| ==> !Done(g, b, ms[i])) ==> LowestOver(g, b, ms, depth) == IntMax
  {
    if ms != [] {
      var init := ms[..|ms| - 1];
      LowestOverSpec(g, b, init, depth);
      forall i | 0 <= i < |init| ensures init[i] == ms[i] { }
    }
  }

  /**
   * The highest value is at least every done move's value one ply down, and
   * is either one of them or the least int; with no done move it is the
   * least int.
   */
  lemma {:induction false} HighestOverSpec<B, M>(g: Game<B, M>, b: B, ms: seq<M>, depth: int)
    requires depth >= 1
    ensures forall i :: 0 <= i < |ms| && Done(g, b, ms[i]) ==>
      HighestOver(g, b, ms, depth) >= MinValue(g, g.makeMove(b, ms[i]).toBoard, depth - 1)
    ensures HighestOver(g, b, ms, depth) == IntMin ||
      exists i :: 0 <= i < |ms| && Done(g, b, ms[i]) &&
        HighestOver(g, b, ms, depth) == MinValue(g, g.makeMove(b, ms[i]).toBoard, depth - 1)
    ensures (forall i :: 0 <= i < |ms| ==> !Done(g, b, ms[i])) ==> HighestOver(g, b, ms, depth) == IntMin
  {
    if ms != [] {
      var init := ms[..|ms| - 1];
      HighestOverSpec(g, b, init, depth);
      forall i | 0 <= i < |init| ensures init[i] == ms[i] { }
    }
  }

  /**
   * Max at a leaf is the evaluation; elsewhere it is at least the Min value
   * one ply down of every done move, and equals one of them or, when no move
   * is done, the least int.
   */
  lemma MaxValueSpec<B, M>(g: Game<B, M>, b: B, depth: int)
    requires depth >= 0
    ensures depth == 0 || IsEndGameScenario(g, b) ==> MaxValue(g, b, depth) == g.evaluate(b, depth)
    ensures depth > 0 && !IsEndGameScenario(g, b) ==>
      var ms := g.legalMoves(b);
      && (forall i :: 0 <= i < |ms| && Done(g, b, ms[i]) ==>
            MaxValue(g, b, depth) >= MinValue(g, g.makeMove(b, ms[i]).toBoard, depth - 1))
      && ((forall i :: 0 <= i < |ms| ==> !Done(g, b, ms[i])) ==> MaxValue(g, b, depth) == IntMin)
      && (MaxValue(g, b, depth) == IntMin ||
          exists i :: 0 <= i < |ms| && Done(g, b, ms[i]) &&
            MaxValue(g, b, depth) == MinValue(g, g.makeMove(b, ms[i]).toBoard, depth - 1))
  {
    if depth > 0 && !IsEndGameScenario(g, b) {
      HighestOverSpec(g, b, g.legalMoves(b), depth);
    }
  }

  /**
   * Min at a leaf is the evaluation; elsewhere it is at most the Max value
   * one ply down of every done move, and equals one of them or, when no move
   * is done, the greatest int.
   */
  lemma MinValueSpec<B, M>(g: Game<B, M>, b: B, depth: int)
    requires depth >= 0
    ensures depth == 0 || IsEndGameScenario(g, b) ==> MinValue(g, b, depth) == g.evaluate(b, depth)
    ensures depth > 0 && !IsEndGameScenario(g, b) ==>
      var ms := g.legalMoves(b);
      && (forall i :: 0 <= i < |ms| && Done(g, b, ms[i]) ==>
            MinValue(g, b, depth) <= MaxValue(g, g.makeMove(b, ms[i]).toBoard, depth - 1))
      && ((forall i :: 0 <= i < |ms| ==> !Done(g, b, ms[i])) ==> MinValue(g, b, depth) == IntMax)
      && (MinValue(g, b, depth) == IntMax ||
          exists i :: 0 <= i < |ms| && Done(g, b, ms[i]) &&
            MinValue(g, b, depth) == MaxValue(g, g.makeMove(b, ms[i]).toBoard, depth - 1))
  {
    if depth > 0 && !IsEndGameScenario(g, b) {
      LowestOverSpec(g, b, g.legalMoves(b), depth);
    }
  }

  /** The value one ply down of a move for the side to move: Black's reply minimises after White, and vice versa. */
  function MoveValue<B, M>(g: Game<B, M>, b: B, m: M, searchDepth: int): int32
    requires searchDepth >= 1
  {
    var t := g.makeMove(b, m);
    if g.isWhite(b) then MinValue(g, t.toBoard, searchDepth - 1) else MaxValue(g, t.toBoard, searchDepth - 1)
  }

  /** The move at index i is the best done move, and the last one with that value. */
  predicate LastBest<B, M>(g: Game<B, M>, b: B, ms: seq<M>, n: int, i: int, searchDepth: int)
    requires searchDepth >= 1 && 0 <= i < n <= |ms|
  {
    Done(g, b, ms[i]) &&
    (forall j :: 0 <= j < n && Done(g, b, ms[j]) ==>
      if g.isWhite(b) then MoveValue(g, b, ms[j], searchDepth) <= MoveValue(g, b, ms[i], searchDepth)
      else MoveValue(g, b, ms[j], searchDepth) >= MoveValue(g, b, ms[i], searchDepth)) &&
    (forall j :: i < j < n && Done(g, b, ms[j]) ==> MoveValue(g, b, ms[j], searchDepth) != MoveValue(g, b, ms[i], searchDepth))
  }

  /**
   * Picks the current player's move: White takes a done move of greatest
   * value, Black one of least value, the last such move on ties. None when
   * no move is done (the caller then fails printing the missing move).
   */
  method Execute<B, M>(g: Game<B, M>, b: B, searchDepth: int) returns (bestMove: Option<M>)
    requires searchDepth >= 1
    ensures bestMove.None? <==> forall i :: 0 <= i < |g.legalMoves(b)| ==> !Done(g, b, g.legalMoves(b)[i])
    ensures bestMove.Some? ==>
      exists i :: 0 <= i < |g.legalMoves(b)| && g.legalMoves(b)[i] == bestMove.value &&
        LastBest(g, b, g.legalMoves(b), |g.legalMoves(b)|, i, searchDepth)
  {
    var moves := g.legalMoves(b);
    bestMove := None;
    var highestSeenValue := IntMin;
    var lowestSeenValue := IntMax;
    ghost var best := -1;
    for i := 0 to |moves|
      invariant -1 <= best < i
      invariant best == -1 <==> forall j :: 0 <= j < i ==> !Done(g, b, moves[j])
      invariant best == -1 <==> bestMove.None?
      invariant best >= 0 ==> bestMove == Some(moves[best]) && LastBest(g, b, moves, i, best, searchDepth)
      invariant best >= 0 && g.isWhite(b) ==> highestSeenValue == MoveValue(g, b, moves[best], searchDepth)
      invariant best >= 0 && !g.isWhite(b) ==> lowestSeenValue == MoveValue(g, b, moves[best], searchDepth)
      invariant best == -1 ==> highestSeenValue == IntMin && lowestSeenValue == IntMax
    {
      var moveTransition := g.makeMove(b, moves[i]);
      if moveTransition.isDone {
        var currentValue;
        if g.isWhite(b) {
          currentValue := Min(g, moveTransition.toBoard, searchDepth - 1);
        } else {
          currentValue := Max(g, moveTransition.toBoard, searchDepth - 1);
        }
        if g.isWhite(b) && currentValue >= highestSeenValue {
          highestSeenValue := currentValue;
          bestMove := Some(moves[i]);
          best := i;
        } else if !g.isWhite(b) && currentValue <= lowestSeenValue {
          lowestSeenValue := currentValue;
          bestMove := Some(moves[i]);
          best := i;
        }
      }
    }
  }
}
