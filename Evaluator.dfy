/**
 * The standard board evaluator: each side scores material, mobility and
 * bonuses for checking, mating and having castled; a board's value is
 * White's score minus Black's. What a player reports about itself (its
 * piece values, move count, castled, whether its opponent is in check or
 * checkmated) comes from the player view, which is not modelled: it is the
 * input PlayerStatus.
 */
module Evaluator {

  const CheckBonus: int := 50
  const CheckMateBonus: int := 10000
  const DepthBonus: int := 100
  const CastleBonus: int := 60

  /** What the evaluator asks of one player. */
  datatype PlayerStatus = PlayerStatus(
    pieceValues: seq<int>,
    legalMoveCount: nat,
    isCastled: bool,
    opponentInCheck: bool,
    opponentInCheckMate: bool)

  /** The sum of a sequence of values. */
  function Sum(values: seq<int>): int {
    if values == [] then 0 else Sum(values[..|values| - 1]) + values[|values| - 1]
  }

  /** Sums distribute over concatenation. */
  lemma {:induction false} SumAppend(xs: seq<int>, ys: seq<int>)
    ensures Sum(xs + ys) == Sum(xs) + Sum(ys)
    decreases |ys|
  {
    if ys == [] {
      assert xs + ys == xs;
    } else {
      var init := ys[..|ys| - 1];
      assert (xs + ys)[..|xs + ys| - 1] == xs + init;
      assert (xs + ys)[|xs + ys| - 1] == ys[|ys| - 1];
      SumAppend(xs, init);
    }
  }

  /** Nonnegative values have a nonnegative sum that bounds each of them. */
  lemma {:induction false} SumNonnegative(values: seq<int>)
    requires forall i :: 0 <= i < |values| ==> values[i] >= 0
    ensures Sum(values) >= 0
    ensures forall i :: 0 <= i < |values| ==> values[i] <= Sum(values)
  {
    if values != [] {
      SumNonnegative(values[..|values| - 1]);
    }
  }

  /** The material score: the values of the active pieces added up one by one. */
  method PieceValue(player: PlayerStatus) returns (pieceValueScore: int)
    ensures pieceValueScore == Sum(player.pieceValues)
  {
    pieceValueScore := 0;
    for i := 0 to |player.pieceValues|
      invariant pieceValueScore == Sum(player.pieceValues[..i])
    {
      assert player.pieceValues[..i + 1][..i] == player.pieceValues[..i];
      pieceValueScore := pieceValueScore + player.pieceValues[i];
    }
    assert player.pieceValues[..|player.pieceValues|] == player.pieceValues;
  }

  /** The number of legal moves. */
  function Mobility(player: PlayerStatus): int {
    player.legalMoveCount
  }

  /** Castled players earn the castle bonus, others nothing. */
  function Castled(player: PlayerStatus): (r: int)
    ensures r == CastleBonus || r == 0
    ensures r == CastleBonus <==> player.isCastled
  {
    if player.isCastled then CastleBonus else 0
  }

  /** Putting the opponent in check earns the check bonus, otherwise nothing. */
  function Check(player: PlayerStatus): (r: int)
    ensures r == CheckBonus || r == 0
    ensures r == CheckBonus <==> player.opponentInCheck
  {
    if player.opponentInCheck then CheckBonus else 0
  }

  /** 1 at depth 0, and 100 per ply otherwise. */
  function DepthFactor(depth: int): (r: int)
    ensures depth == 0 ==> r == 1
    ensures depth >= 0 ==> r >= 1
    ensures depth != 0 ==> r == DepthBonus * depth
    ensures r != 0
  {
    if depth == 0 then 1 else DepthBonus * depth
  }

  /** Deeper remaining depth weighs more: the factor grows strictly from depth 1 on. */
  lemma DepthFactorIncreasing(d1: int, d2: int)
    requires 1 <= d1 < d2
    ensures DepthFactor(d1) < DepthFactor(d2)
  {
  }

  /** Mating the opponent earns the mate bonus scaled by the depth factor, otherwise nothing. */
  function CheckMate(player: PlayerStatus, depth: int): (r: int)
    ensures r == 0 || r == CheckMateBonus * DepthFactor(depth)
    ensures r != 0 <==> player.opponentInCheckMate
    ensures depth >= 0 && player.opponentInCheckMate ==> r >= CheckMateBonus
  {
    if player.opponentInCheckMate then CheckMateBonus * DepthFactor(depth) else 0
  }

  /** A side's score: material, mobility and the three bonuses. */
  function ScorePlayer(player: PlayerStatus, depth: int): int {
    Sum(player.pieceValues) + Mobility(player) + Check(player) + CheckMate(player, depth) + Castled(player)
  }

  /**
   * A board's value: White's score minus Black's. It favours White exactly
   * when White scores more, and sides with equal status balance out.
   */
  function Evaluate(white: PlayerStatus, black: PlayerStatus, depth: int): (r: int)
    ensures r > 0 <==> ScorePlayer(white, depth) > ScorePlayer(black, depth)
    ensures white == black ==> r == 0
  {
    ScorePlayer(white, depth) - ScorePlayer(black, depth)
  }

  /** Exchanging the two sides negates the value; equal sides balance out. */
  lemma EvaluateAntisymmetric(white: PlayerStatus, black: PlayerStatus, depth: int)
    ensures Evaluate(white, black, depth) == -Evaluate(black, white, depth)
    ensures white == black ==> Evaluate(white, black, depth) == 0
  {
  }

  /**
   * Each bonus adds exactly its amount: putting the opponent in check adds
   * 50, having castled adds 60, mating adds 10000 times the depth factor.
   */
  lemma ScoreBonuses(player: PlayerStatus, depth: int)
    ensures ScorePlayer(player.(opponentInCheck := true), depth) == ScorePlayer(player.(opponentInCheck := false), depth) + CheckBonus
    ensures ScorePlayer(player.(isCastled := true), depth) == ScorePlayer(player.(isCastled := false), depth) + CastleBonus
    ensures ScorePlayer(player.(opponentInCheckMate := true), depth) ==
            ScorePlayer(player.(opponentInCheckMate := false), depth) + CheckMateBonus * DepthFactor(depth)
  {
  }

  /** One more legal move, all else equal, adds one to the score. */
  lemma ScoreMobility(player: PlayerStatus, depth: int)
    ensures ScorePlayer(player.(legalMoveCount := player.legalMoveCount + 1), depth) == ScorePlayer(player, depth) + 1
  {
  }

  /** One more piece adds its value to the score. */
  lemma ScoreMaterial(player: PlayerStatus, depth: int, value: int)
    ensures ScorePlayer(player.(pieceValues := player.pieceValues + [value]), depth) == ScorePlayer(player, depth) + value
  {
    SumAppend(player.pieceValues, [value]);
    assert Sum([value]) == value by {
      assert [value][..0] == [];
    }
  }
}
