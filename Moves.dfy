/**
 * Moves as values. Each variant carries the moved piece and the destination
 * square; the origin is the moved piece's own square. The board a move was
 * generated on is not stored: execution takes it as an argument.
 */
module Moves {
  import opened Wrappers
  import opened Pieces
  import BoardUtils

  datatype Move =
    | MajorMove(movedPiece: Piece, destinationCoordinate: int)
    | AttackMove(movedPiece: Piece, destinationCoordinate: int, attackedPiece: Piece)
    | MajorAttackMove(movedPiece: Piece, destinationCoordinate: int, attackedPiece: Piece)
    | PawnMove(movedPiece: Piece, destinationCoordinate: int)
    | PawnAttackMove(movedPiece: Piece, destinationCoordinate: int, attackedPiece: Piece)
    | EnPassantMove(movedPiece: Piece, destinationCoordinate: int, attackedPiece: Piece)
    | PawnJump(movedPiece: Piece, destinationCoordinate: int)
    | PawnPromotion(decoratedMove: Move)
    | KingSideCastleMove(movedPiece: Piece, destinationCoordinate: int,
                         castleRook: Piece, castleRookStart: int, castleRookDestination: int)
    | QueenSideCastleMove(movedPiece: Piece, destinationCoordinate: int,
                          castleRook: Piece, castleRookStart: int, castleRookDestination: int)
    | NullMove
  {
    /** The moved piece; the null move has none, a promotion reports its inner move's. */
    function GetMovedPiece(): Option<Piece> {
      match this
      case NullMove => None
      case PawnPromotion(inner) => inner.GetMovedPiece()
      case _ => Some(movedPiece)
    }

    /** The destination square: 65 for the null move, the inner move's for a promotion. */
    function GetDestinationCoordinate(): int {
      match this
      case NullMove => 65
      case PawnPromotion(inner) => inner.GetDestinationCoordinate()
      case _ => destinationCoordinate
    }

    /** The origin square: the moved piece's position, or -1 for the null move. */
    function GetCurrentCoordinate(): int {
      match this
      case NullMove => -1
      case PawnPromotion(inner) => inner.GetCurrentCoordinate()
      case _ => movedPiece.position
    }

    predicate IsAttack() {
      match this
      case AttackMove(_, _, _) => true
      case MajorAttackMove(_, _, _) => true
      case PawnAttackMove(_, _, _) => true
      case EnPassantMove(_, _, _) => true
      case PawnPromotion(inner) => inner.IsAttack()
      case _ => false
    }

    predicate IsCastlingMove() {
      KingSideCastleMove? || QueenSideCastleMove?
    }

    function GetAttackedPiece(): (p: Option<Piece>)
      ensures p.Some? <==> IsAttack()
    {
      match this
      case AttackMove(_, _, q) => Some(q)
      case MajorAttackMove(_, _, q) => Some(q)
      case PawnAttackMove(_, _, q) => Some(q)
      case EnPassantMove(_, _, q) => Some(q)
      case PawnPromotion(inner) => inner.GetAttackedPiece()
      case _ => None
    }

    /** The attack family of the class hierarchy (instanceof AttackMove). */
    predicate IsAttackMoveInstance() {
      AttackMove? || MajorAttackMove? || PawnAttackMove? || EnPassantMove?
    }

    /** The castle family of the class hierarchy (instanceof CastleMove). */
    predicate IsCastleMoveInstance() {
      KingSideCastleMove? || QueenSideCastleMove?
    }
  }

  /**
   * The origin is the moved piece's square, or -1 when there is no moved
   * piece; the null move's destination is 65; a promotion reports the
   * squares of the move it decorates.
   */
  lemma {:induction false} MoveCoordinates(m: Move)
    ensures m.GetCurrentCoordinate() == if m.GetMovedPiece().Some? then m.GetMovedPiece().value.position else -1
    ensures m.NullMove? ==> m.GetDestinationCoordinate() == 65
    ensures m.PawnPromotion? ==>
      m.GetCurrentCoordinate() == m.decoratedMove.GetCurrentCoordinate() &&
      m.GetDestinationCoordinate() == m.decoratedMove.GetDestinationCoordinate()
    ensures !m.NullMove? && !m.PawnPromotion? ==> m.GetDestinationCoordinate() == m.destinationCoordinate
  {
    if m.PawnPromotion? {
      MoveCoordinates(m.decoratedMove);
    }
  }

  /**
   * The two class tests: a move is an attack when it belongs to one of the
   * four attack classes or promotes an attack, and then it has a moved and
   * an attacked piece; only the two castle classes castle, and no move does both.
   */
  lemma {:induction false} MoveKinds(m: Move)
    ensures m.IsAttack() <==> m.IsAttackMoveInstance() || (m.PawnPromotion? && m.decoratedMove.IsAttack())
    ensures m.IsAttack() ==> m.GetMovedPiece().Some? && m.GetAttackedPiece().Some?
    ensures m.IsCastlingMove() <==> m.IsCastleMoveInstance()
    ensures !(m.IsAttack() && m.IsCastlingMove())
  {
    if m.PawnPromotion? {
      MoveKinds(m.decoratedMove);
    }
  }

  /** The base comparison every equality override calls: same origin, destination and moved piece. */
  predicate SameEndpointsAndPiece(a: Move, b: Move) {
    a.GetCurrentCoordinate() == b.GetCurrentCoordinate() &&
    a.GetDestinationCoordinate() == b.GetDestinationCoordinate() &&
    a.GetMovedPiece() == b.GetMovedPiece()
  }

  /** The attack comparison: the other move is an attack with the same attacked piece. */
  predicate AttackEquals(a: Move, b: Move) {
    b.IsAttackMoveInstance() && SameEndpointsAndPiece(a, b) && a.GetAttackedPiece() == b.GetAttackedPiece()
  }

  /** The castle comparison: the other move is a castle with the same rook. */
  predicate CastleEquals(a: Move, b: Move)
    requires a.IsCastleMoveInstance()
  {
    b.IsCastleMoveInstance() && SameEndpointsAndPiece(a, b) && a.castleRook == b.castleRook
  }

  /**
   * a.equals(b), following each class's override. It is not symmetric: a
   * pawn jump has no override of its own, so it equals any move with the
   * same endpoints and piece, while the other classes also demand their own class.
   */
  predicate Equals(a: Move, b: Move) {
    a == b ||
    match a
    case MajorMove(_, _) => b.MajorMove? && SameEndpointsAndPiece(a, b)
    case AttackMove(_, _, _) => AttackEquals(a, b)
    case MajorAttackMove(_, _, _) => b.MajorAttackMove? && AttackEquals(a, b)
    case PawnMove(_, _) => b.PawnMove? && SameEndpointsAndPiece(a, b)
    case PawnAttackMove(_, _, _) => (b.PawnAttackMove? || b.EnPassantMove?) && AttackEquals(a, b)
    case EnPassantMove(_, _, _) => b.EnPassantMove? && AttackEquals(a, b)
    case PawnJump(_, _) => SameEndpointsAndPiece(a, b)
    case PawnPromotion(_) => b.PawnPromotion? && SameEndpointsAndPiece(a, b)
    case KingSideCastleMove(_, _, _, _, _) => b.KingSideCastleMove? && CastleEquals(a, b)
    case QueenSideCastleMove(_, _, _, _, _) => b.QueenSideCastleMove? && CastleEquals(a, b)
    case NullMove => SameEndpointsAndPiece(a, b)
  }

  /** Equal moves always share origin, destination and moved piece. */
  lemma EqualsImpliesSameEndpoints(a: Move, b: Move)
    requires Equals(a, b)
    ensures a.GetCurrentCoordinate() == b.GetCurrentCoordinate()
    ensures a.GetDestinationCoordinate() == b.GetDestinationCoordinate()
    ensures a.GetMovedPiece() == b.GetMovedPiece()
  {
  }

  /** A pawn jump equals the quiet move with the same endpoints, but not the other way round. */
  lemma PawnJumpEqualityIsOneSided(p: Piece, d: int)
    ensures Equals(PawnJump(p, d), MajorMove(p, d))
    ensures !Equals(MajorMove(p, d), PawnJump(p, d))
  {
  }

  /** The null move equals only itself among moves whose origin is on the board. */
  lemma NullMoveEqualsOnlyItself(m: Move)
    requires m.GetCurrentCoordinate() != -1
    ensures !Equals(NullMove, m) && !Equals(m, NullMove)
  {
  }

  /**
   * How a move prints. None where a class has no override of its own
   * (identity-based text) and where a square named in the text is off the
   * board (the source fails there).
   */
  function ToString(m: Move): (r: Option<string>)
    ensures r.None? <==>
      || m.AttackMove? || m.NullMove?
      || (!m.PawnPromotion? && !m.IsCastlingMove() && !(0 <= m.GetDestinationCoordinate() < BoardUtils.NumTiles))
      || ((m.PawnAttackMove? || m.EnPassantMove?) && !(0 <= m.movedPiece.position < BoardUtils.NumTiles))
    ensures m.PawnPromotion? ==> r == Some("")
    ensures m.KingSideCastleMove? ==> r == Some("0-0")
    ensures m.QueenSideCastleMove? ==> r == Some("0-0-0")
  {
    var dest := BoardUtils.GetPositionAtCoordinate(m.GetDestinationCoordinate());
    match m
    case MajorMove(p, _) => if dest.Some? then Some(p.pieceType.Letter() + dest.value) else None
    case MajorAttackMove(p, _, _) => if dest.Some? then Some(p.pieceType.Letter() + dest.value) else None
    case PawnMove(_, _) => dest
    case PawnAttackMove(p, _, _) => PawnCaptureText(p.position, dest)
    case EnPassantMove(p, _, _) => PawnCaptureText(p.position, dest)
    case PawnJump(_, _) => dest
    case PawnPromotion(_) => Some("")
    case KingSideCastleMove(_, _, _, _, _) => Some("0-0")
    case QueenSideCastleMove(_, _, _, _, _) => Some("0-0-0")
    case AttackMove(_, _, _) => None
    case NullMove => None
  }

  /** The origin file letter, "x", then the destination name, as in "exd5". */
  function PawnCaptureText(origin: int, dest: Option<string>): (s: Option<string>)
    ensures s.Some? ==> |s.value| == 4 && s.value[1] == 'x'
  {
    var from := BoardUtils.GetPositionAtCoordinate(origin);
    if from.Some? && dest.Some? && |dest.value| == 2 then Some(from.value[..1] + "x" + dest.value) else None
  }

  /**
   * Every other printed move ends with the destination's name, which looks
   * the destination up again. A piece move puts the piece's letter before
   * it, a pawn push or jump prints the name alone, and a pawn capture the
   * origin's file letter and "x" before it.
   */
  lemma MoveText(m: Move)
    requires !m.PawnPromotion? && !m.IsCastlingMove() && ToString(m).Some?
    ensures var text := ToString(m).value;
      var d := m.GetDestinationCoordinate();
      && 0 <= d < BoardUtils.NumTiles
      && |text| >= 2 && text[|text| - 2..] == BoardUtils.AlgebraicNotation[d]
      && BoardUtils.GetCoordinateAtPosition(text[|text| - 2..]) == Some(d)
      && (m.MajorMove? || m.MajorAttackMove? ==> text == m.movedPiece.pieceType.Letter() + text[|text| - 2..])
      && (m.PawnMove? || m.PawnJump? ==> |text| == 2)
      && (m.PawnAttackMove? || m.EnPassantMove? ==>
            |text| == 4 && text[0] == BoardUtils.FileLetters[BoardUtils.File(m.movedPiece.position)] && text[1] == 'x')
  {
    var text := ToString(m).value;
    var d := m.GetDestinationCoordinate();
    var name := BoardUtils.GetPositionAtCoordinate(d).value;
    BoardUtils.CoordinateRoundTrip(d);
    assert text[|text| - 2..] == name;
  }

  /** The texts the notation promises: "Nf3", "exd5", "0-0", "0-0-0". */
  lemma ToStringExamples(knight: Piece, pawn: Piece, q: Piece, king: Piece, rook: Piece)
    requires knight.pieceType == Knight && pawn.position == 36
    ensures ToString(MajorMove(knight, 45)) == Some("Nf3")
    ensures ToString(PawnAttackMove(pawn, 27, q)) == Some("exd5")
    ensures ToString(KingSideCastleMove(king, 6, rook, 7, 5)) == Some("0-0")
    ensures ToString(QueenSideCastleMove(king, 2, rook, 0, 3)) == Some("0-0-0")
  {
    NameOf(45, 'f', '3');
    NameOf(36, 'e', '4');
    NameOf(27, 'd', '5');
    assert "N" + ['f', '3'] == "Nf3";
    assert ['e', '4'][..1] + "x" + ['d', '5'] == "exd5";
  }

  lemma NameOf(i: int, f: char, r: char)
    requires 0 <= i < 64 && BoardUtils.FileLetters[i % 8] == f && BoardUtils.RankDigits[i / 8] == r
    ensures BoardUtils.GetPositionAtCoordinate(i) == Some([f, r])
  {
  }
}
