/** Making a move on the real board, as the click handler does: the piece
    lands marked as moved (a pawn reaching the last rank becomes a queen) and
    its square is emptied. The main result is that a legal move keeps the
    position legal for the side that plays next. */
module Moves {
  import opened ChessBoard
  import opened MoveGen
  import opened MoveGenFacts
  import opened Rules

  /** The piece as it stands after moving to `to`. */
  function Landed(p: Piece, to: Square): Piece {
    if p.kind == Pawn && (to.row == 0 || to.row == 7) then Piece(Queen, p.color, true)
    else Piece(p.kind, p.color, true)
  }

  /** The board after the piece on `from` moves to `to`, capturing whatever stood there. */
  function ApplyMove(b: Board, from: Square, to: Square): (nb: Board)
    requires OnBoard(from) && OnBoard(to) && At(b, from).Some?
    ensures At(nb, from) == None
    ensures to != from ==> At(nb, to) == Some(Landed(At(b, from).value, to))
    ensures forall s :: OnBoard(s) && s != from && s != to ==> At(nb, s) == At(b, s)
  {
    Put(Put(b, to, Some(Landed(At(b, from).value, to))), from, None)
  }

  /** The board as the click handler builds it on a copy: the piece placed
      on `to` marked as moved, `from` emptied, then a pawn on an end rank
      replaced by a queen. */
  method MovePiece(b: Board, from: Square, to: Square) returns (nb: Board)
    requires OnBoard(from) && OnBoard(to) && from != to && At(b, from).Some?
    ensures nb == ApplyMove(b, from, to)
  {
    var piece := At(b, from).value;
    nb := b;
    nb := Put(nb, to, Some(Piece(piece.kind, piece.color, true)));
    nb := Put(nb, from, None);
    if piece.kind == Pawn && (to.row == 0 || to.row == 7) {
      nb := Put(nb, to, Some(Piece(Queen, piece.color, true)));
    }
    BoardsEqual(nb, ApplyMove(b, from, to));
  }

  /** No pawn stands on the first or last rank. */
  ghost predicate NoPawnOnEndRank(b: Board) {
    forall sq :: OnBoard(sq) && (sq.row == 0 || sq.row == 7) ==> !(At(b, sq).Some? && At(b, sq).value.kind == Pawn)
  }

  /** Promotion: the landed piece keeps its colour, is marked as moved, and
      is a pawn only away from the end ranks; otherwise it keeps its kind. */
  lemma LandedPiece(p: Piece, to: Square)
    ensures Landed(p, to).color == p.color && Landed(p, to).moved
    ensures Landed(p, to).kind == Pawn ==> to.row != 0 && to.row != 7
    ensures p.kind != Pawn ==> Landed(p, to).kind == p.kind
    ensures (Landed(p, to).kind == King) == (p.kind == King)
  {
  }

  /** Promotion keeps pawns off the end ranks. */
  lemma MoveKeepsEndRanksClear(b: Board, from: Square, to: Square)
    requires OnBoard(from) && OnBoard(to) && At(b, from).Some?
    requires NoPawnOnEndRank(b)
    ensures NoPawnOnEndRank(ApplyMove(b, from, to))
  {
    var nb := ApplyMove(b, from, to);
    forall sq | OnBoard(sq) && (sq.row == 0 || sq.row == 7)
      ensures !(At(nb, sq).Some? && At(nb, sq).value.kind == Pawn)
    {
      if sq == to && sq != from {
        LandedPiece(At(b, from).value, to);
      }
    }
  }

  lemma InitialEndRanksClear()
    ensures NoPawnOnEndRank(InitialBoard())
  {
    var b := InitialBoard();
    forall sq | OnBoard(sq) && (sq.row == 0 || sq.row == 7)
      ensures !(At(b, sq).Some? && At(b, sq).value.kind == Pawn)
    {
      assert At(b, sq) == StartingPiece(sq.row, sq.col);
    }
  }

  /** Boards that agree on where `color`'s kings stand have the same first king. */
  lemma FindKingAgrees(b1: Board, b2: Board, color: Color)
    requires forall sq :: OnBoard(sq) ==> (IsKingOf(At(b1, sq), color) <==> IsKingOf(At(b2, sq), color))
    ensures FindKing(b1, color) == FindKing(b2, color)
  {
    var k1 := FindKing(b1, color);
    var k2 := FindKing(b2, color);
    if k1.Some? {
      assert HasKing(b2, color) by { assert IsKingOf(At(b2, k1.value), color); }
    }
    if k2.Some? {
      assert HasKing(b1, color) by { assert IsKingOf(At(b1, k2.value), color); }
    }
    if k1.Some? && k2.Some? {
      // each is a king on the other board, so neither comes before the other
      assert IsKingOf(At(b1, k2.value), color) && IsKingOf(At(b2, k1.value), color);
    }
  }

  /** Whether `byColor` attacks a square depends only on the colours of the
      squares and on `byColor`'s own pieces. */
  lemma AttackedAgrees(b1: Board, b2: Board, target: Square, byColor: Color)
    requires SameColors(b1, b2)
    requires forall sq :: HoldsColor(b1, sq, byColor) ==> At(b1, sq) == At(b2, sq)
    ensures Attacked(b1, target, byColor) <==> Attacked(b2, target, byColor)
  {
    if Attacked(b1, target, byColor) {
      var sq :| HoldsColor(b1, sq, byColor) && target in PseudoMoves(b1, sq);
      PieceMovesDependOnColors(b1, b2, sq, At(b1, sq).value);
      assert HoldsColor(b2, sq, byColor) && target in PseudoMoves(b2, sq);
    }
    if Attacked(b2, target, byColor) {
      var sq :| HoldsColor(b2, sq, byColor) && target in PseudoMoves(b2, sq);
      assert HoldsColor(b1, sq, byColor);
      PieceMovesDependOnColors(b1, b2, sq, At(b1, sq).value);
      assert target in PseudoMoves(b1, sq);
    }
  }

  /** The opponent's first king is never a pseudo-legal destination in a
      legal position: that would mean it is attacked by the side to move. */
  lemma EnemyKingNotCaptured(b: Board, from: Square, to: Square, mover: Color)
    requires LegalPosition(b, mover) && HoldsColor(b, from, mover)
    requires to in PseudoMoves(b, from)
    ensures FindKing(b, Opponent(mover)).value != to
  {
    var k0 := FindKing(b, Opponent(mover)).value;
    assert !Attacked(b, k0, mover);
    assert HoldsColor(b, from, mover) && k0 !in PseudoMoves(b, from);
  }

  /** The board actually played differs from the filter's relocated copy only
      in the kind and flag of the piece on `to`: the same colours, the same
      kings of the mover, and the same pieces of the opponent. */
  lemma ApplyMoveMatchesRelocate(b: Board, from: Square, to: Square)
    requires OnBoard(from) && OnBoard(to) && from != to && At(b, from).Some?
    ensures var mover := At(b, from).value.color;
      var nb := ApplyMove(b, from, to);
      var rel := Relocate(b, from, to);
      && SameColors(nb, rel)
      && (forall sq :: OnBoard(sq) ==> (IsKingOf(At(nb, sq), mover) <==> IsKingOf(At(rel, sq), mover)))
      && (forall sq :: HoldsColor(rel, sq, Opponent(mover)) ==> At(rel, sq) == At(nb, sq))
  {
    LandedPiece(At(b, from).value, to);
  }

  /** After a legal move the mover's king is on the board and not attacked:
      the filter's verdict on the relocated copy carries over to the real board. */
  lemma MoverKingSafeAfterMove(b: Board, from: Square, to: Square, mover: Color)
    requires HoldsColor(b, from, mover) && HasKing(b, mover)
    requires to in LegalMoves(b, from)
    ensures OnBoard(to) && At(b, from).Some?
    ensures var nb := ApplyMove(b, from, to);
      HasKing(nb, mover) && !Attacked(nb, FindKing(nb, mover).value, Opponent(mover))
  {
    assert At(b, from).value.color == mover;
    assert to in PseudoMoves(b, from) && Safe(b, from, to, mover);
    var nb := ApplyMove(b, from, to);
    var rel := Relocate(b, from, to);
    ApplyMoveMatchesRelocate(b, from, to);
    FindKingAgrees(nb, rel, mover);
    AttackedAgrees(rel, nb, FindKing(rel, mover).value, Opponent(mover));
  }

  /** After a pseudo-legal move from a legal position the opponent's first king is still there. */
  lemma OpponentKingRemains(b: Board, from: Square, to: Square, mover: Color)
    requires LegalPosition(b, mover) && HoldsColor(b, from, mover)
    requires to in PseudoMoves(b, from)
    ensures OnBoard(to) && At(b, from).Some?
    ensures HasKing(ApplyMove(b, from, to), Opponent(mover))
  {
    EnemyKingNotCaptured(b, from, to, mover);
    var k0 := FindKing(b, Opponent(mover)).value;
    assert IsKingOf(At(ApplyMove(b, from, to), k0), Opponent(mover));
  }

  /** A legal move keeps the game in a legal position: both kings remain on
      the board and the mover's king is not attacked by the side to play next. */
  lemma LegalMoveKeepsPositionLegal(b: Board, from: Square, to: Square, mover: Color)
    requires LegalPosition(b, mover) && HoldsColor(b, from, mover)
    requires to in LegalMoves(b, from)
    ensures OnBoard(to) && At(b, from).Some?
    ensures LegalPosition(ApplyMove(b, from, to), Opponent(mover))
  {
    MoverKingSafeAfterMove(b, from, to, mover);
    OpponentKingRemains(b, from, to, mover);
    assert Opponent(Opponent(mover)) == mover;
  }
}
