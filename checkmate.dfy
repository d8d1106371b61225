/** A checkmate played through the click handler. Black's king stands on
    its back rank at (0,4), white's king two squares in front of it at (2,4)
    and white's queen on (1,7). White selects the queen and moves it to
    (1,4): the queen gives check, covers the four free squares around the
    black king, and cannot be taken because white's king protects it. The
    detector then flags check and checkmate, and every later click is
    ignored. */
module Checkmate {
  import opened ChessBoard
  import opened MoveGen
  import opened MoveGenFacts
  import opened Rules
  import opened Moves
  import opened Game

  // ---------------------------------------------------------------------------
  // What a lone king and a queen attack

  /** A king's destinations are neighbouring squares. */
  lemma KingStepsOnlyNear(b: Board, k: Square, m: Square)
    requires OnBoard(k) && At(b, k).Some? && At(b, k).value.kind == King
    requires m in PseudoMoves(b, k)
    ensures -1 <= m.row - k.row <= 1 && -1 <= m.col - k.col <= 1
  {
    var p := At(b, k).value;
    PseudoMovesOfPiece(b, k, p);
    JumpsIff(b, k, p.color, KingOffsets, m);
    var o :| o in KingOffsets && m == Shift(k, o) && EmptyOrEnemy(b, m, p.color);
  }

  /** A king reaches the neighbouring square at a table offset unless a
      piece of its own stands there. */
  lemma KingReachesNeighbour(b: Board, k: Square, o: Offset)
    requires OnBoard(k) && At(b, k).Some? && At(b, k).value.kind == King
    requires o in KingOffsets && EmptyOrEnemy(b, Shift(k, o), At(b, k).value.color)
    ensures Shift(k, o) in PseudoMoves(b, k)
  {
    var p := At(b, k).value;
    PseudoMovesOfPiece(b, k, p);
    JumpsIff(b, k, p.color, KingOffsets, Shift(k, o));
  }

  /** Steps along a unit direction stay on a row, a column or a diagonal. */
  lemma AdvanceOnLine(q: Square, d: Offset, k: int)
    requires IsUnit(d)
    ensures var m := Advance(q, d, k);
      m.row == q.row || m.col == q.col || m.row - q.row == m.col - q.col || m.row - q.row == q.col - m.col
  {
    if d.dr == 0 {
      assert k * d.dr == 0;
    } else if d.dc == 0 {
      assert k * d.dc == 0;
    } else if d.dr == d.dc {
    } else if d.dr == 1 {
      assert k * d.dr == k && k * d.dc == -k;
    } else {
      assert k * d.dr == -k && k * d.dc == k;
    }
  }

  /** A queen's destinations lie on its row, its column or one of its diagonals. */
  lemma QueenStaysOnLines(b: Board, q: Square, m: Square)
    requires OnBoard(q) && At(b, q).Some? && At(b, q).value.kind == Queen
    requires m in PseudoMoves(b, q)
    ensures m.row == q.row || m.col == q.col || m.row - q.row == m.col - q.col || m.row - q.row == q.col - m.col
  {
    var p := At(b, q).value;
    PseudoMovesOfPiece(b, q, p);
    QueenMovesIff(b, q, p.color, m);
    var d :| (d in RookDirections || d in BishopDirections) && SlideReaches(b, q, p.color, d, m);
    var k :| 1 <= k && m == Advance(q, d, k) && ClearSpan(b, q, d, 1, k) && EmptyOrEnemy(b, m, p.color);
    TablesWellFormed();
    AdvanceOnLine(q, d, k);
  }

  /** A queen reaches the neighbouring square in any of the eight directions
      unless a piece of its own stands there. */
  lemma QueenReachesNeighbour(b: Board, q: Square, d: Offset)
    requires OnBoard(q) && At(b, q).Some? && At(b, q).value.kind == Queen
    requires d in RookDirections || d in BishopDirections
    requires EmptyOrEnemy(b, Shift(q, d), At(b, q).value.color)
    ensures Shift(q, d) in PseudoMoves(b, q)
  {
    var p := At(b, q).value;
    PseudoMovesOfPiece(b, q, p);
    assert Advance(q, d, 1) == Shift(q, d);
    assert SlideReaches(b, q, p.color, d, Shift(q, d)) by {
      assert ClearSpan(b, q, d, 1, 1);
    }
    QueenMovesIff(b, q, p.color, Shift(q, d));
  }

  /** A side whose only piece is its king attacks only the squares around it. */
  lemma LoneKingAttacksOnlyNear(b: Board, color: Color, k: Square, target: Square)
    requires OnBoard(k) && IsKingOf(At(b, k), color)
    requires forall sq :: HoldsColor(b, sq, color) ==> sq == k
    requires Attacked(b, target, color)
    ensures -1 <= target.row - k.row <= 1 && -1 <= target.col - k.col <= 1
  {
    var sq :| HoldsColor(b, sq, color) && target in PseudoMoves(b, sq);
    KingStepsOnlyNear(b, k, target);
  }

  // ---------------------------------------------------------------------------
  // Boards holding only the two kings and white's queen

  /** Only three pieces stand on `b`: black's king on `bk`, white's queen on
      `wq` and white's king on `wk`. */
  ghost predicate KingQueenKing(b: Board, bk: Square, wq: Square, wk: Square) {
    && OnBoard(bk) && OnBoard(wq) && OnBoard(wk) && bk != wq && bk != wk && wq != wk
    && IsKingOf(At(b, bk), Black) && IsKingOf(At(b, wk), White)
    && At(b, wq).Some? && At(b, wq).value.kind == Queen && At(b, wq).value.color == White
    && forall sq :: OnBoard(sq) && sq != bk && sq != wq && sq != wk ==> At(b, sq) == None
  }

  /** On such a board each side's king is found where it stands, black has
      no other piece, and white has only its queen besides. */
  lemma KingQueenKingPieces(b: Board, bk: Square, wq: Square, wk: Square)
    requires KingQueenKing(b, bk, wq, wk)
    ensures HasKing(b, Black) && FindKing(b, Black) == Some(bk)
    ensures HasKing(b, White) && FindKing(b, White) == Some(wk)
    ensures forall sq :: HoldsColor(b, sq, Black) ==> sq == bk
    ensures forall sq :: HoldsColor(b, sq, White) ==> sq == wq || sq == wk
  {
    assert OnBoard(bk) && IsKingOf(At(b, bk), Black);
    assert OnBoard(wk) && IsKingOf(At(b, wk), White);
  }

  /** The queen moving to an empty square leaves a board of the same kind,
      both as the filter's copy and as the move actually played. */
  lemma QueenMoveKeepsShape(b: Board, bk: Square, wq: Square, wk: Square, to: Square)
    requires KingQueenKing(b, bk, wq, wk) && OnBoard(to) && At(b, to) == None
    ensures KingQueenKing(Relocate(b, wq, to), bk, to, wk)
    ensures KingQueenKing(ApplyMove(b, wq, to), bk, to, wk)
  {
    assert to != bk && to != wk && to != wq;
  }

  /** The black king stepping to a square other than white's king's: it is
      found there on the filter's copy, and white's king stays put. */
  lemma KingStepFound(b: Board, bk: Square, wq: Square, wk: Square, m: Square)
    requires KingQueenKing(b, bk, wq, wk) && OnBoard(m) && m != bk && m != wk
    ensures FindKing(Relocate(b, bk, m), Black) == Some(m)
    ensures At(Relocate(b, bk, m), wk) == At(b, wk)
    ensures m != wq ==> At(Relocate(b, bk, m), wq) == At(b, wq)
  {
    var copy := Relocate(b, bk, m);
    assert IsKingOf(At(copy, m), Black);
    forall sq | OnBoard(sq) && IsKingOf(At(copy, sq), Black) ensures sq == m {
    }
  }

  // ---------------------------------------------------------------------------
  // The mated position: black's king on (0,4), white's queen on (1,4),
  // white's king on (2,4)

  /** The queen next to the black king gives check. */
  lemma QueenGivesCheck(b: Board)
    requires KingQueenKing(b, Square(0, 4), Square(1, 4), Square(2, 4))
    ensures HasKing(b, Black) && InCheck(b, Black)
  {
    KingQueenKingPieces(b, Square(0, 4), Square(1, 4), Square(2, 4));
    QueenReachesNeighbour(b, Square(1, 4), Offset(-1, 0));
    assert HoldsColor(b, Square(1, 4), White);
  }

  /** The black king cannot step onto any of the four free squares beside
      it: the queen, still on (1,4), reaches each of them. */
  lemma FreeSquareCovered(b: Board, m: Square, d: Offset)
    requires KingQueenKing(b, Square(0, 4), Square(1, 4), Square(2, 4))
    requires d in RookDirections || d in BishopDirections
    requires m == Shift(Square(1, 4), d) && OnBoard(m) && m != Square(0, 4) && m != Square(2, 4)
    ensures !Safe(b, Square(0, 4), m, Black)
  {
    var copy := Relocate(b, Square(0, 4), m);
    var q := Square(1, 4);
    assert m != q by {
      TablesWellFormed();
    }
    assert FindKing(copy, Black) == Some(m) && At(copy, q) == At(b, q) by {
      KingStepFound(b, Square(0, 4), q, Square(2, 4), m);
    }
    assert Attacked(copy, m, White) by {
      assert IsKingOf(At(copy, m), Black);
      QueenReachesNeighbour(copy, q, d);
      assert HoldsColor(copy, q, White) && m in PseudoMoves(copy, q);
    }
    UnsafeWhenAttacked(b, Square(0, 4), m, Black);
  }

  /** A move after which the mover's king is found on an attacked square is not safe. */
  lemma UnsafeWhenAttacked(b: Board, from: Square, to: Square, color: Color)
    requires OnBoard(from) && OnBoard(to)
    requires FindKing(Relocate(b, from, to), color) == Some(to)
    requires Attacked(Relocate(b, from, to), to, Opponent(color))
    ensures !Safe(b, from, to, color)
  {
  }

  /** Nor can the black king take the queen: white's king protects it. */
  lemma QueenProtected(b: Board)
    requires KingQueenKing(b, Square(0, 4), Square(1, 4), Square(2, 4))
    ensures !Safe(b, Square(0, 4), Square(1, 4), Black)
  {
    var copy := Relocate(b, Square(0, 4), Square(1, 4));
    var k := Square(2, 4);
    assert FindKing(copy, Black) == Some(Square(1, 4)) && At(copy, k) == At(b, k) by {
      KingStepFound(b, Square(0, 4), Square(1, 4), k, Square(1, 4));
    }
    assert Attacked(copy, Square(1, 4), White) by {
      assert HoldsColor(copy, k, White) && HoldsColor(copy, Square(1, 4), Black);
      assert Shift(k, Offset(-1, 0)) == Square(1, 4);
      KingReachesNeighbour(copy, k, Offset(-1, 0));
    }
    UnsafeWhenAttacked(b, Square(0, 4), Square(1, 4), Black);
  }

  /** Whichever square the black king steps to, it is attacked there. */
  lemma NoEscape(b: Board, m: Square)
    requires KingQueenKing(b, Square(0, 4), Square(1, 4), Square(2, 4))
    requires m in PseudoMoves(b, Square(0, 4))
    ensures !Safe(b, Square(0, 4), m, Black)
  {
    KingStepsOnlyNear(b, Square(0, 4), m);
    assert OnBoard(m) && m != Square(0, 4);
    if m == Square(1, 4) {
      QueenProtected(b);
    } else if m == Square(0, 3) {
      FreeSquareCovered(b, m, Offset(-1, -1));
    } else if m == Square(0, 5) {
      FreeSquareCovered(b, m, Offset(-1, 1));
    } else if m == Square(1, 3) {
      FreeSquareCovered(b, m, Offset(0, -1));
    } else {
      assert m == Square(1, 5);
      FreeSquareCovered(b, m, Offset(0, 1));
    }
  }

  /** The black king has no legal move. */
  lemma BlackKingStuck(b: Board)
    requires KingQueenKing(b, Square(0, 4), Square(1, 4), Square(2, 4))
    ensures KingPresent(b, Square(0, 4)) && LegalMoves(b, Square(0, 4)) == []
  {
    var k := Square(0, 4);
    KingQueenKingPieces(b, k, Square(1, 4), Square(2, 4));
    var moves := LegalMoves(b, k);
    if moves != [] {
      var m := moves[0];
      assert m in moves;
      NoEscape(b, m);
      assert false;
    }
  }

  /** The position is checkmate with black to move, and it is a legal
      position: white's king is not attacked and no pawn stands anywhere. */
  lemma BlackIsMated(b: Board)
    requires KingQueenKing(b, Square(0, 4), Square(1, 4), Square(2, 4))
    ensures HasKing(b, Black) && InCheck(b, Black) && !HasLegalMove(b, Black)
    ensures LegalPosition(b, Black) && NoPawnOnEndRank(b)
  {
    KingQueenKingPieces(b, Square(0, 4), Square(1, 4), Square(2, 4));
    QueenGivesCheck(b);
    BlackKingStuck(b);
    if Attacked(b, Square(2, 4), Black) {
      LoneKingAttacksOnlyNear(b, Black, Square(0, 4), Square(2, 4));
    }
  }

  // ---------------------------------------------------------------------------
  // The position before the mating move: the queen still on (1,7)

  /** The board with nothing on it. */
  function EmptyBoard(): (b: Board)
    ensures forall sq :: OnBoard(sq) ==> At(b, sq) == None
  {
    seq(8, _ => seq(8, _ => None))
  }

  /** Black's king on (0,4), white's queen on (1,7), white's king on (2,4). */
  function BeforeMate(): (b: Board)
    ensures KingQueenKing(b, Square(0, 4), Square(1, 7), Square(2, 4))
    ensures forall sq :: OnBoard(sq) ==> At(b, sq).Some? ==> !At(b, sq).value.moved
  {
    var b := Put(EmptyBoard(), Square(0, 4), Some(Piece(King, Black, false)));
    var b := Put(b, Square(1, 7), Some(Piece(Queen, White, false)));
    Put(b, Square(2, 4), Some(Piece(King, White, false)))
  }

  /** Before the mating move neither king is attacked: the queen on (1,7)
      shares no line with (0,4), and the kings stand two rows apart. */
  lemma BeforeMateLegal(b: Board)
    requires KingQueenKing(b, Square(0, 4), Square(1, 7), Square(2, 4))
    ensures LegalPosition(b, White) && NoPawnOnEndRank(b)
    ensures HasKing(b, White) && !InCheck(b, White)
  {
    KingQueenKingPieces(b, Square(0, 4), Square(1, 7), Square(2, 4));
    if Attacked(b, Square(0, 4), White) {
      var sq :| HoldsColor(b, sq, White) && Square(0, 4) in PseudoMoves(b, sq);
      if sq == Square(1, 7) {
        QueenStaysOnLines(b, sq, Square(0, 4));
      } else {
        KingStepsOnlyNear(b, sq, Square(0, 4));
      }
    }
    if Attacked(b, Square(2, 4), Black) {
      LoneKingAttacksOnlyNear(b, Black, Square(0, 4), Square(2, 4));
    }
  }

  /** The queen on (1,7) reaches (1,4): the squares (1,6) and (1,5) between are empty. */
  lemma QueenSlidesToMate(b: Board)
    requires KingQueenKing(b, Square(0, 4), Square(1, 7), Square(2, 4))
    ensures Square(1, 4) in PseudoMoves(b, Square(1, 7))
  {
    var from, to, d := Square(1, 7), Square(1, 4), Offset(0, -1);
    assert SlideReaches(b, from, White, d, to) by {
      assert to == Advance(from, d, 3);
      assert Advance(from, d, 1) == Square(1, 6) && Advance(from, d, 2) == Square(1, 5);
      assert ClearSpan(b, from, d, 1, 3);
    }
    PseudoMovesOfPiece(b, from, At(b, from).value);
    QueenMovesIff(b, from, White, to);
  }

  /** After the queen's move to (1,4) white's king is not attacked. */
  lemma MatingMoveSafe(b: Board)
    requires KingQueenKing(b, Square(0, 4), Square(1, 7), Square(2, 4))
    ensures Safe(b, Square(1, 7), Square(1, 4), White)
  {
    var copy := Relocate(b, Square(1, 7), Square(1, 4));
    QueenMoveKeepsShape(b, Square(0, 4), Square(1, 7), Square(2, 4), Square(1, 4));
    BlackIsMated(copy);
  }

  /** The queen's move from (1,7) to (1,4) is legal. */
  lemma MatingMoveLegal(b: Board)
    requires KingQueenKing(b, Square(0, 4), Square(1, 7), Square(2, 4))
    ensures KingPresent(b, Square(1, 7)) && Square(1, 4) in LegalMoves(b, Square(1, 7))
  {
    KingQueenKingPieces(b, Square(0, 4), Square(1, 7), Square(2, 4));
    QueenSlidesToMate(b);
    MatingMoveSafe(b);
  }

  // ---------------------------------------------------------------------------
  // Playing it through the click handler

  /** White to move in the position before the mate, nothing selected, no
      history and nothing captured. */
  function MateInOne(): Snapshot {
    Snapshot(BeforeMate(), None, White, [], [], [], [], false, false)
  }

  /** The position before the mate is a valid state. */
  lemma MateInOneValid()
    ensures ValidState(MateInOne())
  {
    BeforeMateLegal(BeforeMate());
  }

  /** Clicking the queen selects it with its legal destinations, among
      them (1,4). */
  lemma SelectQueen(s: Snapshot)
    requires s == MateInOne()
    ensures ValidState(s)
    ensures var t := AfterClick(s, Square(1, 7));
      && ValidState(t) && t.selectedSquare == Some(Square(1, 7))
      && t.validMoves == LegalMoves(BeforeMate(), Square(1, 7)) && Square(1, 4) in t.validMoves
  {
    MateInOneValid();
    var t := AfterClick(s, Square(1, 7));
    KingQueenKingPieces(s.board, Square(0, 4), Square(1, 7), Square(2, 4));
    assert HoldsColor(s.board, Square(1, 7), White);
    ClickCases(s, Square(1, 7));
    ClickKeepsValid(s, Square(1, 7), t);
    MatingMoveLegal(s.board);
  }

  /** With the queen on (1,7) selected, clicking (1,4) plays the mate:
      black is to move, the move is appended to the history, and the
      detector flags check and checkmate. */
  lemma QueenMoveMates(s: Snapshot)
    requires ValidState(s) && !s.isCheckmate && KingQueenKing(s.board, Square(0, 4), Square(1, 7), Square(2, 4))
    requires s.selectedSquare == Some(Square(1, 7)) && Square(1, 4) in s.validMoves
    ensures var t := AfterClick(s, Square(1, 4));
      && t.board == ApplyMove(s.board, Square(1, 7), Square(1, 4))
      && t.currentPlayer == Black && t.selectedSquare.None?
      && t.moveHistory == s.moveHistory + [MoveRecord(Square(1, 7), Square(1, 4), Queen, None)]
      && t.isCheck && t.isCheckmate && ValidState(t)
  {
    var from, to := Square(1, 7), Square(1, 4);
    var t := AfterClick(s, to);
    assert At(s.board, to) == None && At(s.board, from).value.kind == Queen && s.currentPlayer == White by {
      KingQueenKingPieces(s.board, Square(0, 4), from, Square(2, 4));
    }
    ClickCases(s, to);
    AfterMoveFields(s, from, to, AfterMove(s, from, to));
    assert KingQueenKing(t.board, Square(0, 4), to, Square(2, 4)) by {
      QueenMoveKeepsShape(s.board, Square(0, 4), from, Square(2, 4), to);
    }
    BlackIsMated(t.board);
    ClickKeepsValid(s, to, t);
  }

  /** Clicking (1,4) next plays the mate: the queen stands on (1,4), black
      is to move, the history holds that one move, and the detector flags
      check and checkmate. The state is valid, and every further click
      leaves it as it is. */
  lemma PlayMate(s: Snapshot)
    requires s == MateInOne()
    ensures ValidState(s) && ValidState(AfterClick(s, Square(1, 7)))
    ensures var t := AfterClick(AfterClick(s, Square(1, 7)), Square(1, 4));
      && t.board == ApplyMove(BeforeMate(), Square(1, 7), Square(1, 4))
      && t.currentPlayer == Black && t.selectedSquare.None?
      && t.moveHistory == [MoveRecord(Square(1, 7), Square(1, 4), Queen, None)]
      && t.isCheck && t.isCheckmate && ValidState(t)
      && forall sq :: OnBoard(sq) ==> AfterClick(t, sq) == t
  {
    SelectQueen(s);
    var s1 := AfterClick(s, Square(1, 7));
    assert s1.board == BeforeMate() && !s1.isCheckmate && s1.moveHistory == [] by {
      ClickCases(s, Square(1, 7));
    }
    QueenMoveMates(s1);
    var t := AfterClick(s1, Square(1, 4));
    assert t.moveHistory == [MoveRecord(Square(1, 7), Square(1, 4), Queen, None)] by {
      assert [] + [MoveRecord(Square(1, 7), Square(1, 4), Queen, None)] == [MoveRecord(Square(1, 7), Square(1, 4), Queen, None)];
    }
    forall sq | OnBoard(sq) ensures AfterClick(t, sq) == t {
      ClickCases(t, sq);
    }
  }
}
